/** What every interleaving of workers, operators and producers keeps. */
module WorkerLaws {
  import opened Domain
  import opened JobQueue
  import opened Outbox
  import opened Workers

  // ---- a property of every copy -------------------------------------------

  lemma StartKeepsAll(s: Store, task: Task, now: int, f: Key -> bool, thrown: Key -> bool)
    requires AllStored(s, f) && (task.Promote? ==> IsDue(s, now, task.due))
    ensures AllStored(Start(s, task, now).0, f) && AllLocal(Start(s, task, now).1, f, thrown)
  {
  }

  /** A retry needs `f` one attempt further; every other command only moves or restamps a job. */
  ghost predicate Retriable(c: Settings, f: Key -> bool, thrown: Key -> bool) {
    forall k: Key | f(k) && thrown(k) && !k.kind.Unregistered? && k.attempts < c.maxRetries :: f(k.(attempts := k.attempts + 1))
  }

  lemma PushesKeepAll(s: Store, j: Job, at: int, f: Key -> bool)
    requires AllStored(s, f) && f(KeyOf(j))
    ensures AllStored(PushReady(s, j), f) && AllStored(PushProcessing(s, j), f)
    ensures AllStored(PushFailed(s, j), f) && AllStored(AddDelayed(s, j, at), f)
  {
  }

  lemma RemovalsKeepAll(s: Store, j: Job, f: Key -> bool)
    requires AllStored(s, f)
    ensures AllStored(RemoveProcessing(s, j), f) && AllStored(RemoveDelayed(s, j), f)
    ensures s.failed != [] ==> AllStored(PopFailed(s), f) && f(KeyOf(s.failed[|s.failed| - 1]))
  {
  }

  lemma ContinueKeepsStored(c: Settings, s: Store, p: Proc, now: int, f: Key -> bool, thrown: Key -> bool)
    requires AllStored(s, f) && AllLocal(p, f, thrown)
    ensures AllStored(Continue(c, s, p, now).0, f)
  {
    hide AllStored, PushReady, PushProcessing, PushFailed, AddDelayed, RemoveProcessing, RemoveDelayed, PopFailed, RetryDelay;
    hide AllIn, RetriedJob, FailedJob, StaleJob, WillRetry;
    match p
    case Idle =>
    case Popped(raw) => RemovalsKeepAll(s, raw, f);
    case Stamping(j) => PushesKeepAll(s, j, 0, f);
    case Running(j) =>
    case Acking(j) => RemovalsKeepAll(s, j, f);
    case Failing(j, error) => RemovalsKeepAll(s, j, f);
    case Retrying(j, at) => PushesKeepAll(s, j, at, f);
    case Burying(j) => PushesKeepAll(s, j, 0, f);
    case Promoting(todo, _, _) =>
      if todo != [] { RemovalsKeepAll(s, todo[0], f); }
    case Promoted(j, _, _, _) => PushesKeepAll(s, j, 0, f);
    case Reclaiming(todo, _) =>
      if todo != [] { RemovalsKeepAll(s, todo[0], f); }
    case Reclaimed(j, _, _) => PushesKeepAll(s, j, 0, f);
    case Requeuing(_, _) =>
      if s.failed != [] { RemovalsKeepAll(s, s.failed[0], f); }
    case Requeued(j, _, _) => PushesKeepAll(s, j, 0, f);
  }

  lemma KeyOfDerived(j: Job, error: string, at: int)
    ensures KeyOf(RetriedJob(j, error)) == KeyOf(j).(attempts := j.attempts + 1)
    ensures KeyOf(FailedJob(j, Some(error), at)) == KeyOf(j)
  {
  }

  lemma ContinueKeepsLocal(c: Settings, s: Store, p: Proc, now: int, f: Key -> bool, thrown: Key -> bool)
    requires AllStored(s, f) && AllLocal(p, f, thrown) && Retriable(c, f, thrown)
    ensures AllLocal(Continue(c, s, p, now).1, f, thrown)
  {
    hide PushReady, PushProcessing, PushFailed, AddDelayed, RemoveProcessing, RemoveDelayed, PopFailed, RetryDelay;
    hide RetriedJob, FailedJob;
    if p.Failing? {
      KeyOfDerived(p.job, p.error, now);
      assert WillRetry(c, p.job) ==> f(KeyOf(p.job).(attempts := p.job.attempts + 1));
    }
  }

  lemma ContinueKeepsAll(c: Settings, s: Store, p: Proc, now: int, f: Key -> bool, thrown: Key -> bool)
    requires AllStored(s, f) && AllLocal(p, f, thrown) && Retriable(c, f, thrown)
    ensures AllStored(Continue(c, s, p, now).0, f) && AllLocal(Continue(c, s, p, now).1, f, thrown)
  {
    hide *;
    ContinueKeepsStored(c, s, p, now, f, thrown);
    ContinueKeepsLocal(c, s, p, now, f, thrown);
  }

  /** A handler that throws in this step throws with a job satisfying `thrown`. */
  ghost predicate ThrowsOnly(c: Settings, s: State, a: Action, thrown: Key -> bool) {
    (a.Next? && a.proc in s.procs && s.procs[a.proc].Running? && Handle(c, s.world, s.procs[a.proc].job, a.response).1.Threw?)
    ==> thrown(KeyOf(s.procs[a.proc].job))
  }

  lemma StepKeepsAll(c: Settings, s: State, a: Action, f: Key -> bool, thrown: Key -> bool)
    requires AllCopies(s, f, thrown) && Retriable(c, f, thrown) && ThrowsOnly(c, s, a, thrown)
    requires a.Enqueue? ==> f(Key(a.id, a.kind, a.target, 0))
    ensures AllCopies(Step(c, s, a), f, thrown)
  {
    hide AllStored, Start, Continue, Handle, Retriable, AllIn;
    if Enabled(s, a) {
      match a
      case Enqueue(id, kind, target, request) => PushesKeepAll(s.store, NewJob(id, kind, target, request), 0, f);
      case AddNotification(_, _) =>
      case AddEvent(_, _, _, _) =>
      case Begin(p, task, now) => StartKeepsAll(s.store, task, now, f, thrown);
      case Next(p, now, response) => ContinueKeepsAll(c, s.store, s.procs[p], now, f, thrown);
    }
  }

  lemma WeakenAll(s: State, f: Key -> bool, thrown: Key -> bool, g: Key -> bool, thrown': Key -> bool)
    requires AllCopies(s, f, thrown)
    requires forall k | f(k) :: g(k)
    requires forall k | thrown(k) :: thrown'(k)
    ensures AllCopies(s, g, thrown')
  {
  }

  // ---- nothing is lost ----------------------------------------------------

  lemma PushReadyStored(s: Store, j: Job, id: int)
    requires Stored(s, id) || j.id == id
    ensures Stored(PushReady(s, j), id)
  {
    var s' := PushReady(s, j);
    if j.id == id {
      assert j.kind in s'.ready && j in s'.ready[j.kind];
    } else if kind, x :| kind in s.ready && x in s.ready[kind] && x.id == id {
      assert kind in s'.ready && x in s'.ready[kind];
    }
  }

  lemma PopReadyStored(s: Store, kind: Kind, id: int)
    requires Queue(s, kind) != [] && Stored(s, id)
    ensures Stored(PopReady(s, kind), id)
  {
    var s', q := PopReady(s, kind), Queue(s, kind);
    if k, x :| k in s.ready && x in s.ready[k] && x.id == id {
      assert k == kind && x != q[|q| - 1] ==> x in q[..|q| - 1];
      assert x in s'.processing || (k in s'.ready && x in s'.ready[k]);
    } else if x :| x in s.processing && x.id == id {
      assert x in s'.processing;
    }
  }

  lemma RemoveProcessingStored(s: Store, j: Job, id: int)
    requires Stored(s, id) && j.id != id
    ensures Stored(RemoveProcessing(s, j), id)
  {
    var s' := RemoveProcessing(s, j);
    if x :| x in s.processing && x.id == id {
      assert x in s'.processing;
    }
  }

  lemma RemoveDelayedStored(s: Store, j: Job, id: int)
    requires Stored(s, id) && j.id != id
    ensures Stored(RemoveDelayed(s, j), id)
  {
    var s' := RemoveDelayed(s, j);
    if x :| x in s.delayed && x.id == id {
      assert x in s'.delayed;
    }
  }

  lemma PopFailedStored(s: Store, id: int)
    requires s.failed != [] && Stored(s, id) && s.failed[|s.failed| - 1].id != id
    ensures Stored(PopFailed(s), id)
  {
    var s' := PopFailed(s);
    if x :| x in s.failed && x.id == id {
      assert x in s'.failed;
    }
  }

  lemma PushesStored(s: Store, j: Job, at: int, id: int)
    requires Stored(s, id) || j.id == id
    ensures Stored(PushProcessing(s, j), id) && Stored(PushFailed(s, j), id) && Stored(AddDelayed(s, j, at), id)
  {
    if j.id == id {
      assert j in PushProcessing(s, j).processing && j in PushFailed(s, j).failed && j in AddDelayed(s, j, at).delayed;
    } else if x :| x in s.processing && x.id == id {
      assert x in PushProcessing(s, j).processing;
    } else if x :| x in s.failed && x.id == id {
      assert x in PushFailed(s, j).failed;
    } else if x :| x in s.delayed && x.id == id {
      assert x in AddDelayed(s, j, at).delayed;
    }
  }

  /** A command leaves every id in Redis or in the hands of the process that took it out, unless it is an ack. */
  lemma ContinueLosesNothing(c: Settings, s: Store, p: Proc, now: int, id: int)
    requires Stored(s, id) || Holds(p, id)
    ensures Stored(Continue(c, s, p, now).0, id) || Holds(Continue(c, s, p, now).1, id) || (p.Acking? && p.job.id == id)
  {
    hide Stored;
    match p
    case Idle =>
    case Popped(raw) =>
      if raw.id != id { RemoveProcessingStored(s, raw, id); }
    case Stamping(j) => PushesStored(s, j, 0, id);
    case Running(j) =>
    case Acking(j) =>
      if j.id != id { RemoveProcessingStored(s, j, id); }
    case Failing(j, error) =>
      if j.id != id { RemoveProcessingStored(s, j, id); }
    case Retrying(j, at) => PushesStored(s, j, at, id);
    case Burying(j) => PushesStored(s, j, 0, id);
    case Promoting(todo, count, limit) =>
      if todo != [] && todo[0].id != id { RemoveDelayedStored(s, todo[0], id); }
    case Promoted(j, _, _, _) => PushReadyStored(s, j, id);
    case Reclaiming(todo, at) =>
      if todo != [] && todo[0].id != id { RemoveProcessingStored(s, todo[0], id); }
    case Reclaimed(j, _, _) => PushReadyStored(s, j, id);
    case Requeuing(count, limit) =>
      if s.failed != [] && s.failed[|s.failed| - 1].id != id { PopFailedStored(s, id); }
    case Requeued(j, _, _) => PushReadyStored(s, j, id);
  }

  lemma StartLosesNothing(s: Store, task: Task, now: int, id: int)
    requires Stored(s, id)
    ensures Stored(Start(s, task, now).0, id)
  {
    hide Stored;
    if task.Poll? && Queue(s, task.kind) != [] {
      PopReadyStored(s, task.kind, id);
    }
  }

  lemma StepLosesNothing(c: Settings, s: State, a: Action, id: int)
    requires id in s.enqueued ==> Accounted(s, id)
    ensures id in Step(c, s, a).enqueued ==> Accounted(Step(c, s, a), id)
  {
    hide Stored, Start, Continue, Handle;
    var s' := Step(c, s, a);
    if Enabled(s, a) && id in s'.enqueued {
      match a
      case Enqueue(x, kind, target, request) =>
        if x == id || Stored(s.store, id) {
          PushReadyStored(s.store, NewJob(x, kind, target, request), id);
        }
      case AddNotification(_, _) =>
      case AddEvent(_, _, _, _) =>
      case Begin(p, task, now) =>
        if Stored(s.store, id) {
          StartLosesNothing(s.store, task, now, id);
        } else if id !in s.acked {
          var q :| q in s.procs && Holds(s.procs[q], id);
          assert q in s'.procs && Holds(s'.procs[q], id);
        }
      case Next(p, now, response) =>
        if id !in s.acked && !Stored(s.store, id) {
          var q :| q in s.procs && Holds(s.procs[q], id);
          assert q != p ==> q in s'.procs && Holds(s'.procs[q], id);
        }
        if Stored(s.store, id) || Holds(s.procs[p], id) {
          ContinueLosesNothing(c, s.store, s.procs[p], now, id);
          assert Holds(s'.procs[p], id) ==> Accounted(s', id);
        }
    }
  }

  /** In every run, every enqueued job is acknowledged, in Redis, or held by a process between two commands. */
  lemma {:induction false} NoJobIsLost(c: Settings, trace: seq<Action>, id: int)
    ensures var s := Run(c, EMPTY, trace); id in s.enqueued ==> Accounted(s, id)
  {
    hide Accounted, Step;
    if trace != [] {
      var n := |trace| - 1;
      NoJobIsLost(c, trace[..n], id);
      StepLosesNothing(c, Run(c, EMPTY, trace[..n]), trace[n], id);
    }
  }

  // ---- attempts are bounded -----------------------------------------------

  function Bounded(c: Settings): Key -> bool {
    (k: Key) => k.attempts <= c.maxRetries
  }

  function Anything(): Key -> bool {
    (k: Key) => true
  }

  /** In every run, no copy of a job, anywhere, has been attempted more often than `worker_max_retries` allows. */
  lemma {:induction false} AttemptsBounded(c: Settings, trace: seq<Action>)
    ensures AllCopies(Run(c, EMPTY, trace), Bounded(c), Anything())
  {
    hide AllCopies, Step;
    if trace == [] {
      EmptyAll(Bounded(c), Anything());
    } else {
      var n := |trace| - 1;
      AttemptsBounded(c, trace[..n]);
      StepKeepsAll(c, Run(c, EMPTY, trace[..n]), trace[n], Bounded(c), Anything());
    }
  }

  lemma EmptyAll(f: Key -> bool, thrown: Key -> bool)
    ensures AllCopies(EMPTY, f, thrown)
  {
  }

  // ---- routing ------------------------------------------------------------

  lemma PushKeepsRouted(s: Store, j: Job)
    requires Routed(s)
    ensures Routed(PushReady(s, j))
  {
  }

  lemma ContinueKeepsRouted(c: Settings, s: Store, p: Proc, now: int)
    requires Routed(s)
    ensures Routed(Continue(c, s, p, now).0)
  {
    if p.Promoted? || p.Reclaimed? || p.Requeued? {
      PushKeepsRouted(s, p.job);
    } else {
      hide Remove, RetriedJob, FailedJob, RetryDelay, StaleJob;
      assert Continue(c, s, p, now).0.ready == s.ready;
    }
  }

  lemma StepKeepsRouted(c: Settings, s: State, a: Action)
    requires Routed(s.store)
    ensures Routed(Step(c, s, a).store)
  {
    hide Handle, Continue, PushReady;
    if Enabled(s, a) {
      if a.Enqueue? {
        PushKeepsRouted(s.store, NewJob(a.id, a.kind, a.target, a.request));
      } else if a.Next? {
        ContinueKeepsRouted(c, s.store, s.procs[a.proc], a.now);
      }
    }
  }

  /** Jobs between a pop and their outcome were popped from a registered queue. */
  predicate Registered(p: Proc) {
    && (p.Popped? ==> !p.raw.kind.Unregistered?)
    && (p.Stamping? || p.Running? || p.Acking? || p.Failing? ==> !p.job.kind.Unregistered?)
  }

  lemma StepKeepsRegistered(c: Settings, s: State, a: Action)
    requires Routed(s.store) && forall p | p in s.procs :: Registered(s.procs[p])
    ensures forall p | p in Step(c, s, a).procs :: Registered(Step(c, s, a).procs[p])
  {
    hide Handle, RetryDelay, RetriedJob, FailedJob, StaleJob, Remove, IsDue;
  }

  /** Since every job sits in the queue of its own type and only registered queues are polled, no run ever calls
      `handle_job` with a type it does not know. */
  lemma {:induction false} HandlersAreRegistered(c: Settings, trace: seq<Action>)
    ensures var s := Run(c, EMPTY, trace); Routed(s.store) && forall p | p in s.procs :: Registered(s.procs[p])
  {
    hide Step;
    if trace != [] {
      hide Registered, Routed;
      var n := |trace| - 1;
      HandlersAreRegistered(c, trace[..n]);
      StepKeepsRouted(c, Run(c, EMPTY, trace[..n]), trace[n]);
      StepKeepsRegistered(c, Run(c, EMPTY, trace[..n]), trace[n]);
    }
  }

  // ---- building concrete runs ---------------------------------------------

  lemma Snoc(c: Settings, start: State, trace: seq<Action>, a: Action)
    ensures Run(c, start, trace + [a]) == Step(c, Run(c, start, trace), a)
  {
    assert (trace + [a])[..|trace|] == trace;
  }

  /** One command of process `p`. */
  lemma Moves(c: Settings, start: State, trace: seq<Action>, p: int, proc: Proc, a: Action)
    requires var s := Run(c, start, trace); p in s.procs && s.procs[p] == proc && !proc.Running? && !proc.Acking?
    requires a.Next? && a.proc == p
    ensures var s, next := Run(c, start, trace), Continue(c, Run(c, start, trace).store, proc, a.now);
      Run(c, start, trace + [a]) == s.(store := next.0, procs := s.procs[p := next.1])
  {
    hide Continue;
    Snoc(c, start, trace, a);
  }
}
