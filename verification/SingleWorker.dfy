/** With one worker process, at every point of every run, each unacknowledged job exists exactly once. */
module SingleWorker {
  import opened Domain
  import opened JobQueue
  import opened Outbox
  import opened Workers
  import opened WorkerLaws

  /** What the processing list holds while the only worker stands at `p`. */
  predicate ProcessingIs(s: Store, p: Proc) {
    match p
    case Popped(raw) => s.processing == [raw]
    case Running(j) => s.processing == [j]
    case Acking(j) => s.processing == [j]
    case Failing(j, _) => s.processing == [j]
    case Reclaiming(todo, _) => s.processing == [] && todo == []
    case Reclaimed(_, _, _) => false
    case _ => s.processing == []
  }

  function HeldCopies(p: Proc, id: int): nat {
    if Holds(p, id) then 1 else 0
  }

  /** Every job in sight was enqueued with the type it carries. */
  function Known(enqueued: map<int, Kind>): Key -> bool {
    (k: Key) => k.id in enqueued && enqueued[k.id] == k.kind
  }

  lemma RemoveOnly(j: Job)
    ensures Remove([j], j) == []
  {
  }

  lemma ContinueKeepsProcessing(c: Settings, s: Store, p: Proc, now: int)
    requires ProcessingIs(s, p)
    ensures ProcessingIs(Continue(c, s, p, now).0, Continue(c, s, p, now).1)
  {
    hide RetriedJob, FailedJob, RetryDelay, WillRetry, Remove;
    match p
    case Popped(raw) => RemoveOnly(raw);
    case Acking(j) => RemoveOnly(j);
    case Failing(j, _) => RemoveOnly(j);
    case Stamping(j) => assert [j] + [] == [j];
    case _ =>
  }

  /** A job in the delayed set is a copy, so a job held alone is not in it. */
  lemma HeldIsNotDelayed(s: Store, j: Job, kind: Kind)
    requires Copies(s, kind, j.id) == 0
    ensures j !in s.delayed
  {
    assert j in s.delayed ==> j in DelayedCopies(s, j.id);
  }

  /** Where a process that only requeues failed jobs can stand. */
  predicate Operator(p: Proc) {
    p.Idle? || p.Requeuing? || p.Requeued?
  }

  /** One command moves at most one copy: the total number of copies of an id changes by an ack only. */
  lemma ContinueCounts(c: Settings, s: Store, p: Proc, now: int, kind: Kind, id: int, enqueued: map<int, Kind>)
    requires (ProcessingIs(s, p) || Operator(p)) && Copies(s, kind, id) + HeldCopies(p, id) <= 1
    requires id in enqueued && enqueued[id] == kind && AllLocal(p, Known(enqueued), Anything())
    ensures var (s', p') := Continue(c, s, p, now);
      Copies(s', kind, id) + HeldCopies(p', id) + (if p.Acking? && p.job.id == id then 1 else 0) == Copies(s, kind, id) + HeldCopies(p, id)
  {
    hide Copies, RetryDelay, AllIn, StaleJob, RetriedJob, FailedJob, PushReady, PushProcessing, PushFailed, AddDelayed, PopFailed, RemoveDelayed;
    match p
    case Idle =>
    case Popped(raw) => RemoveProcessingCount(s, raw, kind, id);
    case Stamping(j) => PushProcessingCount(s, j, kind, id);
    case Running(j) =>
    case Acking(j) => RemoveProcessingCount(s, j, kind, id);
    case Failing(j, error) =>
      RemoveProcessingCount(s, j, kind, id);
      KeyOfDerived(j, error, now);
    case Retrying(j, at) =>
      AddDelayedCount(s, j, at, kind, id);
      if j.id == id {
        HeldIsNotDelayed(s, j, kind);
      }
    case Burying(j) => PushFailedCount(s, j, kind, id);
    case Promoting(todo, count, limit) =>
      if todo != [] {
        RemoveDelayedCount(s, todo[0], kind, id);
      }
    case Promoted(j, _, _, _) => PushReadyCount(s, j, kind, id);
    case Reclaiming(todo, at) =>
    case Requeuing(count, limit) =>
      if s.failed != [] {
        PopFailedCount(s, kind, id);
      }
    case Requeued(j, _, _) => PushReadyCount(s, j, kind, id);
  }

  lemma StartCounts(s: Store, task: Task, now: int, kind: Kind, id: int, enqueued: map<int, Kind>)
    requires id in enqueued && enqueued[id] == kind && AllStored(s, Known(enqueued)) && Routed(s)
    ensures Copies(Start(s, task, now).0, kind, id) == Copies(s, kind, id) && HeldCopies(Start(s, task, now).1, id) == 0
  {
    if task.Poll? && Queue(s, task.kind) != [] {
      var q := Queue(s, task.kind);
      assert q[|q| - 1] in s.ready[task.kind];
      hide Copies;
      PopReadyCount(s, task.kind, kind, id);
    }
  }

  // ---- the invariant ------------------------------------------------------

  /** Only `workers` run worker tasks; anybody may enqueue, and anybody may requeue failed jobs. */
  predicate Obeys(workers: set<int>, a: Action) {
    a.Begin? ==> a.proc in workers || a.task.RequeueFailed?
  }

  /** The processes that hold `id` between two commands. */
  ghost function Holders(s: State, id: int): set<int> {
    set p | p in s.procs && Holds(s.procs[p], id)
  }

  /** An unacknowledged id exists once, in Redis or in the hands of one process; an acknowledged one not at all. */
  ghost predicate CountOk(s: State, id: int)
    requires id in s.enqueued
  {
    Copies(s.store, s.enqueued[id], id) + |Holders(s, id)| == if id in s.acked then 0 else 1
  }

  ghost predicate Exact(s: State) {
    forall id | id in s.enqueued :: CountOk(s, id)
  }

  ghost predicate Inv(w: int, s: State) {
    && (forall p | p in s.procs && p != w :: Operator(s.procs[p]))
    && Routed(s.store) && ProcessingIs(s.store, ProcOf(s, w))
    && s.acked <= s.enqueued.Keys
    && AllCopies(s, Known(s.enqueued), Anything())
    && Exact(s)
  }

  lemma HoldersChange(s: State, s': State, p: int, id: int)
    requires p in s'.procs && s'.procs == s.procs[p := s'.procs[p]]
    ensures |Holders(s', id)| + HeldCopies(ProcOf(s, p), id) == |Holders(s, id)| + HeldCopies(s'.procs[p], id)
  {
    var had, has := Holds(ProcOf(s, p), id), Holds(s'.procs[p], id);
    SplitCount(Holders(s, id), if had && !has then {p} else {}, if has && !had then {p} else {}, Holders(s', id));
  }

  lemma HolderCounts(s: State, p: int, id: int)
    ensures HeldCopies(ProcOf(s, p), id) <= |Holders(s, id)|
  {
    if p in s.procs && Holds(s.procs[p], id) {
      assert p in Holders(s, id);
    }
  }

  lemma AbsentCount(s: Store, id: int, kind: Kind, enqueued: map<int, Kind>)
    requires AllStored(s, Known(enqueued)) && id !in enqueued
    ensures Copies(s, kind, id) == 0
  {
    CountZero(Queue(s, kind), id);
    CountZero(s.processing, id);
    CountZero(s.failed, id);
    Empty(DelayedCopies(s, id));
  }

  lemma KnownGrows(s: State, id: int, kind: Kind)
    requires AllCopies(s, Known(s.enqueued), Anything()) && id !in s.enqueued
    ensures AllCopies(s, Known(s.enqueued[id := kind]), Anything())
  {
    WeakenAll(s, Known(s.enqueued), Anything(), Known(s.enqueued[id := kind]), Anything());
  }

  lemma StepKeepsKnown(c: Settings, s: State, a: Action)
    requires AllCopies(s, Known(s.enqueued), Anything())
    ensures AllCopies(Step(c, s, a), Known(Step(c, s, a).enqueued), Anything())
  {
    hide AllCopies, Start, Continue, Handle;
    if Enabled(s, a) {
      if a.Enqueue? {
        KnownGrows(s, a.id, a.kind);
      }
      StepKeepsAll(c, s, a, Known(Step(c, s, a).enqueued), Anything());
    }
  }

  lemma EnqueueCounts(c: Settings, w: int, s: State, a: Action, id: int)
    requires Inv(w, s) && a.Enqueue? && a.id !in s.enqueued && id in Step(c, s, a).enqueued
    ensures CountOk(Step(c, s, a), id)
  {
    hide Copies, AllLocal, ProcessingIs, Routed;
    var s' := Step(c, s, a);
    PushReadyCount(s.store, NewJob(a.id, a.kind, a.target, a.request), s'.enqueued[id], id);
    assert Holders(s', id) == Holders(s, id);
    if id == a.id {
      AbsentCount(s.store, id, a.kind, s.enqueued);
      NotHeld(s, id);
    } else {
      assert CountOk(s, id);
    }
  }

  lemma NotHeld(s: State, id: int)
    requires AllCopies(s, Known(s.enqueued), Anything()) && id !in s.enqueued
    ensures Holders(s, id) == {}
  {
    hide AllStored, AllIn;
    forall p | p in s.procs
      ensures !Holds(s.procs[p], id)
    {
      assert AllLocal(s.procs[p], Known(s.enqueued), Anything());
    }
    Empty(Holders(s, id));
  }

  lemma MoveCounts(c: Settings, w: int, s: State, a: Action, id: int)
    requires Inv(w, s) && (a.Begin? || a.Next?) && id in s.enqueued
    ensures CountOk(Step(c, s, a), id)
  {
    hide Copies, AllLocal, Continue, Start, Handle, Routed, ProcessingIs, AllStored, Holders, IsDue, Holds;
    assert CountOk(s, id);
    if Enabled(s, a) {
      var kind := s.enqueued[id];
      HoldersChange(s, Step(c, s, a), a.proc, id);
      HolderCounts(s, a.proc, id);
      if a.Begin? {
        StartCounts(s.store, a.task, a.now, kind, id, s.enqueued);
        NothingHeld(id);
      } else if s.procs[a.proc].Running? {
        RunningHoldsNothing(s.procs[a.proc], Step(c, s, a).procs[a.proc], id);
      } else {
        ContinueCounts(c, s.store, s.procs[a.proc], a.now, kind, id, s.enqueued);
      }
    }
  }

  lemma NothingHeld(id: int)
    ensures HeldCopies(Idle, id) == 0
  {
  }

  lemma RunningHoldsNothing(p: Proc, p': Proc, id: int)
    requires p.Running? && (p'.Acking? || p'.Failing?)
    ensures HeldCopies(p, id) == 0 && HeldCopies(p', id) == 0
  {
  }

  lemma OperatorLeavesProcessing(c: Settings, s: Store, p: Proc, now: int)
    requires Operator(p)
    ensures Operator(Continue(c, s, p, now).1) && Continue(c, s, p, now).0.processing == s.processing
  {
  }

  lemma StartKeepsProcessing(s: Store, task: Task, now: int)
    requires s.processing == []
    ensures ProcessingIs(Start(s, task, now).0, Start(s, task, now).1)
  {
    if task.Poll? && Queue(s, task.kind) != [] {
      var q := Queue(s, task.kind);
      assert [q[|q| - 1]] + [] == [q[|q| - 1]];
    }
  }

  lemma SameProcessing(s: Store, s': Store, p: Proc)
    requires s'.processing == s.processing && ProcessingIs(s, p)
    ensures ProcessingIs(s', p)
  {
  }

  /** Every process but the worker stays an operator, and the processing list follows the worker. */
  lemma StepKeepsRoles(c: Settings, w: int, s: State, a: Action)
    requires Obeys({w}, a) && ProcessingIs(s.store, ProcOf(s, w)) && forall p | p in s.procs && p != w :: Operator(s.procs[p])
    ensures var s' := Step(c, s, a);
      ProcessingIs(s'.store, ProcOf(s', w)) && forall p | p in s'.procs && p != w :: Operator(s'.procs[p])
  {
    hide Continue, Handle, IsDue, Start;
    var s' := Step(c, s, a);
    if Enabled(s, a) {
      match a
      case Begin(p, task, now) =>
        if p == w {
          StartKeepsProcessing(s.store, task, now);
        } else {
          StartsRequeuing(s.store, task, now);
        }
      case Next(p, now, _) =>
        if p != w {
          OperatorLeavesProcessing(c, s.store, s.procs[p], now);
          hide ProcessingIs;
          SameProcessing(s.store, s'.store, ProcOf(s, w));
        } else if !s.procs[p].Running? {
          hide ProcessingIs;
          ContinueKeepsProcessing(c, s.store, s.procs[p], now);
        }
      case _ =>
    }
  }

  lemma StartsRequeuing(s: Store, task: Task, now: int)
    requires task.RequeueFailed?
    ensures Start(s, task, now).0 == s && Operator(Start(s, task, now).1)
  {
  }

  lemma StepKeepsAcked(c: Settings, s: State, a: Action)
    requires s.acked <= s.enqueued.Keys && AllCopies(s, Known(s.enqueued), Anything())
    ensures Step(c, s, a).acked <= Step(c, s, a).enqueued.Keys
  {
    hide Continue, Start, Handle, AllStored, AllIn;
    if a.Next? && a.proc in s.procs && s.procs[a.proc].Acking? {
      assert Known(s.enqueued)(KeyOf(s.procs[a.proc].job));
    }
  }

  lemma StepKeepsExact(c: Settings, w: int, s: State, a: Action)
    requires Inv(w, s) && Obeys({w}, a)
    ensures Exact(Step(c, s, a))
  {
    hide Inv, CountOk, Continue, Start, Handle, IsDue, PushReady;
    var s' := Step(c, s, a);
    forall id | id in s'.enqueued
      ensures CountOk(s', id)
    {
      if (a.Begin? || a.Next?) && id in s.enqueued {
        MoveCounts(c, w, s, a, id);
      } else if a.Enqueue? && a.id !in s.enqueued {
        EnqueueCounts(c, w, s, a, id);
      } else {
        RowsDoNotCount(c, w, s, a, id);
      }
    }
  }

  lemma RowsDoNotCount(c: Settings, w: int, s: State, a: Action, id: int)
    requires Inv(w, s) && id in s.enqueued && (a.AddNotification? || a.AddEvent? || (a.Enqueue? && a.id in s.enqueued))
    ensures CountOk(Step(c, s, a), id)
  {
    hide Copies;
    assert CountOk(s, id);
    assert Holders(Step(c, s, a), id) == Holders(s, id);
  }

  lemma StepKeepsInv(c: Settings, w: int, s: State, a: Action)
    requires Inv(w, s) && Obeys({w}, a)
    ensures Inv(w, Step(c, s, a))
  {
    hide AllCopies, Routed, ProcessingIs, Exact, Continue, Start, Handle, Operator, Step, Obeys;
    StepKeepsRouted(c, s, a);
    StepKeepsRoles(c, w, s, a);
    StepKeepsAcked(c, s, a);
    StepKeepsKnown(c, s, a);
    StepKeepsExact(c, w, s, a);
  }

  lemma {:induction false} RunKeepsInv(c: Settings, w: int, trace: seq<Action>)
    requires forall a | a in trace :: Obeys({w}, a)
    ensures Inv(w, Run(c, EMPTY, trace))
  {
    hide Step;
    if trace != [] {
      var n := |trace| - 1;
      hide Inv, Obeys;
      RunKeepsInv(c, w, trace[..n]);
      assert trace[n] in trace;
      StepKeepsInv(c, w, Run(c, EMPTY, trace[..n]), trace[n]);
    }
  }

  /** Between two tasks of the only worker nothing is in processing, an unacknowledged id occurs exactly once, in
      Redis or in the hands of an operator that is requeueing it, and an acknowledged one not at all. Producers and
      operators may run at any time. */
  lemma ExactlyOnce(c: Settings, w: int, trace: seq<Action>, id: int)
    requires forall a | a in trace :: Obeys({w}, a)
    requires var s := Run(c, EMPTY, trace); ProcOf(s, w).Idle? && id in s.enqueued
    ensures var s := Run(c, EMPTY, trace);
      && s.store.processing == []
      && Copies(s.store, s.enqueued[id], id) + |Holders(s, id)| == (if id in s.acked then 0 else 1)
      && forall p | p in Holders(s, id) :: s.procs[p].Requeued?
  {
    hide Run, Copies;
    RunKeepsInv(c, w, trace);
    assert CountOk(Run(c, EMPTY, trace), id);
  }

  // ---- one worker is needed -----------------------------------------------

  const JOB := NewJob(0, SendNotification, 0, None)

  lemma Enqueues(c: Settings)
    ensures Run(c, EMPTY, [Enqueue(0, SendNotification, 0, None)])
         == State(Store(map[SendNotification := [JOB]], [], map[], []), EMPTY_WORLD, map[], map[0 := SendNotification], {})
  {
    Snoc(c, EMPTY, [], Enqueue(0, SendNotification, 0, None));
    assert [] + [Enqueue(0, SendNotification, 0, None)] == [Enqueue(0, SendNotification, 0, None)];
    assert [JOB] + [] == [JOB] && map[][SendNotification := [JOB]] == map[SendNotification := [JOB]];
    assert map[][0 := SendNotification] == map[0 := SendNotification];
  }

  lemma PollsJob(c: Settings, trace: seq<Action>, p: int)
    requires Run(c, EMPTY, trace) == State(Store(map[SendNotification := [JOB]], [], map[], []), EMPTY_WORLD, map[], map[0 := SendNotification], {})
    ensures Run(c, EMPTY, trace + [Begin(p, Poll(SendNotification), 1)])
         == State(Store(map[SendNotification := []], [JOB], map[], []), EMPTY_WORLD, map[p := Popped(JOB)], map[0 := SendNotification], {})
  {
    hide Run;
    Snoc(c, EMPTY, trace, Begin(p, Poll(SendNotification), 1));
    assert [JOB][..0] == [] && [JOB] + [] == [JOB];
    assert map[SendNotification := [JOB]][SendNotification := []] == map[SendNotification := []];
    assert map[][p := Popped(JOB)] == map[p := Popped(JOB)];
  }

  lemma BeginsReclaim(c: Settings, trace: seq<Action>, p: int, q: int)
    requires p != q
    requires Run(c, EMPTY, trace)
          == State(Store(map[SendNotification := []], [JOB], map[], []), EMPTY_WORLD, map[p := Popped(JOB)], map[0 := SendNotification], {})
    ensures Run(c, EMPTY, trace + [Begin(q, Reclaim, 1)])
         == State(Store(map[SendNotification := []], [JOB], map[], []), EMPTY_WORLD,
                  map[p := Popped(JOB)][q := Reclaiming([JOB], 1)], map[0 := SendNotification], {})
  {
    hide Run;
    Snoc(c, EMPTY, trace, Begin(q, Reclaim, 1));
  }

  lemma TwoCopies(s: Store, j: Job)
    requires s == Store(map[SendNotification := [JOB]], [j], map[], []) && j.id == 0
    ensures Copies(s, SendNotification, 0) == 2
  {
    CountPush([], JOB, 0);
    CountPush([], j, 0);
    assert [JOB] + [] == [JOB] && [j] + [] == [j];
    Empty(DelayedCopies(s, 0));
  }

  /** Worker `p` has popped a job and not yet stamped it when worker `q` lists the processing jobs. */
  lemma PopThenReclaim(c: Settings, p: int, q: int) returns (trace: seq<Action>)
    requires p != q
    ensures forall a | a in trace :: Obeys({p, q}, a)
    ensures Run(c, EMPTY, trace)
         == State(Store(map[SendNotification := []], [JOB], map[], []), EMPTY_WORLD,
                  map[p := Popped(JOB)][q := Reclaiming([JOB], 1)], map[0 := SendNotification], {})
  {
    hide Run, Step;
    Enqueues(c);
    trace := [Enqueue(0, SendNotification, 0, None)];
    PollsJob(c, trace, p);
    trace := trace + [Begin(p, Poll(SendNotification), 1)];
    BeginsReclaim(c, trace, p, q);
    trace := trace + [Begin(q, Reclaim, 1)];
  }

  /** The unstamped job counts as stale and goes back to its queue. */
  lemma ReclaimsUnstamped(c: Settings, p: int, q: int) returns (trace: seq<Action>)
    requires p != q
    ensures forall a | a in trace :: Obeys({p, q}, a)
    ensures var s := Run(c, EMPTY, trace);
      && s.store == Store(map[SendNotification := [JOB]], [], map[], []) && s.enqueued == map[0 := SendNotification] && s.acked == {}
      && p in s.procs && s.procs[p] == Popped(JOB)
  {
    hide Run, Step;
    var go := Next(q, 1, Accepted);
    trace := PopThenReclaim(c, p, q);
    Moves(c, EMPTY, trace, q, Reclaiming([JOB], 1), go);
    RemoveOnly(JOB);
    trace := trace + [go];
    Moves(c, EMPTY, trace, q, Reclaimed(JOB, [], 1), go);
    assert [JOB] + [] == [JOB] && map[SendNotification := []][SendNotification := [JOB]] == map[SendNotification := [JOB]];
    trace := trace + [go];
  }

  /** Worker `p` then stamps it: the job is queued and being processed at once. */
  lemma TwoWorkersCanDuplicate(c: Settings, p: int, q: int) returns (trace: seq<Action>)
    requires p != q
    ensures forall a | a in trace :: Obeys({p, q}, a)
    ensures var s := Run(c, EMPTY, trace);
      0 in s.enqueued && s.acked == {} && Copies(s.store, s.enqueued[0], 0) == 2
  {
    hide Run, Step, Copies;
    var j := JOB.WithProcessingStartedAt(1);
    var go := Next(p, 1, Accepted);
    trace := ReclaimsUnstamped(c, p, q);
    Moves(c, EMPTY, trace, p, Popped(JOB), go);
    assert Remove([], JOB) == [];
    trace := trace + [go];
    Moves(c, EMPTY, trace, p, Stamping(j), go);
    assert [j] + [] == [j];
    trace := trace + [go];
    TwoCopies(Run(c, EMPTY, trace).store, j);
  }

  /** Whatever producers and operators do besides: every unacknowledged job exists exactly once at every point of
      every run exactly when at most one process runs worker tasks. */
  lemma ExactIffOneWorker(c: Settings, workers: set<int>)
    ensures (forall trace | (forall a | a in trace :: Obeys(workers, a)) :: Exact(Run(c, EMPTY, trace))) <==> |workers| <= 1
  {
    hide Run, Exact, Copies;
    if |workers| <= 1 {
      var w := OnlyMember(workers);
      forall trace: seq<Action> | forall a | a in trace :: Obeys(workers, a)
        ensures Exact(Run(c, EMPTY, trace))
      {
        RunKeepsInv(c, w, trace);
      }
    } else {
      var p, q := TwoMembers(workers);
      var trace := TwoWorkersCanDuplicate(c, p, q);
      assert forall a | a in trace :: Obeys(workers, a);
      NotExact(Run(c, EMPTY, trace));
    }
  }

  lemma NotExact(s: State)
    requires 0 in s.enqueued && s.acked == {} && Copies(s.store, s.enqueued[0], 0) == 2
    ensures !Exact(s)
  {
    assert !CountOk(s, 0);
  }

  lemma OnlyMember(workers: set<int>) returns (w: int)
    requires |workers| <= 1
    ensures forall p | p in workers :: p == w
  {
    w := 0;
    if workers != {} {
      var x, rest := Pick(workers);
      w := x;
    }
  }

  lemma TwoMembers(workers: set<int>) returns (p: int, q: int)
    requires |workers| > 1
    ensures p in workers && q in workers && p != q
  {
    var x, rest := Pick(workers);
    var y, _ := Pick(rest);
    p, q := x, y;
  }
}
