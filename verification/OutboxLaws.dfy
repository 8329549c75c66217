/** The outbox over whole runs of workers: how often providers are called, what exists at the calendar
    provider, and which jobs can end in the failed list. */
module OutboxLaws {
  import opened Domain
  import opened JobQueue
  import opened Outbox
  import opened Workers
  import opened WorkerLaws

  // ---- rows and providers -------------------------------------------------

  lemma AddRowKeeps(c: Settings, s: State, a: Action)
    requires WorldOk(c, s.world) && Enabled(s, a) && (a.AddNotification? || a.AddEvent?)
    ensures WorldOk(c, Step(c, s, a).world) && Evolves(s.world, Step(c, s, a).world)
  {
    var w, w' := s.world, Step(c, s, a).world;
    forall n
      ensures NotificationOk(w', n)
    {
      assert NotificationOk(w, n);
    }
    forall e | e in w'.events
      ensures EventOk(c, w', e)
    {
      assert e in w.events ==> EventOk(c, w, e);
    }
    forall pid | pid in w'.live
      ensures LiveOk(w', pid)
    {
      assert LiveOk(w, pid);
    }
  }

  lemma StepKeepsWorld(c: Settings, s: State, a: Action)
    requires WorldOk(c, s.world)
    ensures WorldOk(c, Step(c, s, a).world) && Evolves(s.world, Step(c, s, a).world)
  {
    hide WorldOk, Handle, Continue, Start;
    if Enabled(s, a) {
      if a.AddNotification? || a.AddEvent? {
        AddRowKeeps(c, s, a);
      } else if a.Next? && s.procs[a.proc].Running? {
        HandleKeeps(c, s.world, s.procs[a.proc].job, a.response);
      }
    }
  }

  /** In every run: at most three requests and one delivery per notification; the events alive at the calendar
      provider are exactly those of rows in `synced` or `cancel_failed`; cancel attempts stay within bounds. */
  lemma {:induction false} WorldAlwaysOk(c: Settings, trace: seq<Action>)
    ensures WorldOk(c, Run(c, EMPTY, trace).world)
  {
    hide Step;
    if trace == [] {
      assert forall n :: NotificationOk(EMPTY_WORLD, n);
    } else {
      hide WorldOk;
      var n := |trace| - 1;
      WorldAlwaysOk(c, trace[..n]);
      StepKeepsWorld(c, Run(c, EMPTY, trace[..n]), trace[n]);
    }
  }

  lemma SentAtMostThreeTimes(c: Settings, trace: seq<Action>, n: int)
    ensures var w := Run(c, EMPTY, trace).world; w.requests[n] <= 3 && w.deliveries[n] <= 1
    ensures var w := Run(c, EMPTY, trace).world;
      w.deliveries[n] == 1 <==> n in w.notifications && w.notifications[n].status == Sent
  {
    WorldAlwaysOk(c, trace);
    assert NotificationOk(Run(c, EMPTY, trace).world, n);
  }

  /** A provider event is alive exactly when its row says so, and a booking never has two. */
  lemma LiveEventsMatchRows(c: Settings, trace: seq<Action>, e: int)
    ensures var w := Run(c, EMPTY, trace).world;
      (exists pid :: pid in w.live && w.live[pid] == e) <==> e in w.events && OnProvider(w.events[e])
    ensures var w := Run(c, EMPTY, trace).world;
      forall p, q | p in w.live && q in w.live && w.live[p] in w.events && w.live[q] in w.events ::
        w.events[w.live[p]].booking == w.events[w.live[q]].booking ==> p == q
    ensures var w := Run(c, EMPTY, trace).world; e in w.events ==> w.events[e].cancelAttempts <= AtLeastOne(c.maxRetries)
  {
    hide Run;
    WorldAlwaysOk(c, trace);
    var w := Run(c, EMPTY, trace).world;
    LiveExactly(c, w, e);
    assert e in w.events ==> EventOk(c, w, e);
    forall p, q | p in w.live && q in w.live && w.live[p] in w.events && w.live[q] in w.events
      ensures w.events[w.live[p]].booking == w.events[w.live[q]].booking ==> p == q
    {
      if w.events[w.live[p]].booking == w.events[w.live[q]].booking {
        OneLiveEventPerBooking(c, w, p, q);
      }
    }
  }

  /** Over the rest of any run a settled row keeps its value: `cancelled` and `cancel_failed` events, and sent
      or failed notifications, are never touched again. */
  lemma {:induction false} SettledRowsStay(c: Settings, trace: seq<Action>, n: nat)
    requires n <= |trace|
    ensures Evolves(Run(c, EMPTY, trace[..n]).world, Run(c, EMPTY, trace).world)
    decreases |trace| - n
  {
    hide Step;
    if n == |trace| {
      assert trace[..n] == trace;
    } else {
      SettledRowsStay(c, trace, n + 1);
      assert trace[..n + 1][..n] == trace[..n];
      var s := Run(c, EMPTY, trace[..n]);
      WorldAlwaysOk(c, trace[..n]);
      StepKeepsWorld(c, s, trace[n]);
      hide *;
      EvolvesTrans(s.world, Run(c, EMPTY, trace[..n + 1]).world, Run(c, EMPTY, trace).world);
    }
  }

  // ---- handled for good ---------------------------------------------------

  /** At event `k` of the run, a process calls the handler of a job of this kind and row, and the provider answers. */
  ghost predicate Handles(c: Settings, trace: seq<Action>, k: nat, kind: Kind, row: int)
    requires k < |trace|
  {
    var s, a := Run(c, EMPTY, trace[..k]), trace[k];
    a.Next? && a.proc in s.procs && s.procs[a.proc].Running? && s.procs[a.proc].job.kind == kind
      && s.procs[a.proc].job.target == row && !a.response.Raised?
  }

  /** The handler called at event `k` returned, so that its job will be acknowledged. */
  ghost predicate Returns(c: Settings, trace: seq<Action>, k: nat)
    requires k < |trace|
  {
    var s := Run(c, EMPTY, trace[..k + 1]);
    trace[k].Next? && trace[k].proc in s.procs && s.procs[trace[k].proc].Acking?
  }

  lemma HandlerStep(c: Settings, trace: seq<Action>, k: nat, kind: Kind, row: int)
    requires k < |trace| && Handles(c, trace, k, kind, row)
    ensures var s, s', a := Run(c, EMPTY, trace[..k]), Run(c, EMPTY, trace[..k + 1]), trace[k];
      var (w', result) := Handle(c, s.world, s.procs[a.proc].job, a.response);
      s'.world == w' && (Returns(c, trace, k) <==> result == Returned)
  {
    hide Handle;
    assert trace[..k + 1][..k] == trace[..k];
  }

  /** Once a cancel job of a known event has returned, no sync, retry or reconciliation in the rest of any run brings the
      event back: it is cancelled with nothing left at the provider, or the provider has refused to the last attempt. */
  lemma CancelIsForGood(c: Settings, trace: seq<Action>, k: nat, e: int)
    requires k < |trace| && Handles(c, trace, k, CancelCalendar, e) && Returns(c, trace, k)
    requires var w := Run(c, EMPTY, trace[..k]).world; e in w.events && w.events[e].sameTenant
    ensures var row, w' := Run(c, EMPTY, trace[..k]).world.events[e], Run(c, EMPTY, trace).world;
      var refused := row.status == CancelFailed
        || (row.status == Synced && trace[k].response.Rejected? && row.cancelAttempts + 1 >= c.maxRetries);
      && e in w'.events && w'.events[e].status == (if refused then CancelFailed else CancelDone)
      && (NoneLive(w', e) <==> !refused)
  {
    hide Run, Step, Handle, WorldOk;
    var s, s1, w' := Run(c, EMPTY, trace[..k]), Run(c, EMPTY, trace[..k + 1]), Run(c, EMPTY, trace).world;
    var r := trace[k].response;
    HandlerStep(c, trace, k, CancelCalendar, e);
    WorldAlwaysOk(c, trace[..k]);
    HandleCancels(c, s.world, s.procs[trace[k].proc].job, r);
    CancelOutcome(c, s.world, e, r.Accepted?, if r.Rejected? then r.error else "");
    SettledRowsStay(c, trace, k + 1);
    WorldAlwaysOk(c, trace);
    LiveExactly(c, w', e);
    assert NoneLive(w', e) <==> !exists pid :: pid in w'.live && w'.live[pid] == e;
  }

  lemma HandleCancels(c: Settings, w: World, j: Job, r: Response)
    requires j.kind == CancelCalendar && !r.Raised?
    ensures Handle(c, w, j, r) == CancelEventNow(c, w, j.target, r.Accepted?, if r.Rejected? then r.error else "")
  {
    hide CancelEventNow;
  }

  lemma HandleSends(c: Settings, w: World, j: Job, r: Response)
    requires j.kind == SendNotification && !r.Raised?
    ensures Handle(c, w, j, r) == SendNotificationNow(w, j.target, r.Accepted?, if r.Rejected? then r.error else "")
  {
    hide SendNotificationNow;
  }

  /** Once a send job of a pending notification has returned, the row is settled for the rest of any run: sent and
      delivered once if the provider accepted, failed after three requests if not. */
  lemma SendIsForGood(c: Settings, trace: seq<Action>, k: nat, n: int)
    requires k < |trace| && Handles(c, trace, k, SendNotification, n) && Returns(c, trace, k)
    requires var w := Run(c, EMPTY, trace[..k]).world; n in w.notifications && w.notifications[n].status == ToSend
    ensures var w' := Run(c, EMPTY, trace).world;
      && n in w'.notifications
      && if trace[k].response.Accepted? then w'.notifications[n].status == Sent && w'.deliveries[n] == 1
         else w'.notifications[n].status == Undeliverable && w'.deliveries[n] == 0 && w'.requests[n] == 3
  {
    hide Run, Step, Handle, WorldOk;
    var s, w' := Run(c, EMPTY, trace[..k]), Run(c, EMPTY, trace).world;
    var r := trace[k].response;
    HandlerStep(c, trace, k, SendNotification, n);
    HandleSends(c, s.world, s.procs[trace[k].proc].job, r);
    SendOutcome(s.world, n, r.Accepted?, if r.Rejected? then r.error else "");
    SettledRowsStay(c, trace, k + 1);
    WorldAlwaysOk(c, trace);
    NotificationIsOk(c, w', n);
  }

  lemma HandleSyncs(c: Settings, w: World, j: Job, r: Response)
    requires j.kind == SyncCalendar && !r.Raised?
    ensures Handle(c, w, j, r) == SyncEventNow(c, w, j.target, r.Accepted?, if r.Rejected? then r.error else "")
  {
    hide SyncEventNow;
  }

  /** A sync job of a pending or failed event that the provider accepts returns, and from then on, for the rest of any
      run, the event exists at the provider unless a cancel job has cancelled it. */
  lemma SyncedUnlessCancelled(c: Settings, trace: seq<Action>, k: nat, e: int)
    requires k < |trace| && Handles(c, trace, k, SyncCalendar, e) && trace[k].response.Accepted?
    requires var w := Run(c, EMPTY, trace[..k]).world;
      e in w.events && w.events[e].sameTenant && (w.events[e].status == ToSync || w.events[e].status == SyncFailed)
    ensures var w' := Run(c, EMPTY, trace).world;
      Returns(c, trace, k) && e in w'.events && (NoneLive(w', e) <==> w'.events[e].status == CancelDone)
  {
    hide Run, Step, Handle, WorldOk;
    var s, w1, w' := Run(c, EMPTY, trace[..k]), Run(c, EMPTY, trace[..k + 1]).world, Run(c, EMPTY, trace).world;
    HandlerStep(c, trace, k, SyncCalendar, e);
    WorldAlwaysOk(c, trace[..k]);
    HandleSyncs(c, s.world, s.procs[trace[k].proc].job, trace[k].response);
    SyncOutcome(c, s.world, e, true, "");
    SettledRowsStay(c, trace, k + 1);
    WorldAlwaysOk(c, trace);
    LiveExactly(c, w', e);
    assert NoneLive(w', e) <==> !exists pid :: pid in w'.live && w'.live[pid] == e;
  }

  lemma NotificationIsOk(c: Settings, w: World, n: int)
    requires WorldOk(c, w)
    ensures NotificationOk(w, n)
  {
  }

  // ---- retries at two levels ----------------------------------------------

  /** A job has been thrown back no more often than its row was attempted, and less often than the row allows. */
  predicate Paid(c: Settings, w: World, k: Key) {
    HasRow(k.kind) ==> k.attempts <= RowAttempts(w, k.kind, k.target) && (k.attempts == 0 || k.attempts < RowLimit(c, k.kind))
  }

  predicate PaidAgain(c: Settings, w: World, k: Key) {
    HasRow(k.kind) ==> k.attempts + 1 <= RowAttempts(w, k.kind, k.target) && k.attempts + 1 < RowLimit(c, k.kind)
  }

  function IsPaid(c: Settings, w: World): Key -> bool {
    (k: Key) => Paid(c, w, k)
  }

  function IsPaidAgain(c: Settings, w: World): Key -> bool {
    (k: Key) => PaidAgain(c, w, k)
  }

  lemma RowAttemptsGrow(w: World, w': World, kind: Kind, row: int)
    requires Evolves(w, w')
    ensures RowAttempts(w, kind, row) <= RowAttempts(w', kind, row)
  {
  }

  lemma PaidIsKept(c: Settings, s: State, w': World)
    requires AllCopies(s, IsPaid(c, s.world), IsPaidAgain(c, s.world)) && Evolves(s.world, w')
    ensures AllCopies(s, IsPaid(c, w'), IsPaidAgain(c, w'))
  {
    hide AllCopies, Evolves, RowAttempts;
    forall k: Key
      ensures IsPaid(c, s.world)(k) ==> IsPaid(c, w')(k)
      ensures IsPaidAgain(c, s.world)(k) ==> IsPaidAgain(c, w')(k)
    {
      RowAttemptsGrow(s.world, w', k.kind, k.target);
    }
    WeakenAll(s, IsPaid(c, s.world), IsPaidAgain(c, s.world), IsPaid(c, w'), IsPaidAgain(c, w'));
  }

  /** Nothing but the providers' answers makes handlers throw. */
  predicate OnlyDeliveryFailures(trace: seq<Action>) {
    forall a | a in trace :: a.Next? ==> !a.response.Raised?
  }

  lemma ThrowPays(c: Settings, s: State, a: Action)
    requires AllCopies(s, IsPaid(c, s.world), IsPaidAgain(c, s.world)) && (a.Next? ==> !a.response.Raised?)
    ensures ThrowsOnly(c, s, a, IsPaidAgain(c, Step(c, s, a).world))
  {
    if a.Next? && a.proc in s.procs && s.procs[a.proc].Running? {
      hide Handle, RowAttempts, AllStored, AllIn;
      var j := s.procs[a.proc].job;
      assert Paid(c, s.world, KeyOf(j));
      if HasRow(j.kind) && Handle(c, s.world, j, a.response).1.Threw? {
        ThrowIsPaidFor(c, s.world, j, a.response);
      }
    }
  }

  lemma PaidRetriable(c: Settings, w: World)
    ensures Retriable(c, IsPaid(c, w), IsPaidAgain(c, w))
  {
  }

  lemma StepKeepsPaid(c: Settings, s: State, a: Action)
    requires WorldOk(c, s.world) && AllCopies(s, IsPaid(c, s.world), IsPaidAgain(c, s.world)) && (a.Next? ==> !a.response.Raised?)
    ensures var s' := Step(c, s, a); AllCopies(s', IsPaid(c, s'.world), IsPaidAgain(c, s'.world))
  {
    hide AllCopies, WorldOk, Step, Retriable, ThrowsOnly, Evolves;
    var w' := Step(c, s, a).world;
    StepKeepsWorld(c, s, a);
    ThrowPays(c, s, a);
    PaidIsKept(c, s, w');
    PaidRetriable(c, w');
    StepKeepsAll(c, s, a, IsPaid(c, w'), IsPaidAgain(c, w'));
  }

  lemma {:induction false} RetriesArePaid(c: Settings, trace: seq<Action>)
    requires OnlyDeliveryFailures(trace)
    ensures var s := Run(c, EMPTY, trace); AllCopies(s, IsPaid(c, s.world), IsPaidAgain(c, s.world))
  {
    hide AllCopies, Step, WorldOk;
    if trace == [] {
      EmptyAll(IsPaid(c, EMPTY.world), IsPaidAgain(c, EMPTY.world));
    } else {
      var n := |trace| - 1;
      RetriesArePaid(c, trace[..n]);
      WorldAlwaysOk(c, trace[..n]);
      assert trace[n] in trace;
      StepKeepsPaid(c, Run(c, EMPTY, trace[..n]), trace[n]);
    }
  }

  // ---- the failed list ----------------------------------------------------

  ghost predicate NoneFailed(s: State, kind: Kind) {
    && (forall j | j in s.store.failed :: j.kind != kind)
    && (forall p | p in s.procs :: !Buries(s.procs[p], kind))
  }

  predicate Buries(p: Proc, kind: Kind) {
    p.Burying? && p.job.kind == kind
  }

  lemma ContinueFailsNone(c: Settings, s: Store, p: Proc, now: int, kind: Kind)
    requires (forall j | j in s.failed :: j.kind != kind) && !Buries(p, kind)
    requires p.Failing? && p.job.kind == kind ==> WillRetry(c, p.job)
    ensures var (s', p') := Continue(c, s, p, now); (forall j | j in s'.failed :: j.kind != kind) && !Buries(p', kind)
  {
    hide RetryDelay, RetriedJob, StaleJob, Remove, Queue, WillRetry;
  }

  lemma StartFailsNone(s: Store, task: Task, now: int, kind: Kind)
    ensures Start(s, task, now).0.failed == s.failed && !Buries(Start(s, task, now).1, kind)
  {
  }

  lemma StepFailsNone(c: Settings, s: State, a: Action, kind: Kind)
    requires NoneFailed(s, kind) && HasRow(kind) && RowLimit(c, kind) <= c.maxRetries + 1
    requires AllCopies(s, IsPaid(c, s.world), IsPaidAgain(c, s.world))
    ensures NoneFailed(Step(c, s, a), kind)
  {
    hide Handle, RowAttempts, AllStored, AllIn, Start, Continue, IsDue;
    if Enabled(s, a) && a.Begin? {
      StartFailsNone(s.store, a.task, a.now, kind);
    }
    if Enabled(s, a) && a.Next? {
      var p := s.procs[a.proc];
      if p.Failing? {
        assert PaidAgain(c, s.world, KeyOf(p.job));
        assert p.job.kind == kind ==> WillRetry(c, p.job);
      }
      ContinueFailsNone(c, s.store, p, a.now, kind);
    }
  }

  lemma {:induction false} DeliveryFailuresFailNoJob(c: Settings, trace: seq<Action>, kind: Kind)
    requires OnlyDeliveryFailures(trace) && HasRow(kind) && RowLimit(c, kind) <= c.maxRetries + 1
    ensures NoneFailed(Run(c, EMPTY, trace), kind)
  {
    hide AllCopies, Step;
    if trace != [] {
      var n := |trace| - 1;
      DeliveryFailuresFailNoJob(c, trace[..n], kind);
      RetriesArePaid(c, trace[..n]);
      StepFailsNone(c, Run(c, EMPTY, trace[..n]), trace[n], kind);
    }
  }

  /** Calendar jobs never reach the failed list through provider failures, whatever `worker_max_retries` is. */
  lemma CalendarJobsNeverFail(c: Settings, trace: seq<Action>, j: Job)
    requires OnlyDeliveryFailures(trace) && j in Run(c, EMPTY, trace).store.failed
    ensures j.kind != SyncCalendar && j.kind != CancelCalendar
  {
    DeliveryFailuresFailNoJob(c, trace, SyncCalendar);
    DeliveryFailuresFailNoJob(c, trace, CancelCalendar);
  }

  // ---- the bound two is exact ---------------------------------------------

  const GO := Next(0, 1, Accepted)

  /** Process 0 is idle and `j` is the only job, waiting to send the fresh or once-rejected notification 0. */
  predicate ReadyToSend(s: State, j: Job) {
    && ProcOf(s, 0).Idle? && s.store.ready == map[SendNotification := [j]] && s.store.processing == []
    && j.kind == SendNotification && j.target == 0 && j.startedAt == None
    && 0 in s.world.notifications && s.world.notifications[0].status == ToSend && s.world.notifications[0].attempts < 2
  }

  lemma Polls(c: Settings, trace: seq<Action>, j: Job)
    requires ReadyToSend(Run(c, EMPTY, trace), j)
    ensures var s := Run(c, EMPTY, trace);
      Run(c, EMPTY, trace + [Begin(0, Poll(SendNotification), 1)])
      == s.(store := s.store.(ready := map[SendNotification := []], processing := [j]), procs := s.procs[0 := Popped(j)])
  {
    Snoc(c, EMPTY, trace, Begin(0, Poll(SendNotification), 1));
    assert [j][..0] == [] && [j] + [] == [j];
    assert map[SendNotification := [j]][SendNotification := []] == map[SendNotification := []];
  }

  /** Polling and stamping the job, up to the call of its handler. */
  lemma PickUp(c: Settings, trace: seq<Action>, j: Job) returns (t: seq<Action>)
    requires OnlyDeliveryFailures(trace) && ReadyToSend(Run(c, EMPTY, trace), j)
    ensures OnlyDeliveryFailures(t)
    ensures var s, j1 := Run(c, EMPTY, trace), j.WithProcessingStartedAt(1);
      Run(c, EMPTY, t) == s.(store := s.store.(ready := map[SendNotification := []], processing := [j1]), procs := s.procs[0 := Running(j1)])
  {
    hide Run, Step;
    var j1 := j.WithProcessingStartedAt(1);
    Polls(c, trace, j);
    t := trace + [Begin(0, Poll(SendNotification), 1)];
    Moves(c, EMPTY, t, 0, Popped(j), GO);
    assert Remove([j], j) == [];
    t := t + [GO];
    Moves(c, EMPTY, t, 0, Stamping(j1), GO);
    assert [j1] + [] == [j1];
    t := t + [GO];
    var s := Run(c, EMPTY, trace);
    assert s.procs[0 := Popped(j)][0 := Stamping(j1)][0 := Running(j1)] == s.procs[0 := Running(j1)];
  }

  /** The provider rejects a first or second attempt: the handler throws. */
  lemma Throws(c: Settings, trace: seq<Action>, j: Job)
    requires var s := Run(c, EMPTY, trace);
      && 0 in s.procs && s.procs[0] == Running(j) && j.kind == SendNotification && j.target == 0
      && 0 in s.world.notifications && s.world.notifications[0].status == ToSend && s.world.notifications[0].attempts < 2
    ensures var s, s' := Run(c, EMPTY, trace), Run(c, EMPTY, trace + [Next(0, 1, Rejected(""))]);
      && s'.store == s.store && s'.procs == s.procs[0 := Failing(j, "")]
      && s'.world.notifications == s.world.notifications[0 := s.world.notifications[0].(attempts := s.world.notifications[0].attempts + 1)]
  {
    Snoc(c, EMPTY, trace, Next(0, 1, Rejected("")));
    hide Run, SyncEventNow, CancelEventNow, Continue;
  }

  /** One rejected attempt: the job goes to the delayed set if it may be retried, else to the failed list. */
  lemma Reject(c: Settings, trace: seq<Action>, j: Job) returns (t: seq<Action>, at: int)
    requires OnlyDeliveryFailures(trace) && ReadyToSend(Run(c, EMPTY, trace), j)
    ensures OnlyDeliveryFailures(t)
    ensures var s, s' := Run(c, EMPTY, trace), Run(c, EMPTY, t);
      if j.attempts < c.maxRetries then
        && ProcOf(s', 0).Idle? && s'.store.ready == map[SendNotification := []] && s'.store.processing == []
        && s'.store.delayed == s.store.delayed[RetriedJob(j, "") := at] && at >= 0
        && s'.world.notifications == s.world.notifications[0 := s.world.notifications[0].(attempts := s.world.notifications[0].attempts + 1)]
      else exists f :: f in s'.store.failed && f.kind == SendNotification
  {
    hide Run, Step, RetryDelay;
    var j1 := j.WithProcessingStartedAt(1);
    t := PickUp(c, trace, j);
    Throws(c, t, j1);
    t := t + [Next(0, 1, Rejected(""))];
    Moves(c, EMPTY, t, 0, Failing(j1, ""), GO);
    assert Remove([j1], j1) == [];
    t := t + [GO];
    at := 1 + RetryDelay(c, j.attempts + 1);
    if WillRetry(c, j1) {
      Moves(c, EMPTY, t, 0, Retrying(RetriedJob(j, ""), at), GO);
    } else {
      Moves(c, EMPTY, t, 0, Burying(FailedJob(j1, Some(""), 1)), GO);
      assert FailedJob(j1, Some(""), 1) in Run(c, EMPTY, t + [GO]).store.failed;
    }
    t := t + [GO];
  }

  lemma OnlyDue(s: Store, j: Job, at: nat)
    requires s.delayed == map[j := at]
    ensures IsDue(s, at, [j])
  {
  }

  lemma BeginsPromotion(c: Settings, trace: seq<Action>, j: Job, at: nat)
    requires var s := Run(c, EMPTY, trace); ProcOf(s, 0).Idle? && s.store.delayed == map[j := at]
    ensures var s := Run(c, EMPTY, trace);
      Run(c, EMPTY, trace + [Begin(0, Promote([j], None), at)]) == s.(procs := s.procs[0 := Promoting([j], 0, None)])
  {
    hide Run, IsDue;
    OnlyDue(Run(c, EMPTY, trace).store, j, at);
    Snoc(c, EMPTY, trace, Begin(0, Promote([j], None), at));
  }

  /** The only delayed job becomes due and is promoted. */
  lemma PromoteOnly(c: Settings, trace: seq<Action>, j: Job, at: nat) returns (t: seq<Action>)
    requires OnlyDeliveryFailures(trace) && j.kind == SendNotification
    requires var s := Run(c, EMPTY, trace);
      ProcOf(s, 0).Idle? && s.store.ready == map[SendNotification := []] && s.store.processing == [] && s.store.delayed == map[j := at]
    ensures OnlyDeliveryFailures(t)
    ensures var s, s' := Run(c, EMPTY, trace), Run(c, EMPTY, t);
      && s'.world == s.world && ProcOf(s', 0).Idle?
      && s'.store.ready == map[SendNotification := [j]] && s'.store.processing == [] && s'.store.delayed == map[]
  {
    hide Run, Step;
    BeginsPromotion(c, trace, j, at);
    t := trace + [Begin(0, Promote([j], None), at)];
    Moves(c, EMPTY, t, 0, Promoting([j], 0, None), GO);
    assert map[j := at] - {j} == map[];
    t := t + [GO];
    Moves(c, EMPTY, t, 0, Promoted(j, [], 0, None), GO);
    assert [j] + [] == [j] && map[SendNotification := []][SendNotification := [j]] == map[SendNotification := [j]];
    t := t + [GO];
    Moves(c, EMPTY, t, 0, Promoting([], 1, None), GO);
    t := t + [GO];
  }

  lemma EnqueueFirst(c: Settings) returns (trace: seq<Action>)
    ensures OnlyDeliveryFailures(trace)
    ensures var s := Run(c, EMPTY, trace);
      s.store.delayed == map[] && s.world.notifications == map[0 := NewNotification(0)] && ReadyToSend(s, NewJob(0, SendNotification, 0, None))
  {
    var a, b := AddNotification(0, 0), Enqueue(0, SendNotification, 0, None);
    Snoc(c, EMPTY, [], a);
    Snoc(c, EMPTY, [] + [a], b);
    trace := [] + [a] + [b];
    var j := NewJob(0, SendNotification, 0, None);
    assert [j] + [] == [j] && map[][SendNotification := [j]] == map[SendNotification := [j]];
  }

  lemma RejectionsFailTheJob(c: Settings) returns (trace: seq<Action>)
    requires c.maxRetries < 2
    ensures OnlyDeliveryFailures(trace) && !NoneFailed(Run(c, EMPTY, trace), SendNotification)
  {
    hide Run, Step, OnlyDeliveryFailures;
    var j := NewJob(0, SendNotification, 0, None);
    trace := EnqueueFirst(c);
    var at: int;
    trace, at := Reject(c, trace, j);
    if c.maxRetries == 1 {
      var j1 := RetriedJob(j, "");
      assert map[][j1 := at] == map[j1 := at];
      trace := PromoteOnly(c, trace, j1, at);
      assert ReadyToSend(Run(c, EMPTY, trace), j1);
      trace, at := Reject(c, trace, j1);
    }
  }

  /** Provider failures alone never put a notification job in the failed list exactly when `worker_max_retries`
      is at least two. */
  lemma NotificationJobsNeverFail(c: Settings)
    ensures (forall trace | OnlyDeliveryFailures(trace) :: NoneFailed(Run(c, EMPTY, trace), SendNotification)) <==> c.maxRetries >= 2
  {
    hide Run, NoneFailed, OnlyDeliveryFailures;
    if c.maxRetries >= 2 {
      forall trace | OnlyDeliveryFailures(trace)
        ensures NoneFailed(Run(c, EMPTY, trace), SendNotification)
      {
        DeliveryFailuresFailNoJob(c, trace, SendNotification);
      }
    } else {
      var trace := RejectionsFailTheJob(c);
    }
  }
}