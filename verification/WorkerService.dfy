/** The queue operations and the worker loop, run one at a time against Redis. */
module WorkerService {
  import opened Domain
  import opened JobQueue
  import opened Outbox
  import opened Workers
  import opened WorkerLaws
  import SingleWorker

  /** The fixed polling order of `process_next_job`. */
  const KNOWN_KINDS := [PasswordResetEmail, SendNotification, VerifyUpload, SyncCalendar, CancelCalendar]

  // ---- specification functions --------------------------------------------

  /** LPUSH of every job in turn, each on the queue of its type. */
  function PushAll(s: Store, jobs: seq<Job>): Store {
    if jobs == [] then s else PushReady(PushAll(s, jobs[..|jobs| - 1]), jobs[|jobs| - 1])
  }

  function Members(jobs: seq<Job>): set<Job> {
    set j | j in jobs
  }

  function Unstamped(jobs: seq<Job>): seq<Job> {
    seq(|jobs|, i requires 0 <= i < |jobs| => jobs[i].WithoutProcessingStartedAt())
  }

  function StaleJobs(c: Settings, list: seq<Job>, now: int): seq<Job> {
    if list == [] then []
    else
      var rest := StaleJobs(c, list[..|list| - 1], now);
      if StaleJob(c, list[|list| - 1], now) then rest + [list[|list| - 1]] else rest
  }

  function FreshJobs(c: Settings, list: seq<Job>, now: int): seq<Job> {
    if list == [] then []
    else
      var rest := FreshJobs(c, list[..|list| - 1], now);
      if StaleJob(c, list[|list| - 1], now) then rest else rest + [list[|list| - 1]]
  }

  function Capped(n: nat, limit: Option<nat>): nat {
    if limit.Some? && limit.value < n then limit.value else n
  }

  /** The last `n` jobs of a list, the very last one first. */
  function FromEnd(list: seq<Job>, n: nat): seq<Job>
    requires n <= |list|
  {
    seq(n, i requires 0 <= i < n => list[|list| - 1 - i])
  }

  /** The first `n` due jobs have left the delayed set for the queues of their types. */
  function PromotedStore(s: Store, due: seq<Job>, n: nat): Store
    requires n <= |due|
  {
    PushAll(s, due[..n]).(delayed := s.delayed - Members(due[..n]))
  }

  function StaleCount(c: Settings, s: Store, n: nat, now: int): nat
    requires n <= |s.processing|
  {
    |StaleJobs(c, s.processing[..n], now)|
  }

  /** Of the first `n` jobs being processed, exactly the stale ones have left, unstamped, for their queues. */
  function ReclaimedStore(c: Settings, s: Store, n: nat, now: int): Store
    requires n <= |s.processing|
  {
    PushAll(s, Unstamped(StaleJobs(c, s.processing[..n], now))).(processing := FreshJobs(c, s.processing[..n], now) + s.processing[n..])
  }

  /** The `n` jobs that failed first are back in the queues of their types, in the order they failed. */
  function RequeuedStore(s: Store, n: nat): Store
    requires n <= |s.failed|
  {
    PushAll(s, FromEnd(s.failed, n)).(failed := s.failed[..|s.failed| - n])
  }

  /** The queue `process_next_job` takes from: the first non-empty one in polling order. */
  predicate IsFirst(s: Store, k: nat) {
    k < |KNOWN_KINDS| && Queue(s, KNOWN_KINDS[k]) != [] && forall i | 0 <= i < k :: Queue(s, KNOWN_KINDS[i]) == []
  }

  predicate NothingReady(s: Store) {
    forall i | 0 <= i < |KNOWN_KINDS| :: Queue(s, KNOWN_KINDS[i]) == []
  }

  /** The store without the oldest job of a queue. */
  function Taken(s: Store, kind: Kind): Store
    requires Queue(s, kind) != []
  {
    s.(ready := s.ready[kind := Queue(s, kind)[..|Queue(s, kind)| - 1]])
  }

  /** Where a job goes once its handler has returned or thrown. */
  function Settle(c: Settings, s: Store, job: Job, result: Result, now: int): Store {
    if result.Returned? then s
    else if WillRetry(c, job) then AddDelayed(s, RetriedJob(job, result.error), now + RetryDelay(c, job.attempts + 1))
    else PushFailed(s, FailedJob(job, Some(result.error), now))
  }

  // ---- one turn of each loop ----------------------------------------------

  lemma PushAllSnoc(s: Store, jobs: seq<Job>, j: Job)
    ensures PushAll(s, jobs + [j]) == PushReady(PushAll(s, jobs), j)
  {
    assert (jobs + [j])[..|jobs|] == jobs;
  }

  /** Pushing touches nothing but the ready queues. */
  lemma {:induction false} PushAllFrame(s: Store, jobs: seq<Job>)
    ensures var s' := PushAll(s, jobs); s'.processing == s.processing && s'.delayed == s.delayed && s'.failed == s.failed
  {
    if jobs != [] {
      PushAllFrame(s, jobs[..|jobs| - 1]);
    }
  }

  function Backwards(jobs: seq<Job>): seq<Job> {
    if jobs == [] then [] else [jobs[|jobs| - 1]] + Backwards(jobs[..|jobs| - 1])
  }

  /** The jobs of one type, the last of them first: so they stand in their queue, whose end is polled first. */
  function Lined(jobs: seq<Job>, kind: Kind): seq<Job> {
    Backwards(Select(jobs, IsOf(kind)))
  }

  function IsOf(kind: Kind): Job -> bool {
    (j: Job) => j.kind == kind
  }

  lemma {:induction false} SelectSnoc(jobs: seq<Job>, j: Job, kind: Kind)
    ensures Select(jobs + [j], IsOf(kind)) == Select(jobs, IsOf(kind)) + if j.kind == kind then [j] else []
  {
    if jobs == [] {
      assert jobs + [j] == [j];
    } else {
      assert (jobs + [j])[1..] == jobs[1..] + [j];
      SelectSnoc(jobs[1..], j, kind);
    }
  }

  lemma LinedSnoc(jobs: seq<Job>, j: Job, kind: Kind)
    ensures Lined(jobs + [j], kind) == (if j.kind == kind then [j] else []) + Lined(jobs, kind)
  {
    SelectSnoc(jobs, j, kind);
    hide Select;
    var before := Select(jobs, IsOf(kind));
    assert (before + [j])[..|before|] == before && before + [] == before;
  }

  lemma QueueAfterPush(s: Store, j: Job, kind: Kind)
    ensures Queue(PushReady(s, j), kind) == (if j.kind == kind then [j] else []) + Queue(s, kind)
  {
  }

  lemma Regroup(a: seq<Job>, b: seq<Job>, d: seq<Job>)
    ensures a + (b + d) == a + b + d
  {
  }

  lemma NothingLined(kind: Kind, q: seq<Job>)
    ensures Lined([], kind) + q == q
  {
  }

  /** Every job is in the queue of its type, in front of what was there, and in the order of pushing. */
  lemma {:induction false} PushAllLines(s: Store, jobs: seq<Job>, kind: Kind)
    ensures Queue(PushAll(s, jobs), kind) == Lined(jobs, kind) + Queue(s, kind)
  {
    hide Lined, Queue, PushReady;
    if jobs == [] {
      NothingLined(kind, Queue(s, kind));
    } else {
      var n := |jobs| - 1;
      PushAllLines(s, jobs[..n], kind);
      assert jobs == jobs[..n] + [jobs[n]];
      LinedSnoc(jobs[..n], jobs[n], kind);
      QueueAfterPush(PushAll(s, jobs[..n]), jobs[n], kind);
      Regroup(if jobs[n].kind == kind then [jobs[n]] else [], Lined(jobs[..n], kind), Queue(s, kind));
    }
  }

  lemma LinesUp(s: Store, jobs: seq<Job>)
    ensures forall kind :: Queue(PushAll(s, jobs), kind) == Lined(jobs, kind) + Queue(s, kind)
  {
    forall kind
      ensures Queue(PushAll(s, jobs), kind) == Lined(jobs, kind) + Queue(s, kind)
    {
      PushAllLines(s, jobs, kind);
    }
  }

  /** What a promotion of the first `n` due jobs leaves in Redis. */
  lemma PromotionLeaves(s: Store, due: seq<Job>, n: nat)
    requires n <= |due|
    ensures var s' := PromotedStore(s, due, n);
      && s'.processing == s.processing && s'.failed == s.failed
      && (forall j :: j in s'.delayed <==> j in s.delayed && j !in due[..n]) && (forall j | j in s'.delayed :: s'.delayed[j] == s.delayed[j])
      && (forall kind :: Queue(s', kind) == Lined(due[..n], kind) + Queue(s, kind))
  {
    hide PushAll, Lined;
    LinesUp(s, due[..n]);
    PushAllFrame(s, due[..n]);
  }

  lemma RequeueLeaves(s: Store, n: nat)
    requires n <= |s.failed|
    ensures var s', back := RequeuedStore(s, n), FromEnd(s.failed, n);
      && s'.processing == s.processing && s'.delayed == s.delayed && s'.failed == s.failed[..|s.failed| - n]
      && |back| == n && (forall i | 0 <= i < n :: back[i] == s.failed[|s.failed| - 1 - i])
      && (forall kind :: Queue(s', kind) == Lined(back, kind) + Queue(s, kind))
  {
    hide PushAll, Lined;
    LinesUp(s, FromEnd(s.failed, n));
    PushAllFrame(s, FromEnd(s.failed, n));
  }

  /** `stale` are the jobs of `list` in whose favour nothing speaks: unstamped, or stamped too long ago. */
  ghost predicate IsStale(c: Settings, list: seq<Job>, now: int, stale: seq<Job>) {
    && (forall j :: j in stale <==> j in list && (j.startedAt == None || now - j.startedAt.value >= c.visibility))
    && (forall j | j in stale :: multiset(stale)[j] == multiset(list)[j])
  }

  lemma {:induction false} StaleAreStale(c: Settings, list: seq<Job>, now: int)
    ensures IsStale(c, list, now, StaleJobs(c, list, now))
  {
    if list != [] {
      var n := |list| - 1;
      StaleAreStale(c, list[..n], now);
      assert list == list[..n] + [list[n]];
      var rest := StaleJobs(c, list[..n], now);
      forall j | j in StaleJobs(c, list, now)
        ensures multiset(StaleJobs(c, list, now))[j] == multiset(list)[j]
      {
        if j !in rest {
          assert j !in list[..n];
        }
      }
    }
  }

  lemma ReclaimLeaves(c: Settings, s: Store, now: int)
    ensures var s', stale := ReclaimedStore(c, s, |s.processing|, now), StaleJobs(c, s.processing, now);
      var back := Unstamped(stale);
      && s'.delayed == s.delayed && s'.failed == s.failed && IsStale(c, s.processing, now, stale)
      && |back| == |stale| && (forall i | 0 <= i < |stale| :: back[i] == stale[i].(startedAt := None))
      && (forall kind :: Queue(s', kind) == Lined(back, kind) + Queue(s, kind))
  {
    hide PushAll, Lined;
    var list := s.processing;
    assert list[..|list|] == list;
    StaleAreStale(c, list, now);
    LinesUp(s, Unstamped(StaleJobs(c, list, now)));
    PushAllFrame(s, Unstamped(StaleJobs(c, list, now)));
  }

  lemma PromoteTurn(s: Store, due: seq<Job>, now: int, n: nat)
    requires IsDue(s, now, due) && n < |due|
    ensures due[n] in PromotedStore(s, due, n).delayed
    ensures PromotedStore(s, due, n + 1) == PushReady(RemoveDelayed(PromotedStore(s, due, n), due[n]), due[n])
  {
    hide PushAll;
    assert due[..n + 1] == due[..n] + [due[n]] && due[n] !in due[..n] && due[n] in s.delayed;
    PushAllSnoc(s, due[..n], due[n]);
    assert s.delayed - Members(due[..n]) - {due[n]} == s.delayed - Members(due[..n + 1]);
  }

  lemma {:induction false} FreshAreFresh(c: Settings, list: seq<Job>, now: int)
    ensures forall j | j in FreshJobs(c, list, now) :: j in list && !StaleJob(c, j, now)
  {
    if list != [] {
      FreshAreFresh(c, list[..|list| - 1], now);
    }
  }

  lemma {:induction false} RemoveSkips(front: seq<Job>, j: Job, back: seq<Job>)
    requires j !in front
    ensures Remove(front + [j] + back, j) == front + back
  {
    if front == [] {
      assert front + [j] + back == [j] + back && front + back == back;
      assert ([j] + back)[1..] == back;
    } else {
      assert (front + [j] + back)[1..] == front[1..] + [j] + back;
      RemoveSkips(front[1..], j, back);
      assert [front[0]] + (front[1..] + back) == front + back;
    }
  }

  lemma {:induction false} FreshAreKept(c: Settings, list: seq<Job>, now: int, j: Job)
    requires j in list && !StaleJob(c, j, now)
    ensures j in FreshJobs(c, list, now)
  {
    var n := |list| - 1;
    assert list == list[..n] + [list[n]];
    if j in list[..n] {
      FreshAreKept(c, list[..n], now, j);
    }
  }

  /** Exactly the jobs stamped within the visibility timeout stay where they are. */
  lemma StaysInProcessing(c: Settings, s: Store, now: int)
    ensures forall j :: j in ReclaimedStore(c, s, |s.processing|, now).processing <==>
      j in s.processing && j.startedAt.Some? && now - j.startedAt.value < c.visibility
  {
    var list := s.processing;
    assert list[..|list|] == list && list[|list|..] == [];
    FreshAreFresh(c, list, now);
    forall j | j in list && !StaleJob(c, j, now)
      ensures j in FreshJobs(c, list, now)
    {
      FreshAreKept(c, list, now, j);
    }
  }

  lemma CountsStale(c: Settings, s: Store, now: int)
    ensures StaleCount(c, s, |s.processing|, now) == |StaleJobs(c, s.processing, now)|
  {
    assert s.processing[..|s.processing|] == s.processing;
  }

  lemma ReclaimTurn(c: Settings, s: Store, n: nat, now: int)
    requires n < |s.processing|
    ensures var j, before, after := s.processing[n], ReclaimedStore(c, s, n, now), ReclaimedStore(c, s, n + 1, now);
      if StaleJob(c, j, now) then j in before.processing && after == PushReady(RemoveProcessing(before, j), j.WithoutProcessingStartedAt())
      else after == before
    ensures StaleCount(c, s, n + 1, now) == StaleCount(c, s, n, now) + (if StaleJob(c, s.processing[n], now) then 1 else 0)
  {
    var list := s.processing;
    var j := list[n];
    var stale, kept := StaleJobs(c, list[..n], now), FreshJobs(c, list[..n], now);
    assert list[..n + 1][..n] == list[..n] && list[n..] == [j] + list[n + 1..];
    assert kept + list[n..] == kept + [j] + list[n + 1..];
    if StaleJob(c, j, now) {
      FreshAreFresh(c, list[..n], now);
      RemoveSkips(kept, j, list[n + 1..]);
      assert Unstamped(stale + [j]) == Unstamped(stale) + [j.WithoutProcessingStartedAt()];
      PushAllSnoc(s, Unstamped(stale), j.WithoutProcessingStartedAt());
    }
  }

  lemma RequeueTurn(s: Store, n: nat)
    requires n < |s.failed|
    ensures var before := RequeuedStore(s, n);
      && before.failed != []
      && RequeuedStore(s, n + 1) == PushReady(PopFailed(before), before.failed[|before.failed| - 1])
  {
    hide PushAll;
    var j := s.failed[|s.failed| - 1 - n];
    assert FromEnd(s.failed, n + 1) == FromEnd(s.failed, n) + [j];
    PushAllSnoc(s, FromEnd(s.failed, n), j);
    assert s.failed[..|s.failed| - n][..|s.failed| - n - 1] == s.failed[..|s.failed| - n - 1];
  }

  lemma NoTurns(c: Settings, s: Store, due: seq<Job>, now: int)
    ensures PromotedStore(s, due, 0) == s && ReclaimedStore(c, s, 0, now) == s && RequeuedStore(s, 0) == s
    ensures StaleCount(c, s, 0, now) == 0
  {
    assert due[..0] == [] && s.delayed - Members([]) == s.delayed;
    assert s.processing[..0] == [] && [] + s.processing[0..] == s.processing && Unstamped([]) == [];
    assert FromEnd(s.failed, 0) == [] && s.failed[..|s.failed|] == s.failed;
  }

  lemma MinExists(scores: map<Job, int>, jobs: set<Job>) returns (m: Job)
    requires jobs != {} && forall j | j in jobs :: j in scores
    ensures m in jobs && forall j | j in jobs :: scores[m] <= scores[j]
    decreases |jobs|
  {
    var x, rest := Pick(jobs);
    m := x;
    if rest != {} {
      var n := MinExists(scores, rest);
      m := if scores[n] < scores[x] then n else x;
    }
  }

  // ---- one copy of every live job -----------------------------------------

  /** Redis holds exactly the live jobs, each once, each in the queue of its type if it is ready. */
  ghost predicate Once(s: Store, live: map<int, Kind>) {
    Routed(s) && AllStored(s, SingleWorker.Known(live)) && forall id | id in live :: Copies(s, live[id], id) == 1
  }

  lemma KnownShrinks(s: Store, live: map<int, Kind>, id: int)
    requires AllStored(s, SingleWorker.Known(live)) && id in live && Copies(s, live[id], id) == 0 && Routed(s)
    ensures AllStored(s, SingleWorker.Known(live - {id}))
  {
    CountZero(Queue(s, live[id]), id);
    CountZero(s.processing, id);
    CountZero(s.failed, id);
    forall j | j in s.delayed
      ensures j.id != id
    {
      assert j.id == id ==> j in DelayedCopies(s, id);
    }
    forall kind | kind in s.ready
      ensures AllIn(s.ready[kind], SingleWorker.Known(live - {id}))
    {
      assert forall j | j in s.ready[kind] :: SingleWorker.Known(live)(KeyOf(j)) && j.kind == kind;
    }
  }

  /** Taking the single copy of a job out leaves the others. */
  lemma TakeKeepsOnce(s: Store, s': Store, live: map<int, Kind>, j: Job)
    requires Once(s, live) && j.id in live && Routed(s') && AllStored(s', SingleWorker.Known(live))
    requires forall id | id in live :: Copies(s', live[id], id) + One(j, id) == Copies(s, live[id], id)
    ensures Once(s', live - {j.id}) && Copies(s', live[j.id], j.id) == 0
  {
    hide Copies, AllStored, Routed;
    KnownShrinks(s', live, j.id);
  }

  /** Putting a job that has no copy back in makes it live again. */
  lemma PutKeepsOnce(s: Store, s': Store, live: map<int, Kind>, j: Job)
    requires j.id in live && live[j.id] == j.kind && Once(s, live - {j.id}) && Copies(s, live[j.id], j.id) == 0
    requires Routed(s') && AllStored(s', SingleWorker.Known(live))
    requires forall id | id in live :: Copies(s', live[id], id) == Copies(s, live[id], id) + One(j, id)
    ensures Once(s', live)
  {
    hide Copies, AllStored, Routed;
    forall id | id in live
      ensures Copies(s', live[id], id) == 1
    {
      assert id != j.id ==> id in live - {j.id};
    }
  }

  lemma KnownWidens(s: Store, live: map<int, Kind>, id: int)
    requires AllStored(s, SingleWorker.Known(live - {id}))
    ensures AllStored(s, SingleWorker.Known(live))
  {
  }

  lemma PopOnce(s: Store, live: map<int, Kind>, kind: Kind)
    requires Once(s, live) && Queue(s, kind) != []
    ensures var j := Queue(s, kind)[|Queue(s, kind)| - 1];
      && j.kind == kind && j.id in live && live[j.id] == kind
      && Once(Taken(s, kind), live - {j.id}) && Copies(Taken(s, kind), kind, j.id) == 0
  {
    var q := Queue(s, kind);
    var j, s' := q[|q| - 1], Taken(s, kind);
    assert j in s.ready[kind];
    assert SingleWorker.Known(live)(KeyOf(j));
    forall id | id in live
      ensures Copies(s', live[id], id) + One(j, id) == Copies(s, live[id], id)
    {
      CountPop(q, id);
      assert DelayedCopies(s', id) == DelayedCopies(s, id);
    }
    hide Copies;
    TakeKeepsOnce(s, s', live, j);
  }

  lemma SettleOnce(c: Settings, s: Store, live: map<int, Kind>, j: Job, result: Result, now: int)
    requires j.id in live && live[j.id] == j.kind && Once(s, live - {j.id}) && Copies(s, j.kind, j.id) == 0
    ensures Once(Settle(c, s, j, result, now), if result.Returned? then live - {j.id} else live)
  {
    hide Copies, AllStored, Routed, RetryDelay, RetriedJob, FailedJob;
    if result.Threw? {
      var s' := Settle(c, s, j, result, now);
      KnownWidens(s, live, j.id);
      KeyOfDerived(j, result.error, now);
      var j' := if WillRetry(c, j) then RetriedJob(j, result.error) else FailedJob(j, Some(result.error), now);
      var at := now + RetryDelay(c, j.attempts + 1);
      PushesKeepAll(s, j', at, SingleWorker.Known(live));
      SingleWorker.HeldIsNotDelayed(s, j', j.kind);
      forall id | id in live
        ensures Copies(s', live[id], id) == Copies(s, live[id], id) + One(j', id)
      {
        AddDelayedCount(s, j', at, live[id], id);
        PushFailedCount(s, j', live[id], id);
      }
      SameReady(s, s');
      PutKeepsOnce(s, s', live, j');
    }
  }

  lemma SameReady(s: Store, s': Store)
    requires Routed(s) && s'.ready == s.ready
    ensures Routed(s')
  {
  }

  lemma PromoteOnce(s: Store, live: map<int, Kind>, j: Job)
    requires Once(s, live) && j in s.delayed
    ensures Once(PushReady(RemoveDelayed(s, j), j), live)
  {
    assert SingleWorker.Known(live)(KeyOf(j));
    hide Copies, AllStored, Routed, PushReady;
    var s1 := RemoveDelayed(s, j);
    var s2 := PushReady(s1, j);
    forall id | id in live
      ensures Copies(s1, live[id], id) + One(j, id) == Copies(s, live[id], id)
      ensures Copies(s2, live[id], id) == Copies(s1, live[id], id) + One(j, id)
    {
      RemoveDelayedCount(s, j, live[id], id);
      PushReadyCount(s1, j, live[id], id);
    }
    SameReady(s, s1);
    RemovalsKeepAll(s, j, SingleWorker.Known(live));
    TakeKeepsOnce(s, s1, live, j);
    PushKeepsRouted(s1, j);
    PushesKeepAll(s1, j, 0, SingleWorker.Known(live));
    PutKeepsOnce(s1, s2, live, j);
  }

  lemma {:induction false} PromotionKeepsOnce(s: Store, live: map<int, Kind>, due: seq<Job>, now: int, n: nat)
    requires Once(s, live) && IsDue(s, now, due) && n <= |due|
    ensures Once(PromotedStore(s, due, n), live)
  {
    hide Once, IsDue, PromotedStore, PushReady;
    if n == 0 {
      NoTurns(RawSettings(0, 1, 1, 1), s, due, now);
    } else {
      PromotionKeepsOnce(s, live, due, now, n - 1);
      PromoteTurn(s, due, now, n - 1);
      PromoteOnce(PromotedStore(s, due, n - 1), live, due[n - 1]);
    }
  }

  lemma ReclaimOnce(s: Store, live: map<int, Kind>, j: Job)
    requires Once(s, live) && j in s.processing
    ensures Once(PushReady(RemoveProcessing(s, j), j.WithoutProcessingStartedAt()), live)
  {
    assert SingleWorker.Known(live)(KeyOf(j));
    hide Copies, AllStored, Routed, PushReady;
    var j' := j.WithoutProcessingStartedAt();
    var s1 := RemoveProcessing(s, j);
    var s2 := PushReady(s1, j');
    forall id | id in live
      ensures Copies(s1, live[id], id) + One(j, id) == Copies(s, live[id], id)
      ensures Copies(s2, live[id], id) == Copies(s1, live[id], id) + One(j', id)
    {
      RemoveProcessingCount(s, j, live[id], id);
      PushReadyCount(s1, j', live[id], id);
    }
    SameReady(s, s1);
    RemovalsKeepAll(s, j, SingleWorker.Known(live));
    TakeKeepsOnce(s, s1, live, j);
    PushKeepsRouted(s1, j');
    PushesKeepAll(s1, j', 0, SingleWorker.Known(live));
    PutKeepsOnce(s1, s2, live, j');
  }

  lemma {:induction false} ReclaimKeepsOnce(c: Settings, s: Store, live: map<int, Kind>, now: int, n: nat)
    requires Once(s, live) && n <= |s.processing|
    ensures Once(ReclaimedStore(c, s, n, now), live)
  {
    hide Once, ReclaimedStore, PushReady, RemoveProcessing, StaleJob, StaleCount;
    if n == 0 {
      NoTurns(c, s, [], now);
    } else {
      ReclaimKeepsOnce(c, s, live, now, n - 1);
      ReclaimTurn(c, s, n - 1, now);
      if StaleJob(c, s.processing[n - 1], now) {
        ReclaimOnce(ReclaimedStore(c, s, n - 1, now), live, s.processing[n - 1]);
      }
    }
  }

  // ---- the operations -----------------------------------------------------

  /** What one pass of the worker loop gets from outside: the clocks and the handler's provider. */
  datatype Tick = Tick(monotonic: int, now: int, response: Response)

  /** The error as it is stored: its first 500 characters. */
  predicate IsError(stored: Option<string>, error: string) {
    stored == Some(if |error| <= 500 then error else error[..500])
  }

  /** Where a job goes once its handler has returned or thrown: nowhere, back for a retry after its delay, or to the
      failed list when its retries are used up or nobody handles its type. */
  predicate SettledAs(c: Settings, s: Store, job: Job, result: Result, now: int, s': Store) {
    match result
    case Returned => s' == s
    case Threw(error) =>
      if !job.kind.Unregistered? && job.attempts < c.maxRetries then
        exists j | j in s'.delayed :: IsError(j.lastError, error)
          && j == job.(attempts := job.attempts + 1, startedAt := None, lastError := j.lastError)
          && s' == s.(delayed := s.delayed[j := now + RetryDelay(c, job.attempts + 1)])
      else
        && s'.failed != [] && IsError(s'.failed[0].lastError, error)
        && s'.failed[0] == job.(failedAt := Some(now), lastError := s'.failed[0].lastError)
        && s' == s.(failed := [s'.failed[0]] + s.failed)
  }

  lemma SettlesAs(c: Settings, s: Store, job: Job, result: Result, now: int)
    ensures SettledAs(c, s, job, result, now, Settle(c, s, job, result, now))
  {
    hide RetryDelay;
    if result.Threw? && WillRetry(c, job) {
      assert RetriedJob(job, result.error) in Settle(c, s, job, result, now).delayed;
    }
  }

  class Worker {
    const c: Settings
    const maintenanceInterval: nat
    const promoteBatch: nat
    var store: Store
    var world: World
    var lastQueueMaintenance: int
    /** The ids acknowledged so far, oldest first. */
    var acknowledged: seq<int>

    constructor (c: Settings, maintenanceInterval: nat, promoteBatch: nat)
      ensures this.c == c && store == EMPTY_STORE && world == EMPTY_WORLD && lastQueueMaintenance == 0 && acknowledged == []
    {
      this.c, this.maintenanceInterval, this.promoteBatch := c, maintenanceInterval, promoteBatch;
      store, world, lastQueueMaintenance, acknowledged := EMPTY_STORE, EMPTY_WORLD, 0, [];
    }

    method EnqueueJob(id: int, kind: Kind, target: int, request: Option<string>) returns (job: Job)
      modifies `store
      ensures KeyOf(job) == Key(id, kind, target, 0) && job.request == request
      ensures job.startedAt == None && job.failedAt == None && job.lastError == None
      ensures store == old(store).(ready := old(store).ready[kind := [job] + Queue(old(store), kind)])
    {
      job := NewJob(id, kind, target, request);
      store := PushReady(store, job);
    }

    /** Oldest job first; the processing list gains exactly the stamped job. */
    method DequeueJob(kind: Kind, now: int) returns (r: Option<Job>)
      modifies `store
      ensures Queue(old(store), kind) == [] ==> r == None && store == old(store)
      ensures var q := Queue(old(store), kind);
        q != [] ==> (r == Some(q[|q| - 1].(startedAt := Some(now)))
                     && store == Taken(old(store), kind).(processing := [r.value] + old(store).processing))
    {
      var q := Queue(store, kind);
      if q == [] {
        return None;
      }
      var raw := q[|q| - 1];
      store := PopReady(store, kind);
      var job := raw.WithProcessingStartedAt(now);
      if job != raw {
        store := RemoveProcessing(store, raw);
        assert ([raw] + old(store).processing)[1..] == old(store).processing;
        store := PushProcessing(store, job);
      }
      return Some(job);
    }

    method AckJob(job: Job)
      modifies `store, `acknowledged
      ensures store == old(store).(processing := Remove(old(store).processing, job))
      ensures acknowledged == old(acknowledged) + [job.id]
    {
      store := RemoveProcessing(store, job);
      acknowledged := acknowledged + [job.id];
    }

    method ScheduleRetry(job: Job, error: string, now: int) returns (retried: Job)
      modifies `store
      ensures retried == RetriedJob(job, error)
      ensures IsError(retried.lastError, error) && retried == job.(attempts := job.attempts + 1, startedAt := None, lastError := retried.lastError)
      ensures store == old(store).(processing := Remove(old(store).processing, job),
                                   delayed := old(store).delayed[retried := now + RetryDelay(c, job.attempts + 1)])
    {
      retried := RetriedJob(job, error);
      store := RemoveProcessing(store, job);
      store := AddDelayed(store, retried, now + RetryDelay(c, retried.attempts));
    }

    method MoveJobToFailedQueue(job: Job, error: Option<string>, now: int) returns (failed: Job)
      modifies `store
      ensures failed == FailedJob(job, error, now) && failed == job.(failedAt := Some(now), lastError := failed.lastError)
      ensures var shown := if error.Some? then error else job.lastError;
        if shown == None then failed.lastError == None else IsError(failed.lastError, shown.value)
      ensures store == old(store).(processing := Remove(old(store).processing, job), failed := [failed] + old(store).failed)
    {
      failed := FailedJob(job, error, now);
      store := RemoveProcessing(store, job);
      store := PushFailed(store, failed);
    }

    /** ZRANGEBYSCORE. */
    method DueJobs(now: int) returns (due: seq<Job>)
      ensures IsDue(store, now, due)
    {
      due := [];
      var left := set j | j in store.delayed && 0 <= store.delayed[j] <= now;
      while left != {}
        invariant forall j :: (j in due || j in left) <==> j in store.delayed && 0 <= store.delayed[j] <= now
        invariant forall j | j in left :: j !in due
        invariant forall i, j | 0 <= i < |due| && j in left :: store.delayed[due[i]] <= store.delayed[j]
        invariant forall i, k | 0 <= i < k < |due| :: due[i] != due[k] && store.delayed[due[i]] <= store.delayed[due[k]]
        decreases |left|
      {
        ghost var _ := MinExists(store.delayed, left);
        var m :| m in left && forall j | j in left :: store.delayed[m] <= store.delayed[j];
        due := due + [m];
        left := left - {m};
      }
    }

    method PromoteDelayedJobs(now: int, limit: Option<nat>) returns (count: nat, due: seq<Job>)
      modifies `store
      ensures IsDue(old(store), now, due) && count == Capped(|due|, limit)
      ensures count == if limit.Some? && limit.value < |due| then limit.value else |due|
      ensures store == PromotedStore(old(store), due, count)
      ensures store.processing == old(store).processing && store.failed == old(store).failed
      ensures forall j :: j in store.delayed <==> j in old(store).delayed && j !in due[..count]
      ensures forall j | j in store.delayed :: store.delayed[j] == old(store).delayed[j]
      ensures forall kind :: Queue(store, kind) == Lined(due[..count], kind) + Queue(old(store), kind)
    {
      hide PromotedStore, PushReady, IsDue, Lined;
      due := DueJobs(now);
      count := 0;
      forall n: nat | n <= |due| {
        PromotionLeaves(store, due, n);
      }
      NoTurns(c, store, due, now);
      for i := 0 to |due|
        invariant count == i <= Capped(|due|, limit)
        invariant store == PromotedStore(old(store), due, count)
      {
        if Reached(count, limit) {
          return;
        }
        var j := due[i];
        PromoteTurn(old(store), due, now, i);
        if j in store.delayed {
          store := RemoveDelayed(store, j);
          store := PushReady(store, j);
          count := count + 1;
        }
      }
    }

    method ReclaimStaleProcessingJobs(now: int) returns (count: nat, ghost stale: seq<Job>, ghost back: seq<Job>)
      modifies `store
      ensures count == StaleCount(c, old(store), |old(store).processing|, now)
      ensures store == ReclaimedStore(c, old(store), |old(store).processing|, now)
      ensures forall j :: j in store.processing <==>
        j in old(store).processing && j.startedAt.Some? && now - j.startedAt.value < c.visibility
      ensures IsStale(c, old(store).processing, now, stale) && count == |stale|
      ensures store.delayed == old(store).delayed && store.failed == old(store).failed
      ensures |back| == count && forall i | 0 <= i < count :: back[i] == stale[i].(startedAt := None)
      ensures forall kind :: Queue(store, kind) == Lined(back, kind) + Queue(old(store), kind)
    {
      hide *;
      ReclaimLeaves(c, store, now);
      stale, back := StaleJobs(c, store.processing, now), Unstamped(StaleJobs(c, store.processing, now));
      CountsStale(c, store, now);
      StaysInProcessing(c, store, now);
      var list := store.processing;
      count := 0;
      NoTurns(c, store, [], now);
      for i := 0 to |list|
        invariant count == StaleCount(c, old(store), i, now)
        invariant store == ReclaimedStore(c, old(store), i, now)
      {
        ReclaimTurn(c, old(store), i, now);
        var j := list[i];
        if StaleJob(c, j, now) {
          if j in store.processing {
            store := RemoveProcessing(store, j);
            store := PushReady(store, j.WithoutProcessingStartedAt());
            count := count + 1;
          }
        }
      }
    }

    method RequeueFailedJobs(limit: Option<nat>) returns (count: nat, ghost back: seq<Job>)
      modifies `store
      ensures count == Capped(|old(store).failed|, limit)
      ensures count == if limit.Some? && limit.value < |old(store).failed| then limit.value else |old(store).failed|
      ensures store == RequeuedStore(old(store), count)
      ensures store.processing == old(store).processing && store.delayed == old(store).delayed
      ensures store.failed == old(store).failed[..|old(store).failed| - count]
      ensures |back| == count && forall i | 0 <= i < count :: back[i] == old(store).failed[|old(store).failed| - 1 - i]
      ensures forall kind :: Queue(store, kind) == Lined(back, kind) + Queue(old(store), kind)
    {
      hide PushAll, PushReady, Lined;
      count := 0;
      NoTurns(c, store, [], 0);
      while !Reached(count, limit) && store.failed != []
        invariant count <= Capped(|old(store).failed|, limit)
        invariant store == RequeuedStore(old(store), count)
        decreases |old(store).failed| - count
      {
        RequeueTurn(old(store), count);
        var j := store.failed[|store.failed| - 1];
        store := PopFailed(store);
        store := PushReady(store, j);
        count := count + 1;
      }
      RequeueLeaves(old(store), count);
      back := FromEnd(old(store).failed, count);
    }

    /** Nothing happens when every polled queue is empty. Otherwise one job leaves the first non-empty queue, its
        handler runs once, and it ends acknowledged, delayed for a retry, or in the failed list; the processing
        list is as before. */
    method ProcessNextJob(now: int, response: Response) returns (ran: bool, ghost k: nat)
      modifies `store, `world, `acknowledged
      ensures !ran ==> store == old(store) && world == old(world) && acknowledged == old(acknowledged) && NothingReady(store)
      ensures ran ==> IsFirst(old(store), k)
      ensures ran ==>
        var q := Queue(old(store), KNOWN_KINDS[k]);
        var job := q[|q| - 1].(startedAt := Some(now));
        var (world', result) := Handle(c, old(world), job, response);
        && world == world' && store == Settle(c, Taken(old(store), KNOWN_KINDS[k]), job, result, now)
        && acknowledged == (if result.Returned? then old(acknowledged) + [job.id] else old(acknowledged))
        && SettledAs(c, Taken(old(store), KNOWN_KINDS[k]), job, result, now, store)
    {
      hide SettledAs, Handle, WillRetry, RetryDelay, RetriedJob, FailedJob;
      var found: Option<Job> := None;
      var i := 0;
      while i < |KNOWN_KINDS|
        invariant i <= |KNOWN_KINDS| && found == None && store == old(store) && world == old(world) && acknowledged == old(acknowledged)
        invariant forall n | 0 <= n < i :: Queue(store, KNOWN_KINDS[n]) == []
      {
        found := DequeueJob(KNOWN_KINDS[i], now);
        if found.Some? {
          break;
        }
        i := i + 1;
      }
      k := i;
      if found == None {
        return false, k;
      }
      var job := found.value;
      assert ([job] + old(store).processing)[1..] == old(store).processing;
      var (world', result) := Handle(c, world, job, response);
      world := world';
      SettlesAs(c, Taken(old(store), KNOWN_KINDS[k]), job, result, now);
      if result.Returned? {
        AckJob(job);
      } else if WillRetry(c, job) {
        var _ := ScheduleRetry(job, result.error, now);
      } else {
        var _ := MoveJobToFailedQueue(job, Some(result.error), now);
      }
      return true, k;
    }

    /** At most once per interval, stale jobs are reclaimed and then due jobs promoted, up to the batch size; every
        live job keeps exactly one copy, also one left in processing by an earlier worker. */
    method MaybeRunQueueMaintenance(tick: Tick, ghost live: map<int, Kind>)
      modifies `store, `lastQueueMaintenance
      ensures Once(old(store), live) ==> Once(store, live)
      ensures tick.monotonic - old(lastQueueMaintenance) < maintenanceInterval ==>
        store == old(store) && lastQueueMaintenance == old(lastQueueMaintenance)
      ensures tick.monotonic - old(lastQueueMaintenance) >= maintenanceInterval ==>
        var reclaimed := ReclaimedStore(c, old(store), |old(store).processing|, tick.now);
        && lastQueueMaintenance == tick.monotonic
        && exists due :: IsDue(reclaimed, tick.now, due) && store == PromotedStore(reclaimed, due, Capped(|due|, Some(promoteBatch)))
    {
      hide Once, ReclaimedStore, PromotedStore, IsDue;
      if tick.monotonic - lastQueueMaintenance < maintenanceInterval {
        return;
      }
      lastQueueMaintenance := tick.monotonic;
      var _, _, _ := ReclaimStaleProcessingJobs(tick.now);
      ghost var reclaimed := store;
      var count, due := PromoteDelayedJobs(tick.now, Some(promoteBatch));
      if Once(old(store), live) {
        ReclaimKeepsOnce(c, old(store), live, tick.now, |old(store).processing|);
        PromotionKeepsOnce(reclaimed, live, due, tick.now, count);
      }
    }

    /** Over any number of passes, every live job keeps exactly one copy, and the jobs that stop being live are
        exactly those acknowledged meanwhile, each once. */
    method RunWorker(ticks: seq<Tick>, ghost live: map<int, Kind>) returns (ghost left: map<int, Kind>)
      requires Once(store, live)
      modifies `store, `world, `lastQueueMaintenance, `acknowledged
      ensures Once(store, left) && old(acknowledged) <= acknowledged
      ensures Settled(live, left, acknowledged[|old(acknowledged)|..])
    {
      hide Once, Settled, SettledAs, Settle, Handle, ReclaimedStore, PromotedStore, IsDue;
      left := live;
      NothingSettled(live);
      assert acknowledged[|old(acknowledged)|..] == [];
      for i := 0 to |ticks|
        invariant Once(store, left) && old(acknowledged) <= acknowledged
        invariant Settled(live, left, acknowledged[|old(acknowledged)|..])
      {
        MaybeRunQueueMaintenance(ticks[i], left);
        ghost var before, w, acked := store, world, acknowledged;
        var ran, k := ProcessNextJob(ticks[i].now, ticks[i].response);
        if ran {
          ghost var next, id, done := PassKeepsOnce(c, before, left, w, KNOWN_KINDS[k], ticks[i].now, ticks[i].response);
          if done {
            SettlesOne(live, left, acked[|old(acknowledged)|..], id);
            assert acknowledged[|old(acknowledged)|..] == acked[|old(acknowledged)|..] + [id];
          }
          left := next;
        }
      }
    }
  }

  /** `left` is `live` without the ids in `acks`, which are distinct and were live. */
  ghost predicate Settled(live: map<int, Kind>, left: map<int, Kind>, acks: seq<int>) {
    && (forall id :: id in left <==> id in live && id !in acks)
    && (forall id | id in left :: left[id] == live[id])
    && (forall id | id in acks :: id in live)
    && (forall i, j | 0 <= i < j < |acks| :: acks[i] != acks[j])
  }

  lemma NothingSettled(live: map<int, Kind>)
    ensures Settled(live, live, [])
  {
  }

  lemma SettlesOne(live: map<int, Kind>, left: map<int, Kind>, acks: seq<int>, id: int)
    requires Settled(live, left, acks) && id in left
    ensures Settled(live, left - {id}, acks + [id])
  {
  }

  lemma PassKeepsOnce(c: Settings, s: Store, live: map<int, Kind>, w: World, kind: Kind, now: int, response: Response)
    returns (left: map<int, Kind>, id: int, done: bool)
    requires Once(s, live) && Queue(s, kind) != []
    ensures var q := Queue(s, kind);
      var job := q[|q| - 1].WithProcessingStartedAt(now);
      var (world', result) := Handle(c, w, job, response);
      && Once(Settle(c, Taken(s, kind), job, result, now), left)
      && id == job.id && id in live && done == result.Returned? && left == if done then live - {id} else live
  {
    hide Handle, Once, Copies;
    var q := Queue(s, kind);
    var job := q[|q| - 1].WithProcessingStartedAt(now);
    var (world', result) := Handle(c, w, job, response);
    PopOnce(s, live, kind);
    SettleOnce(c, Taken(s, kind), live, job, result, now);
    id, done := job.id, result.Returned?;
    left := if done then live - {id} else live;
  }

  // ---- a pass is a run of the interleaved machine -------------------------

  lemma PollsOldest(c: Settings, s: State, p: int, kind: Kind, now: int)
    requires ProcOf(s, p).Idle? && !kind.Unregistered? && Queue(s.store, kind) != []
    ensures Run(c, s, [Begin(p, Poll(kind), now)])
         == s.(store := PopReady(s.store, kind), procs := s.procs[p := Popped(Queue(s.store, kind)[|Queue(s.store, kind)| - 1])])
  {
    hide PopReady;
    Snoc(c, s, [], Begin(p, Poll(kind), now));
    assert [] + [Begin(p, Poll(kind), now)] == [Begin(p, Poll(kind), now)];
  }

  /** After polling and stamping, the process runs the stamped job, which is at the head of the processing list. */
  lemma StampsPolled(c: Settings, s: State, p: int, kind: Kind, now: int, response: Response) returns (t: seq<Action>)
    requires ProcOf(s, p).Idle? && !kind.Unregistered? && Queue(s.store, kind) != []
    ensures var q := Queue(s.store, kind);
      var job := q[|q| - 1].WithProcessingStartedAt(now);
      Run(c, s, t) == s.(store := Taken(s.store, kind).(processing := [job] + s.store.processing), procs := s.procs[p := Running(job)])
  {
    hide Run, Step;
    var go := Workers.Next(p, now, response);
    var q := Queue(s.store, kind);
    var raw := q[|q| - 1];
    var job := raw.WithProcessingStartedAt(now);
    PollsOldest(c, s, p, kind, now);
    t := [Begin(p, Poll(kind), now)];
    Moves(c, s, t, p, Popped(raw), go);
    t := t + [go];
    assert ([raw] + s.store.processing)[1..] == s.store.processing;
    assert s.procs[p := Popped(raw)][p := Running(job)] == s.procs[p := Running(job)];
    if job != raw {
      Moves(c, s, t, p, Stamping(job), go);
      t := t + [go];
      assert s.procs[p := Popped(raw)][p := Stamping(job)][p := Running(job)] == s.procs[p := Running(job)];
    }
  }

  lemma Handles(c: Settings, start: State, trace: seq<Action>, p: int, job: Job, go: Action)
    requires var s := Run(c, start, trace); p in s.procs && s.procs[p] == Running(job)
    requires go.Next? && go.proc == p
    ensures var s := Run(c, start, trace);
      var (world', result) := Handle(c, s.world, job, go.response);
      Run(c, start, trace + [go]) == s.(world := world', procs := s.procs[p := if result.Returned? then Acking(job) else Failing(job, result.error)])
  {
    hide Handle;
    Snoc(c, start, trace, go);
  }

  lemma Acks(c: Settings, start: State, trace: seq<Action>, p: int, job: Job, go: Action)
    requires var s := Run(c, start, trace); p in s.procs && s.procs[p] == Acking(job)
    requires go.Next? && go.proc == p
    ensures var s := Run(c, start, trace);
      Run(c, start, trace + [go]) == s.(store := RemoveProcessing(s.store, job), procs := s.procs[p := Idle], acked := s.acked + {job.id})
  {
    hide RemoveProcessing;
    Snoc(c, start, trace, go);
  }

  /** What one undisturbed pass of a process does to Redis, the tables and the acknowledged ids is exactly what
      `ProcessNextJob` does; so everything proved of all runs holds of the worker loop. */
  lemma PassIsARun(c: Settings, s: State, p: int, kind: Kind, now: int, response: Response) returns (t: seq<Action>)
    requires ProcOf(s, p).Idle? && !kind.Unregistered? && Queue(s.store, kind) != []
    ensures var q := Queue(s.store, kind);
      var job := q[|q| - 1].WithProcessingStartedAt(now);
      var (world', result) := Handle(c, s.world, job, response);
      Run(c, s, t) == s.(store := Settle(c, Taken(s.store, kind), job, result, now), world := world', procs := s.procs[p := Idle],
                         acked := if result.Returned? then s.acked + {job.id} else s.acked)
  {
    hide Run, Step, Handle, WillRetry, RetryDelay, RetriedJob, FailedJob;
    var go := Workers.Next(p, now, response);
    t := StampsPolled(c, s, p, kind, now, response);
    var job := Queue(s.store, kind)[|Queue(s.store, kind)| - 1].WithProcessingStartedAt(now);
    Handles(c, s, t, p, job, go);
    t := t + [go];
    var (world', result) := Handle(c, s.world, job, response);
    assert ([job] + s.store.processing)[1..] == s.store.processing;
    if result.Returned? {
      Acks(c, s, t, p, job, go);
      t := t + [go];
      assert s.procs[p := Running(job)][p := Acking(job)][p := Idle] == s.procs[p := Idle];
    } else {
      var failing := Failing(job, result.error);
      Moves(c, s, t, p, failing, go);
      t := t + [go];
      var next := Run(c, s, t).procs[p];
      Moves(c, s, t, p, next, go);
      t := t + [go];
      assert s.procs[p := Running(job)][p := failing][p := next][p := Idle] == s.procs[p := Idle];
    }
  }

  // ---- and so are the maintenance loops -----------------------------------

  lemma Begins(c: Settings, s: State, p: int, task: Task, now: int)
    requires ProcOf(s, p).Idle? && !task.Poll? && (task.Promote? ==> IsDue(s.store, now, task.due))
    ensures Run(c, s, [Begin(p, task, now)]) == s.(procs := s.procs[p := Start(s.store, task, now).1])
  {
    hide IsDue;
    Snoc(c, s, [], Begin(p, task, now));
    assert [] + [Begin(p, task, now)] == [Begin(p, task, now)];
  }

  lemma NextInLine(jobs: seq<Job>, n: nat)
    requires 0 < n <= |jobs|
    ensures jobs[n - 1..] != [] && jobs[n - 1..][0] == jobs[n - 1] && jobs[n - 1..][1..] == jobs[n..]
  {
  }

  /** The state of a process inside a loop. */
  function During(s: State, store: Store, p: int, proc: Proc): State {
    s.(store := store, procs := s.procs[p := proc])
  }

  lemma Goes(c: Settings, s: State, trace: seq<Action>, store: Store, p: int, proc: Proc, now: int) returns (t: seq<Action>)
    requires Run(c, s, trace) == During(s, store, p, proc) && !proc.Running? && !proc.Acking?
    ensures var next := Continue(c, store, proc, now); Run(c, s, t) == During(s, next.0, p, next.1)
  {
    hide Run, Continue;
    var go := Workers.Next(p, now, Accepted);
    Moves(c, s, trace, p, proc, go);
    t := trace + [go];
    var next := Continue(c, store, proc, now);
    assert s.procs[p := proc][p := next.1] == s.procs[p := next.1];
  }

  lemma {:induction false} PromotionIsARun(c: Settings, s: State, p: int, due: seq<Job>, limit: Option<nat>, now: int, n: nat)
    returns (t: seq<Action>)
    requires ProcOf(s, p).Idle? && IsDue(s.store, now, due) && n <= Capped(|due|, limit)
    ensures Run(c, s, t) == During(s, PromotedStore(s.store, due, n), p, Promoting(due[n..], n, limit))
  {
    hide Run, PromotedStore, IsDue, PushReady, RemoveDelayed;
    if n == 0 {
      Begins(c, s, p, Promote(due, limit), now);
      NoTurns(c, s.store, due, now);
      t := [Begin(p, Promote(due, limit), now)];
      assert due[0..] == due;
    } else {
      t := PromotionIsARun(c, s, p, due, limit, now, n - 1);
      PromoteTurn(s.store, due, now, n - 1);
      var store, j := PromotedStore(s.store, due, n - 1), due[n - 1];
      NextInLine(due, n);
      t := Goes(c, s, t, store, p, Promoting(due[n - 1..], n - 1, limit), now);
      t := Goes(c, s, t, RemoveDelayed(store, j), p, Promoted(j, due[n..], n - 1, limit), now);
    }
  }

  lemma {:induction false} ReclaimIsARun(c: Settings, s: State, p: int, now: int, n: nat) returns (t: seq<Action>)
    requires ProcOf(s, p).Idle? && n <= |s.store.processing|
    ensures Run(c, s, t) == During(s, ReclaimedStore(c, s.store, n, now), p, Reclaiming(s.store.processing[n..], now))
  {
    hide Run, ReclaimedStore, PushReady, RemoveProcessing, StaleJob, StaleCount;
    var list := s.store.processing;
    if n == 0 {
      Begins(c, s, p, Reclaim, now);
      NoTurns(c, s.store, [], now);
      t := [Begin(p, Reclaim, now)];
      assert list[0..] == list;
    } else {
      t := ReclaimIsARun(c, s, p, now, n - 1);
      ReclaimTurn(c, s.store, n - 1, now);
      var store, j := ReclaimedStore(c, s.store, n - 1, now), list[n - 1];
      NextInLine(list, n);
      t := Goes(c, s, t, store, p, Reclaiming(list[n - 1..], now), now);
      if StaleJob(c, j, now) {
        t := Goes(c, s, t, RemoveProcessing(store, j), p, Reclaimed(j.WithoutProcessingStartedAt(), list[n..], now), now);
      }
    }
  }

  lemma {:induction false} RequeueIsARun(c: Settings, s: State, p: int, limit: Option<nat>, now: int, n: nat) returns (t: seq<Action>)
    requires ProcOf(s, p).Idle? && n <= Capped(|s.store.failed|, limit)
    ensures Run(c, s, t) == During(s, RequeuedStore(s.store, n), p, Requeuing(n, limit))
  {
    hide Run, RequeuedStore, PushReady, PopFailed;
    if n == 0 {
      Begins(c, s, p, RequeueFailed(limit), now);
      NoTurns(c, s.store, [], now);
      t := [Begin(p, RequeueFailed(limit), now)];
    } else {
      t := RequeueIsARun(c, s, p, limit, now, n - 1);
      RequeueTurn(s.store, n - 1);
      var store := RequeuedStore(s.store, n - 1);
      t := Goes(c, s, t, store, p, Requeuing(n - 1, limit), now);
      t := Goes(c, s, t, PopFailed(store), p, Requeued(store.failed[|store.failed| - 1], n - 1, limit), now);
    }
  }
}
