/** Job values, the Redis keys that hold them and the single commands the queue is built from. A serialised
    job and the job it decodes to are identified: two payloads are equal exactly when their jobs are. */
module JobQueue {
  import opened Domain

  const MAX_JOB_ERROR_LENGTH := 500

  /** Job types with a handler, and any other name a caller may enqueue. */
  datatype Kind = PasswordResetEmail | SendNotification | VerifyUpload | SyncCalendar | CancelCalendar | Unregistered(name: string)

  datatype Job = Job(
    id: int,
    kind: Kind,
    target: int,
    attempts: nat,
    request: Option<string>,
    lastError: Option<string>,
    failedAt: Option<int>,
    startedAt: Option<int>)
  {
    function WithProcessingStartedAt(at: int): Job {
      this.(startedAt := Some(at))
    }

    function WithoutProcessingStartedAt(): Job {
      this.(startedAt := None)
    }

    function WithNextAttempt(): Job {
      this.(attempts := attempts + 1, startedAt := None)
    }

    function WithError(message: string): Job {
      this.(lastError := Some(if |message| <= MAX_JOB_ERROR_LENGTH then message else message[..MAX_JOB_ERROR_LENGTH]))
    }

    function WithFailedAt(at: int): Job {
      this.(failedAt := Some(at))
    }
  }

  /** Settings whose validators guarantee the constraint (app/core/config.py). */
  datatype RawSettings = RawSettings(maxRetries: nat, visibility: nat, backoffBase: nat, backoffMax: nat)
  type Settings = c: RawSettings | 0 < c.visibility && 0 < c.backoffBase <= c.backoffMax
    witness RawSettings(3, 300, 5, 300)

  /** One list per job type, the shared processing and failed lists, and the delayed sorted set. Lists are
      pushed at index 0 and popped at the end. */
  datatype Store = Store(
    ready: map<Kind, seq<Job>>,
    processing: seq<Job>,
    delayed: map<Job, int>,
    failed: seq<Job>)

  const EMPTY_STORE := Store(map[], [], map[], [])

  function Queue(s: Store, kind: Kind): seq<Job> {
    if kind in s.ready then s.ready[kind] else []
  }

  // ---- commands -----------------------------------------------------------

  /** LPUSH on the queue of the job's own type. */
  function PushReady(s: Store, j: Job): Store {
    s.(ready := s.ready[j.kind := [j] + Queue(s, j.kind)])
  }

  /** BRPOPLPUSH from a non-empty queue to the processing list. */
  function PopReady(s: Store, kind: Kind): Store
    requires Queue(s, kind) != []
  {
    var q := Queue(s, kind);
    s.(ready := s.ready[kind := q[..|q| - 1]], processing := [q[|q| - 1]] + s.processing)
  }

  /** LREM 1: drop the occurrence nearest the head, if any. */
  function Remove(list: seq<Job>, j: Job): (r: seq<Job>)
    ensures forall x | x in r :: x in list
    ensures forall x | x in list && x != j :: x in r
  {
    if list == [] then [] else if list[0] == j then list[1..] else [list[0]] + Remove(list[1..], j)
  }

  function RemoveProcessing(s: Store, j: Job): Store {
    s.(processing := Remove(s.processing, j))
  }

  function PushProcessing(s: Store, j: Job): Store {
    s.(processing := [j] + s.processing)
  }

  function AddDelayed(s: Store, j: Job, at: int): Store {
    s.(delayed := s.delayed[j := at])
  }

  function RemoveDelayed(s: Store, j: Job): Store {
    s.(delayed := s.delayed - {j})
  }

  function PushFailed(s: Store, j: Job): Store {
    s.(failed := [j] + s.failed)
  }

  /** RPOP from a non-empty failed list. */
  function PopFailed(s: Store): Store
    requires s.failed != []
  {
    s.(failed := s.failed[..|s.failed| - 1])
  }

  // ---- decisions ----------------------------------------------------------

  function Doubled(base: nat, times: nat): nat {
    if times == 0 then base else 2 * Doubled(base, times - 1)
  }

  function RetryDelay(c: Settings, attempts: nat): nat {
    if attempts == 0 then c.backoffBase
    else
      var delay := Doubled(c.backoffBase, attempts - 1);
      if delay <= c.backoffMax then delay else c.backoffMax
  }

  /** A job nobody has stamped yet counts as stale. */
  predicate StaleJob(c: Settings, j: Job, now: int) {
    j.startedAt == None || now - j.startedAt.value >= c.visibility
  }

  function RetriedJob(j: Job, error: string): Job {
    j.WithNextAttempt().WithError(error)
  }

  /** Without an error of its own the failure keeps the job's last one. */
  function FailedJob(j: Job, error: Option<string>, now: int): Job {
    var failed := j.WithFailedAt(now);
    if error.Some? then failed.WithError(error.value)
    else if j.lastError.Some? then failed.WithError(j.lastError.value)
    else failed
  }

  /** The members ZRANGEBYSCORE returns: every delayed job that is due, each once, the earliest first. */
  ghost predicate IsDue(s: Store, now: int, due: seq<Job>) {
    && (forall j :: j in due <==> j in s.delayed && 0 <= s.delayed[j] <= now)
    && (forall i, k | 0 <= i < k < |due| :: due[i] != due[k] && s.delayed[due[i]] <= s.delayed[due[k]])
  }

  // ---- counting copies of an id -------------------------------------------

  function Count(list: seq<Job>, id: int): nat {
    if list == [] then 0 else (if list[0].id == id then 1 else 0) + Count(list[1..], id)
  }

  ghost function DelayedCopies(s: Store, id: int): set<Job> {
    set j | j in s.delayed && j.id == id
  }

  /** Copies of `id`, whose job type is `kind`, in the four structures. */
  ghost function Copies(s: Store, kind: Kind, id: int): nat {
    Count(Queue(s, kind), id) + Count(s.processing, id) + |DelayedCopies(s, id)| + Count(s.failed, id)
  }

  lemma {:induction false} CountSplit(a: seq<Job>, b: seq<Job>, id: int)
    ensures Count(a + b, id) == Count(a, id) + Count(b, id)
  {
    if a == [] {
      assert a + b == b;
    } else {
      assert (a + b)[1..] == a[1..] + b;
      CountSplit(a[1..], b, id);
    }
  }

  lemma {:induction false} CountRemove(list: seq<Job>, j: Job, id: int)
    ensures Count(list, id) == Count(Remove(list, j), id) + (if j in list && j.id == id then 1 else 0)
  {
    if list != [] && list[0] != j {
      CountRemove(list[1..], j, id);
      assert ([list[0]] + Remove(list[1..], j))[1..] == Remove(list[1..], j);
    }
  }

  lemma CountPush(list: seq<Job>, j: Job, id: int)
    ensures Count([j] + list, id) == Count(list, id) + (if j.id == id then 1 else 0)
  {
    assert ([j] + list)[1..] == list;
  }

  lemma CountPop(list: seq<Job>, id: int)
    requires list != []
    ensures Count(list, id) == Count(list[..|list| - 1], id) + (if list[|list| - 1].id == id then 1 else 0)
  {
    var last := [list[|list| - 1]];
    assert list == list[..|list| - 1] + last;
    CountSplit(list[..|list| - 1], last, id);
    CountPush([], list[|list| - 1], id);
    assert last == last + [];
  }

  lemma {:induction false} CountZero(list: seq<Job>, id: int)
    ensures Count(list, id) == 0 <==> forall j | j in list :: j.id != id
  {
    if list != [] {
      CountZero(list[1..], id);
      assert forall j :: j in list <==> j == list[0] || j in list[1..];
    }
  }

  lemma DelayedAdd(s: Store, j: Job, at: int, id: int)
    ensures |DelayedCopies(AddDelayed(s, j, at), id)| == |DelayedCopies(s, id)| + (if j.id == id && j !in s.delayed then 1 else 0)
  {
    SplitCount(DelayedCopies(s, id), {}, if j.id == id && j !in s.delayed then {j} else {}, DelayedCopies(AddDelayed(s, j, at), id));
  }

  lemma DelayedRemove(s: Store, j: Job, id: int)
    ensures |DelayedCopies(RemoveDelayed(s, j), id)| + (if j.id == id && j in s.delayed then 1 else 0) == |DelayedCopies(s, id)|
  {
    SplitCount(DelayedCopies(s, id), if j.id == id && j in s.delayed then {j} else {}, {}, DelayedCopies(RemoveDelayed(s, j), id));
  }

  // ---- how one command changes the number of copies -----------------------

  function One(j: Job, id: int): nat {
    if j.id == id then 1 else 0
  }

  lemma PushReadyCount(s: Store, j: Job, kind: Kind, id: int)
    requires j.id == id ==> j.kind == kind
    ensures Copies(PushReady(s, j), kind, id) == Copies(s, kind, id) + One(j, id)
  {
    CountPush(Queue(s, j.kind), j, id);
    assert DelayedCopies(PushReady(s, j), id) == DelayedCopies(s, id);
  }

  lemma PopReadyCount(s: Store, from: Kind, kind: Kind, id: int)
    requires Queue(s, from) != [] && (Queue(s, from)[|Queue(s, from)| - 1].id == id ==> from == kind)
    ensures Copies(PopReady(s, from), kind, id) == Copies(s, kind, id)
  {
    var q := Queue(s, from);
    CountPop(q, id);
    CountPush(s.processing, q[|q| - 1], id);
    assert DelayedCopies(PopReady(s, from), id) == DelayedCopies(s, id);
  }

  lemma RemoveProcessingCount(s: Store, j: Job, kind: Kind, id: int)
    ensures Copies(RemoveProcessing(s, j), kind, id) + (if j in s.processing then One(j, id) else 0) == Copies(s, kind, id)
  {
    CountRemove(s.processing, j, id);
    assert DelayedCopies(RemoveProcessing(s, j), id) == DelayedCopies(s, id);
  }

  lemma PushProcessingCount(s: Store, j: Job, kind: Kind, id: int)
    ensures Copies(PushProcessing(s, j), kind, id) == Copies(s, kind, id) + One(j, id)
  {
    CountPush(s.processing, j, id);
    assert DelayedCopies(PushProcessing(s, j), id) == DelayedCopies(s, id);
  }

  lemma AddDelayedCount(s: Store, j: Job, at: int, kind: Kind, id: int)
    ensures Copies(AddDelayed(s, j, at), kind, id) == Copies(s, kind, id) + (if j in s.delayed then 0 else One(j, id))
  {
    DelayedAdd(s, j, at, id);
  }

  lemma RemoveDelayedCount(s: Store, j: Job, kind: Kind, id: int)
    ensures Copies(RemoveDelayed(s, j), kind, id) + (if j in s.delayed then One(j, id) else 0) == Copies(s, kind, id)
  {
    DelayedRemove(s, j, id);
  }

  lemma PushFailedCount(s: Store, j: Job, kind: Kind, id: int)
    ensures Copies(PushFailed(s, j), kind, id) == Copies(s, kind, id) + One(j, id)
  {
    CountPush(s.failed, j, id);
    assert DelayedCopies(PushFailed(s, j), id) == DelayedCopies(s, id);
  }

  lemma PopFailedCount(s: Store, kind: Kind, id: int)
    requires s.failed != []
    ensures Copies(PopFailed(s), kind, id) + One(s.failed[|s.failed| - 1], id) == Copies(s, kind, id)
  {
    CountPop(s.failed, id);
    assert DelayedCopies(PopFailed(s), id) == DelayedCopies(s, id);
  }

  // ---- the retry delay ----------------------------------------------------

  lemma {:induction false} DoubledGrows(base: nat, a: nat, b: nat)
    requires a <= b
    ensures base <= Doubled(base, a) <= Doubled(base, b)
    decreases b
  {
    if b > 0 {
      DoubledGrows(base, if a < b then a else a - 1, b - 1);
    }
  }

  /** Delays never shrink from one attempt to the next, start at the base and stop at the cap. */
  lemma RetryDelayGrows(c: Settings, a: nat, b: nat)
    requires a <= b
    ensures c.backoffBase <= RetryDelay(c, a) <= RetryDelay(c, b) <= c.backoffMax
  {
    if a > 0 {
      DoubledGrows(c.backoffBase, a - 1, b - 1);
    } else if b > 0 {
      DoubledGrows(c.backoffBase, 0, b - 1);
    }
  }

  /** The first retry waits for the base; from then on every delay is twice the one before, up to the cap. */
  lemma RetryDelayDoubles(c: Settings, n: nat)
    requires n >= 1
    ensures RetryDelay(c, 0) == RetryDelay(c, 1) == c.backoffBase
    ensures RetryDelay(c, n + 1) == if 2 * RetryDelay(c, n) <= c.backoffMax then 2 * RetryDelay(c, n) else c.backoffMax
  {
    DoubledGrows(c.backoffBase, n - 1, n);
  }
}
