/** Any number of worker and operator processes over one Redis, interleaved at the granularity of single Redis
    commands and single handler calls. Processes do not crash. */
module Workers {
  import opened Domain
  import opened JobQueue
  import opened Outbox

  /** Where a process stands between two commands, and what it has in local variables. */
  datatype Proc =
    | Idle
    | Popped(raw: Job)
    | Stamping(job: Job)
    | Running(job: Job)
    | Acking(job: Job)
    | Failing(job: Job, error: string)
    | Retrying(job: Job, at: int)
    | Burying(job: Job)
    | Promoting(todo: seq<Job>, count: nat, limit: Option<nat>)
    | Promoted(job: Job, todo: seq<Job>, count: nat, limit: Option<nat>)
    | Reclaiming(todo: seq<Job>, at: int)
    | Reclaimed(job: Job, todo: seq<Job>, at: int)
    | Requeuing(count: nat, limit: Option<nat>)
    | Requeued(job: Job, count: nat, limit: Option<nat>)

  /** A job that has left one structure and not yet entered the next. */
  function Held(p: Proc): Option<Job> {
    if p.Stamping? || p.Retrying? || p.Burying? || p.Promoted? || p.Reclaimed? || p.Requeued? then Some(p.job) else None
  }

  /** `enqueued` and `acked` record history: the type of every id ever enqueued, and the ids ever acknowledged. */
  datatype State = State(store: Store, world: World, procs: map<int, Proc>, enqueued: map<int, Kind>, acked: set<int>)

  const EMPTY := State(EMPTY_STORE, EMPTY_WORLD, map[], map[], {})

  datatype Task = Poll(kind: Kind) | Promote(due: seq<Job>, limit: Option<nat>) | Reclaim | RequeueFailed(limit: Option<nat>)

  datatype Action =
    | Enqueue(id: int, kind: Kind, target: int, request: Option<string>)
    | AddNotification(row: int, now: int)
    | AddEvent(row: int, booking: int, sameTenant: bool, now: int)
    | Begin(proc: int, task: Task, now: int)
    | Next(proc: int, now: int, response: Response)

  predicate Reached(count: nat, limit: Option<nat>) {
    limit.Some? && count >= limit.value
  }

  /** The first command of a task. */
  function Start(s: Store, task: Task, now: int): (Store, Proc) {
    match task
    case Poll(kind) =>
      var q := Queue(s, kind);
      if q == [] then (s, Idle) else (PopReady(s, kind), Popped(q[|q| - 1]))
    case Promote(due, limit) => (s, Promoting(due, 0, limit))
    case Reclaim => (s, Reclaiming(s.processing, now))
    case RequeueFailed(limit) => (s, Requeuing(0, limit))
  }

  /** The decision of `process_next_job` after a handler threw. */
  predicate WillRetry(c: Settings, j: Job) {
    !j.kind.Unregistered? && j.attempts < c.maxRetries
  }

  /** The next command of a process, other than a handler call. */
  function Continue(c: Settings, s: Store, p: Proc, now: int): (Store, Proc) {
    match p
    case Idle => (s, Idle)
    case Popped(raw) =>
      var j := raw.WithProcessingStartedAt(now);
      if j == raw then (s, Running(j)) else (RemoveProcessing(s, raw), Stamping(j))
    case Stamping(j) => (PushProcessing(s, j), Running(j))
    case Running(j) => (s, p)
    case Acking(j) => (RemoveProcessing(s, j), Idle)
    case Failing(j, error) =>
      (RemoveProcessing(s, j),
       if WillRetry(c, j) then Retrying(RetriedJob(j, error), now + RetryDelay(c, j.attempts + 1))
       else Burying(FailedJob(j, Some(error), now)))
    case Retrying(j, at) => (AddDelayed(s, j, at), Idle)
    case Burying(j) => (PushFailed(s, j), Idle)
    case Promoting(todo, count, limit) =>
      if todo == [] || Reached(count, limit) then (s, Idle)
      else if todo[0] in s.delayed then (RemoveDelayed(s, todo[0]), Promoted(todo[0], todo[1..], count, limit))
      else (s, Promoting(todo[1..], count, limit))
    case Promoted(j, todo, count, limit) => (PushReady(s, j), Promoting(todo, count + 1, limit))
    case Reclaiming(todo, at) =>
      if todo == [] then (s, Idle)
      else if StaleJob(c, todo[0], at) && todo[0] in s.processing then
        (RemoveProcessing(s, todo[0]), Reclaimed(todo[0].WithoutProcessingStartedAt(), todo[1..], at))
      else (s, Reclaiming(todo[1..], at))
    case Reclaimed(j, todo, at) => (PushReady(s, j), Reclaiming(todo, at))
    case Requeuing(count, limit) =>
      if s.failed == [] || Reached(count, limit) then (s, Idle)
      else (PopFailed(s), Requeued(s.failed[|s.failed| - 1], count, limit))
    case Requeued(j, count, limit) => (PushReady(s, j), Requeuing(count + 1, limit))
  }

  function NewJob(id: int, kind: Kind, target: int, request: Option<string>): Job {
    Job(id, kind, target, 0, request, None, None, None)
  }

  function NewNotification(now: int): Notification {
    Notification(ToSend, 0, now, None)
  }

  function NewEvent(booking: int, sameTenant: bool, now: int): CalendarEvent {
    CalendarEvent(booking, sameTenant, ToSync, 0, 0, None, now, None)
  }

  function ProcOf(s: State, p: int): Proc {
    if p in s.procs then s.procs[p] else Idle
  }

  /** Ids are fresh (uuid7, primary keys); the events table has a unique constraint on the booking. The worker
      polls registered types only. */
  ghost predicate Enabled(s: State, a: Action) {
    match a
    case Enqueue(id, _, _, _) => id !in s.enqueued
    case AddNotification(n, _) => n !in s.world.notifications
    case AddEvent(e, booking, _, _) =>
      e !in s.world.events && forall f | f in s.world.events :: s.world.events[f].booking != booking
    case Begin(p, task, now) =>
      && ProcOf(s, p).Idle?
      && (task.Poll? ==> !task.kind.Unregistered?)
      && (task.Promote? ==> IsDue(s.store, now, task.due))
    case Next(p, _, _) => p in s.procs
  }

  ghost function Step(c: Settings, s: State, a: Action): State {
    if !Enabled(s, a) then s
    else match a
      case Enqueue(id, kind, target, request) =>
        s.(store := PushReady(s.store, NewJob(id, kind, target, request)), enqueued := s.enqueued[id := kind])
      case AddNotification(n, now) =>
        s.(world := s.world.(notifications := s.world.notifications[n := NewNotification(now)]))
      case AddEvent(e, booking, sameTenant, now) =>
        s.(world := s.world.(events := s.world.events[e := NewEvent(booking, sameTenant, now)]))
      case Begin(p, task, now) =>
        var (store, proc) := Start(s.store, task, now);
        s.(store := store, procs := s.procs[p := proc])
      case Next(p, now, response) =>
        if s.procs[p].Running? then
          var j := s.procs[p].job;
          var (world, result) := Handle(c, s.world, j, response);
          s.(world := world, procs := s.procs[p := if result.Returned? then Acking(j) else Failing(j, result.error)])
        else
          var (store, proc) := Continue(c, s.store, s.procs[p], now);
          s.(store := store, procs := s.procs[p := proc],
             acked := if s.procs[p].Acking? then s.acked + {s.procs[p].job.id} else s.acked)
  }

  ghost function Run(c: Settings, s: State, trace: seq<Action>): State {
    if trace == [] then s else Step(c, Run(c, s, trace[..|trace| - 1]), trace[|trace| - 1])
  }

  // ---- where copies of a job are ------------------------------------------

  /** The part of a job that stamps, errors and failure times leave alone. */
  datatype Key = Key(id: int, kind: Kind, target: int, attempts: nat)

  function KeyOf(j: Job): Key {
    Key(j.id, j.kind, j.target, j.attempts)
  }

  predicate AllIn(list: seq<Job>, f: Key -> bool) {
    forall j | j in list :: f(KeyOf(j))
  }

  /** `f` holds of every job in Redis. */
  ghost predicate AllStored(s: Store, f: Key -> bool) {
    && (forall kind | kind in s.ready :: AllIn(s.ready[kind], f))
    && AllIn(s.processing, f) && AllIn(s.failed, f)
    && (forall j | j in s.delayed :: f(KeyOf(j)))
  }

  /** `f` holds of every job in a process's variables, and `thrown` of a job whose handler has just thrown. */
  predicate AllLocal(p: Proc, f: Key -> bool, thrown: Key -> bool) {
    && (p.Popped? ==> f(KeyOf(p.raw)))
    && (Held(p).Some? ==> f(KeyOf(Held(p).value)))
    && (p.Running? || p.Acking? ==> f(KeyOf(p.job)))
    && (p.Failing? ==> f(KeyOf(p.job)) && thrown(KeyOf(p.job)))
    && (p.Promoting? || p.Promoted? || p.Reclaiming? || p.Reclaimed? ==> AllIn(p.todo, f))
  }

  ghost predicate AllCopies(s: State, f: Key -> bool, thrown: Key -> bool) {
    AllStored(s.store, f) && forall p | p in s.procs :: AllLocal(s.procs[p], f, thrown)
  }

  /** Some copy of `id` is in Redis. */
  ghost predicate Stored(s: Store, id: int) {
    || (exists kind, j :: kind in s.ready && j in s.ready[kind] && j.id == id)
    || (exists j :: j in s.processing && j.id == id)
    || (exists j :: j in s.failed && j.id == id)
    || (exists j :: j in s.delayed && j.id == id)
  }

  predicate Holds(p: Proc, id: int) {
    Held(p).Some? && Held(p).value.id == id
  }

  ghost predicate Accounted(s: State, id: int) {
    id in s.acked || Stored(s.store, id) || exists p :: p in s.procs && Holds(s.procs[p], id)
  }

  /** Every queue holds jobs of its own type only. */
  ghost predicate Routed(s: Store) {
    forall kind | kind in s.ready :: forall j | j in s.ready[kind] :: j.kind == kind
  }
}
