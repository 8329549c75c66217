/** Booking, payment and hold transactions as interleaved lock / read / write /
    commit steps over the committed database. A step is one statement or one
    commit; any number of transactions interleave in any order. */
module Bookings {
  import opened Domain

  /** Service durations are at least one minute (app/schemas/service.py). */
  type Minutes = m: int | m >= 1 witness 1

  datatype PaymentStatus = Pending | Succeeded | Failed | Refunded

  datatype AuditAction = BookingCreated | OverrideCreated | BookingConfirmed | HoldExpired | BookingCancelled | PaymentRefunded
  datatype AuditEntry = AuditEntry(action: AuditAction, booking: int)

  /** Committed rows. Payments are keyed by booking (unique constraint); `confirmations`
      holds one element per confirmation batch written to the outbox. */
  datatype Db = Db(
    bookings: map<int, Booking>,
    payments: map<int, PaymentStatus>,
    calendarEvents: multiset<int>,
    confirmations: multiset<int>,
    audit: multiset<AuditEntry>)

  datatype Member = Member(tenant: int, business: int)

  datatype Service = Service(of: Member, duration: Minutes, deposit: bool)

  /** Reference tables: the tenant of each business, and the tenant and business of customers, services and staff. */
  datatype Tables = Tables(
    businesses: map<int, int>, customers: map<int, Member>, services: map<int, Service>, staff: map<int, Member>)

  /** A booking, or a payment hold; `duration` and `depositRequired` are the service row's, `override` is the reason
      an administrator gives for booking on a customer's behalf. */
  datatype Request = Request(
    tenant: int, business: int, customer: int, service: int, staff: Option<int>, startsAt: int,
    duration: Minutes, depositRequired: bool, hold: bool, override: Option<string>)

  datatype Op = Confirm | Expire | Cancel(andThen: Option<Request>)

  datatype Outcome = Ok | NotFoundError | BadRequestError | ConflictError | IntegrityError | Aborted

  /** Where a transaction stands; what it has read so far is in its arguments. */
  datatype Txn =
    | Done(outcome: Outcome)
    | Checking(req: Request)
    | Checked(req: Request)
    | Flushed(req: Request, id: int)
    | Waiting(op: Op, id: int, business: int, tenant: int)
    | Locked(op: Op, id: int, seen: Booking)
    | PaymentRead(op: Op, id: int, seen: Booking, pay: Option<PaymentStatus>)
    | Refunding(id: int)

  datatype State = State(db: Db, txns: map<int, Txn>, nextId: int)

  datatype Call =
    | Create(req: Request)
    | Lock(op: Op, id: int, business: int, tenant: int)
    | Reschedule(id: int, business: int, tenant: int, newStart: int)
    | Refund(id: int, business: int, tenant: int)

  datatype Action = Begin(call: Call) | Advance | Abort

  // ---- admission ----------------------------------------------------------

  function Row(req: Request): Booking {
    Booking(req.tenant, req.business, req.customer, req.service, req.staff, req.startsAt, req.startsAt + req.duration,
            if req.hold then PendingPayment else Confirmed)
  }

  /** An administrator's booking needs a reason. */
  predicate BlankOverride(req: Request) {
    !req.hold && req.override.Some? && !HasText(req.override.value)
  }

  /** The business is the tenant's, and customer and service are the business's. */
  predicate PartiesResolve(tables: Tables, req: Request) {
    && req.business in tables.businesses && tables.businesses[req.business] == req.tenant
    && req.customer in tables.customers && tables.customers[req.customer] == Member(req.tenant, req.business)
    && req.service in tables.services
    && tables.services[req.service] == Service(Member(req.tenant, req.business), req.duration, req.depositRequired)
  }

  predicate StaffResolves(tables: Tables, req: Request) {
    req.staff.Some? ==> req.staff.value in tables.staff && tables.staff[req.staff.value] == Member(req.tenant, req.business)
  }

  predicate Resolves(tables: Tables, req: Request) {
    PartiesResolve(tables, req) && StaffResolves(tables, req)
  }

  /** Everything `create_booking` or `create_pending_payment_hold` demands before looking for conflicts. */
  predicate Admissible(tables: Tables, req: Request) {
    !BlankOverride(req) && Resolves(tables, req) && (req.hold ==> req.depositRequired)
  }

  /** The request that repeats booking `b` at another time, with the service as it is now. */
  function Again(tables: Tables, b: Booking, newStart: int): Request {
    var svc := if b.service in tables.services then tables.services[b.service] else Service(Member(b.tenant, b.business), 1, false);
    Request(b.tenant, b.business, b.customer, b.service, b.staff, newStart, svc.duration, svc.deposit, false, None)
  }

  /** `_check_double_booking`: some active booking of the same staff and business overlaps. */
  predicate FoundByCheck(db: Db, req: Request) {
    req.staff.Some? && exists id | id in db.bookings ::
      var b := db.bookings[id];
      b.staff == req.staff && b.business == req.business && Active(b) && Overlaps(b, req.startsAt, req.startsAt + req.duration)
  }

  /** The two rows together would violate `no_overlapping_staff_bookings`. */
  predicate Excluded(a: Booking, b: Booking) {
    a.staff.Some? && a.staff == b.staff && Active(a) && Active(b) && Overlaps(a, b.startsAt, b.endsAt)
  }

  predicate Violates(db: Db, row: Booking) {
    exists id | id in db.bookings :: Excluded(db.bookings[id], row)
  }

  /** An uncommitted conflicting insert makes this insert wait for that transaction. */
  predicate MustWait(s: State, t: int, row: Booking) {
    exists u | u in s.txns && u != t && s.txns[u].Flushed? :: Excluded(Row(s.txns[u].req), row)
  }

  // ---- committed effects --------------------------------------------------

  function Insert(db: Db, id: int, req: Request): Db {
    var action := if !req.hold && req.override.Some? then OverrideCreated else BookingCreated;
    var db' := db.(bookings := db.bookings[id := Row(req)], audit := db.audit + multiset{AuditEntry(action, id)});
    if req.hold then db'.(payments := db.payments[id := Pending])
    else db'.(calendarEvents := db.calendarEvents + multiset{id}, confirmations := db.confirmations + multiset{id})
  }

  function SetStatus(db: Db, id: int, seen: Booking, status: BookingStatus): Db {
    db.(bookings := db.bookings[id := seen.(status := status)])
  }

  function ConfirmPayment(db: Db, id: int, seen: Booking): Db {
    SetStatus(db, id, seen, Confirmed).(
      payments := db.payments[id := Succeeded],
      calendarEvents := db.calendarEvents + multiset{id},
      confirmations := db.confirmations + multiset{id},
      audit := db.audit + multiset{AuditEntry(BookingConfirmed, id)})
  }

  /** Cancelling also fails a payment that was read as pending. */
  function Release(db: Db, id: int, seen: Booking, pay: Option<PaymentStatus>, action: AuditAction): Db {
    SetStatus(db, id, seen, Cancelled).(
      payments := if pay == Some(Pending) then db.payments[id := Failed] else db.payments,
      audit := db.audit + multiset{AuditEntry(action, id)})
  }

  function RecordRefund(db: Db, id: int): Db {
    db.(payments := db.payments[id := Refunded], audit := db.audit + multiset{AuditEntry(PaymentRefunded, id)})
  }

  function Lookup(payments: map<int, PaymentStatus>, id: int): Option<PaymentStatus> {
    if id in payments then Some(payments[id]) else None
  }

  // ---- steps --------------------------------------------------------------

  predicate HoldsLock(txn: Txn) {
    txn.Locked? || txn.PaymentRead?
  }

  predicate LockedByOther(s: State, t: int, id: int) {
    exists u | u in s.txns && u != t && HoldsLock(s.txns[u]) :: s.txns[u].id == id
  }

  predicate InBusiness(db: Db, id: int, business: int, tenant: int) {
    id in db.bookings && db.bookings[id].tenant == tenant && db.bookings[id].business == business
  }

  /** The decision under the row lock: the new database and what the transaction does next. */
  function Decide(db: Db, op: Op, id: int, seen: Booking, pay: Option<PaymentStatus>): (Db, Txn) {
    match op
    case Confirm =>
      if seen.status == Confirmed then (db, Done(if pay == Some(Succeeded) then Ok else ConflictError))
      else if seen.status != PendingPayment then (db, Done(ConflictError))
      else if pay == None then (db, Done(NotFoundError))
      else if pay != Some(Pending) then (db, Done(ConflictError))
      else (ConfirmPayment(db, id, seen), Done(Ok))
    case Expire =>
      if seen.status != PendingPayment then (db, Done(ConflictError))
      else (Release(db, id, seen, pay, HoldExpired), Done(Ok))
    case Cancel(andThen) =>
      if seen.status == Cancelled then (db, Done(ConflictError))
      else (Release(db, id, seen, pay, BookingCancelled), if andThen.Some? then Checking(andThen.value) else Done(Ok))
  }

  function AdvanceTxn(tables: Tables, s: State, t: int): State
    requires t in s.txns
  {
    match s.txns[t]
    case Done(_) => s
    case Checking(req) =>
      var next :=
        if BlankOverride(req) then Done(BadRequestError)
        else if !PartiesResolve(tables, req) then Done(NotFoundError)
        else if req.hold && !req.depositRequired then Done(BadRequestError)
        else if !StaffResolves(tables, req) then Done(NotFoundError)
        else if FoundByCheck(s.db, req) then Done(ConflictError)
        else Checked(req);
      s.(txns := s.txns[t := next])
    case Checked(req) =>
      if MustWait(s, t, Row(req)) then s
      else if Violates(s.db, Row(req)) then
        // the hold catches the constraint at its flush; create_booking flushes outside its try block
        s.(txns := s.txns[t := Done(if req.hold then ConflictError else IntegrityError)])
      else s.(txns := s.txns[t := Flushed(req, s.nextId)], nextId := s.nextId + 1)
    case Flushed(req, id) =>
      s.(db := Insert(s.db, id, req), txns := s.txns[t := Done(Ok)])
    case Waiting(op, id, business, tenant) =>
      if LockedByOther(s, t, id) then s
      else if !InBusiness(s.db, id, business, tenant) then s.(txns := s.txns[t := Done(NotFoundError)])
      else s.(txns := s.txns[t := Locked(op, id, s.db.bookings[id])])
    case Locked(op, id, seen) =>
      s.(txns := s.txns[t := PaymentRead(op, id, seen, Lookup(s.db.payments, id))])
    case PaymentRead(op, id, seen, pay) =>
      var (db', next) := Decide(s.db, op, id, seen, pay);
      s.(db := db', txns := s.txns[t := next])
    case Refunding(id) =>
      s.(db := RecordRefund(s.db, id), txns := s.txns[t := Done(Ok)])
  }

  /** The first, unlocked, statement of a call. */
  function Start(tables: Tables, s: State, call: Call): Txn {
    match call
    case Create(req) => Checking(req)
    case Lock(op, id, business, tenant) =>
      Waiting(if op.Cancel? then Cancel(None) else op, id, business, tenant)
    case Reschedule(id, business, tenant, newStart) =>
      if !InBusiness(s.db, id, business, tenant) then Done(NotFoundError)
      else
        var b := s.db.bookings[id];
        if b.status != Confirmed then Done(ConflictError)
        else Waiting(Cancel(Some(Again(tables, b, newStart))), id, business, tenant)
    case Refund(id, business, tenant) =>
      if !InBusiness(s.db, id, business, tenant) || id !in s.db.payments then Done(NotFoundError)
      else if s.db.payments[id] != Succeeded then Done(ConflictError)
      else Refunding(id)
  }

  function Step(tables: Tables, s: State, t: int, a: Action): State {
    match a
    case Begin(call) =>
      if t in s.txns && !s.txns[t].Done? then s else s.(txns := s.txns[t := Start(tables, s, call)])
    case Advance => if t in s.txns then AdvanceTxn(tables, s, t) else s
    case Abort => if t in s.txns then s.(txns := s.txns[t := Done(Aborted)]) else s
  }

  datatype Event = Event(txn: int, action: Action)

  function Run(tables: Tables, s: State, trace: seq<Event>): State {
    if trace == [] then s
    else
      var n := |trace| - 1;
      Step(tables, Run(tables, s, trace[..n]), trace[n].txn, trace[n].action)
  }

  const EMPTY := State(Db(map[], map[], multiset{}, multiset{}, multiset{}), map[], 0)

  // ---- the invariant ------------------------------------------------------

  /** Rows written through the service respect the reference tables and are non-empty intervals. */
  predicate RowOk(tables: Tables, b: Booking) {
    && b.startsAt < b.endsAt
    && b.business in tables.businesses && tables.businesses[b.business] == b.tenant
    && b.customer in tables.customers && tables.customers[b.customer] == Member(b.tenant, b.business)
    && b.service in tables.services && tables.services[b.service].of == Member(b.tenant, b.business)
    && (b.staff.Some? ==> b.staff.value in tables.staff && tables.staff[b.staff.value] == Member(b.tenant, b.business))
  }

  /** Booking, payment, calendar event and confirmation batch of one id agree. */
  predicate Lockstep(db: Db, id: int) {
    var pay := Lookup(db.payments, id);
    if id !in db.bookings then
      pay == None && db.calendarEvents[id] == 0 && db.confirmations[id] == 0 && AuditEntry(HoldExpired, id) !in db.audit
    else
      var status := db.bookings[id].status;
      && (status == PendingPayment <==> pay == Some(Pending))
      && (pay == Some(Failed) ==> status == Cancelled)
      && (pay == Some(Succeeded) || pay == Some(Refunded) ==> status == Confirmed || status == Cancelled)
      && (AuditEntry(HoldExpired, id) in db.audit ==> pay == Some(Failed))
      && db.calendarEvents[id] == (if pay == Some(Pending) || pay == Some(Failed) then 0 else 1)
      && db.confirmations[id] == db.calendarEvents[id]
  }

  ghost predicate DbOk(tables: Tables, db: Db) {
    && (forall id :: Lockstep(db, id))
    && (forall id | id in db.bookings :: RowOk(tables, db.bookings[id]))
  }

  /** No staff member is booked twice at once. */
  predicate NoOverlap(db: Db) {
    forall i, j | i in db.bookings && j in db.bookings && i != j :: !Excluded(db.bookings[i], db.bookings[j])
  }

  /** What a transaction knows is still true of the committed database. */
  predicate TxnOk(tables: Tables, s: State, txn: Txn) {
    match txn
    case Done(_) => true
    case Checking(req) => true
    case Checked(req) => Resolves(tables, req)
    case Flushed(req, id) =>
      Resolves(tables, req) && id < s.nextId && id !in s.db.bookings && !Violates(s.db, Row(req))
    case Waiting(op, id, _, _) =>
      op.Cancel? && op.andThen.Some? ==> id in s.db.bookings && s.db.bookings[id].status != PendingPayment
    case Locked(op, id, seen) =>
      && id in s.db.bookings && s.db.bookings[id] == seen
      && (op.Cancel? && op.andThen.Some? ==> seen.status != PendingPayment)
    case PaymentRead(op, id, seen, pay) =>
      && id in s.db.bookings && s.db.bookings[id] == seen
      && (pay == Lookup(s.db.payments, id) || (pay == Some(Succeeded) && Lookup(s.db.payments, id) == Some(Refunded)))
      && (op.Cancel? && op.andThen.Some? ==> seen.status != PendingPayment)
    case Refunding(id) =>
      Lookup(s.db.payments, id) == Some(Succeeded) || Lookup(s.db.payments, id) == Some(Refunded)
  }

  /** Row locks are exclusive, and uncommitted inserts have distinct ids and exclude one another. */
  predicate Compatible(a: Txn, b: Txn) {
    && (HoldsLock(a) && HoldsLock(b) ==> a.id != b.id)
    && (a.Flushed? && b.Flushed? ==> a.id != b.id && !Excluded(Row(a.req), Row(b.req)))
  }

  ghost predicate Inv(tables: Tables, s: State) {
    && DbOk(tables, s.db)
    && NoOverlap(s.db)
    && (forall id | id in s.db.bookings :: id < s.nextId)
    && (forall t | t in s.txns :: TxnOk(tables, s, s.txns[t]))
    && (forall t, u | t in s.txns && u in s.txns && t != u :: Compatible(s.txns[t], s.txns[u]))
  }
}
