/** What each booking call promises, stated without the functions that compute it. The interleaved machine keeps
    these promises for a call that runs undisturbed, and keeps the decisive ones for calls that overlap. */
module BookingEffects {
  import opened Domain
  import opened Bookings
  import opened BookingLaws

  // ---- what changes -------------------------------------------------------

  /** A hold that its row lock would still find pending. */
  predicate IsHold(db: Db, id: int) {
    id in db.bookings && db.bookings[id].status == PendingPayment
  }

  /** A booking confirmed by a payment that succeeded. */
  predicate IsPaid(db: Db, id: int) {
    id in db.bookings && db.bookings[id].status == Confirmed && Lookup(db.payments, id) == Some(Succeeded)
  }

  /** Booking and payment of `id` are the same in both databases. */
  predicate SameBooking(db: Db, db': Db, id: int) {
    && (id in db.bookings <==> id in db'.bookings)
    && (id in db.bookings ==> db.bookings[id] == db'.bookings[id])
    && Lookup(db.payments, id) == Lookup(db'.payments, id)
  }

  predicate SameOutbox(db: Db, db': Db, id: int) {
    db'.calendarEvents[id] == db.calendarEvents[id] && db'.confirmations[id] == db.confirmations[id]
  }

  /** One calendar event and one confirmation batch were written for `id`. */
  predicate AnnouncedOnce(db: Db, db': Db, id: int) {
    db'.calendarEvents[id] == db.calendarEvents[id] + 1 && db'.confirmations[id] == db.confirmations[id] + 1
  }

  /** The booking is there as before, but for its status. */
  predicate Became(db: Db, db': Db, id: int, status: BookingStatus) {
    id in db.bookings && id in db'.bookings && db'.bookings[id] == db.bookings[id].(status := status)
  }

  /** Nothing that belongs to a booking outside `ids` has changed. */
  ghost predicate OnlyTouches(db: Db, db': Db, ids: set<int>) {
    forall i | i !in ids :: SameBooking(db, db', i) && SameOutbox(db, db', i)
  }

  /** The change concerns `id` alone, and is recorded by one audit entry. */
  ghost predicate Recorded(db: Db, db': Db, id: int, action: AuditAction) {
    OnlyTouches(db, db', {id}) && db'.audit == db.audit + multiset{AuditEntry(action, id)}
  }

  // ---- what is free -------------------------------------------------------

  /** The staff member has a booking or a hold of this business at minute `m`. */
  ghost predicate Busy(db: Db, staff: Option<int>, business: int, m: int) {
    staff.Some? && exists id :: id in db.bookings && var b := db.bookings[id];
      b.staff == staff && b.business == business && b.status != Cancelled && IsOn(b, m)
  }

  ghost predicate Taken(db: Db, staff: Option<int>, business: int, from: int, to: int) {
    exists m :: from <= m < to && Busy(db, staff, business, m)
  }

  /** `_check_double_booking` finds a conflict exactly when the staff member is busy at some minute asked for; bookings
      that merely touch do not conflict. */
  lemma CheckFindsBusyMinute(tables: Tables, db: Db, req: Request)
    requires DbOk(tables, db)
    ensures FoundByCheck(db, req) <==> Taken(db, req.staff, req.business, req.startsAt, req.startsAt + req.duration)
  {
    var from, to := req.startsAt, req.startsAt + req.duration;
    if FoundByCheck(db, req) {
      var id :| id in db.bookings && db.bookings[id].staff == req.staff && db.bookings[id].business == req.business
        && Active(db.bookings[id]) && Overlaps(db.bookings[id], from, to);
      assert RowOk(tables, db.bookings[id]);
      OverlapsIffSharedMinute(db.bookings[id], from, to);
      var m :| from <= m < to && IsOn(db.bookings[id], m);
      assert Busy(db, req.staff, req.business, m);
    }
    if Taken(db, req.staff, req.business, from, to) {
      var m :| from <= m < to && Busy(db, req.staff, req.business, m);
      var id :| id in db.bookings && db.bookings[id].staff == req.staff && db.bookings[id].business == req.business
        && db.bookings[id].status != Cancelled && IsOn(db.bookings[id], m);
      assert Overlaps(db.bookings[id], from, to);
    }
  }

  // ---- the promises -------------------------------------------------------

  /** A new row as requested; a hold with a pending payment and no announcement, a booking the other way round. */
  ghost predicate Stored(db: Db, db': Db, id: int, req: Request) {
    && id !in db.bookings && id in db'.bookings
    && Recorded(db, db', id, if !req.hold && req.override.Some? then OverrideCreated else BookingCreated)
    && var b := db'.bookings[id];
      && b.tenant == req.tenant && b.business == req.business && b.customer == req.customer && b.service == req.service
      && b.staff == req.staff && b.startsAt == req.startsAt && b.endsAt == req.startsAt + req.duration
      && if req.hold then b.status == PendingPayment && Lookup(db'.payments, id) == Some(Pending) && SameOutbox(db, db', id)
         else b.status == Confirmed && Lookup(db'.payments, id) == Lookup(db.payments, id) && AnnouncedOnce(db, db', id)
  }

  ghost predicate CreateSpec(tables: Tables, db: Db, req: Request, db': Db, r: Outcome, id: int) {
    var taken := Taken(db, req.staff, req.business, req.startsAt, req.startsAt + req.duration);
    && (r == Ok <==> Admissible(tables, req) && !taken)
    && (r == ConflictError <==> Admissible(tables, req) && taken)
    && (r == BadRequestError <==>
        || (!req.hold && req.override.Some? && forall c | c in req.override.value :: c in WHITESPACE)
        || (PartiesResolve(tables, req) && req.hold && !req.depositRequired))
    && r in {Ok, NotFoundError, BadRequestError, ConflictError}
    && if r == Ok then Stored(db, db', id, req) else db' == db
  }

  ghost predicate ConfirmSpec(db: Db, id: int, business: int, tenant: int, db': Db, r: Outcome) {
    if !InBusiness(db, id, business, tenant) then r == NotFoundError && db' == db
    else if !IsHold(db, id) then r == (if IsPaid(db, id) then Ok else ConflictError) && db' == db
    else
      && r == Ok && Recorded(db, db', id, BookingConfirmed)
      && Became(db, db', id, Confirmed) && Lookup(db'.payments, id) == Some(Succeeded) && AnnouncedOnce(db, db', id)
  }

  /** The booking is cancelled, and a pending payment with it. */
  ghost predicate Released(db: Db, db': Db, id: int, action: AuditAction) {
    && Recorded(db, db', id, action) && Became(db, db', id, Cancelled) && SameOutbox(db, db', id)
    && Lookup(db'.payments, id) == if Lookup(db.payments, id) == Some(Pending) then Some(Failed) else Lookup(db.payments, id)
  }

  ghost predicate ExpireSpec(db: Db, id: int, business: int, tenant: int, db': Db, r: Outcome) {
    if !InBusiness(db, id, business, tenant) then r == NotFoundError && db' == db
    else if !IsHold(db, id) then r == ConflictError && db' == db
    else r == Ok && Released(db, db', id, HoldExpired) && Lookup(db'.payments, id) == Some(Failed)
  }

  ghost predicate CancelSpec(db: Db, id: int, business: int, tenant: int, db': Db, r: Outcome) {
    if !InBusiness(db, id, business, tenant) then r == NotFoundError && db' == db
    else if db.bookings[id].status == Cancelled then r == ConflictError && db' == db
    else r == Ok && Released(db, db', id, BookingCancelled)
  }

  ghost predicate RefundSpec(db: Db, id: int, business: int, tenant: int, db': Db, r: Outcome) {
    if !InBusiness(db, id, business, tenant) || Lookup(db.payments, id) == None then r == NotFoundError && db' == db
    else if Lookup(db.payments, id) != Some(Succeeded) then r == ConflictError && db' == db
    else
      && r == Ok && Recorded(db, db', id, PaymentRefunded)
      && db'.bookings == db.bookings && Lookup(db'.payments, id) == Some(Refunded) && SameOutbox(db, db', id)
  }

  /** The confirmed booking is cancelled in any case. Unless somebody else has the new time, there is a new booking that
      differs from the old one in its id and its time alone; it lasts as long as the service does now. */
  ghost predicate RescheduleSpec(tables: Tables, db: Db, id: int, business: int, tenant: int, newStart: int,
                                 db': Db, r: Outcome, newId: int) {
    if !InBusiness(db, id, business, tenant) then r == NotFoundError && db' == db
    else if db.bookings[id].status != Confirmed then r == ConflictError && db' == db
    else
      var b := db.bookings[id];
      && Became(db, db', id, Cancelled) && Lookup(db'.payments, id) == Lookup(db.payments, id) && SameOutbox(db, db', id)
      && b.service in tables.services
      && var newEnd := newStart + tables.services[b.service].duration;
        if Taken(db.(bookings := db.bookings - {id}), b.staff, b.business, newStart, newEnd) then
          && r == ConflictError && OnlyTouches(db, db', {id})
          && db'.audit == db.audit + multiset{AuditEntry(BookingCancelled, id)}
        else
          && r == Ok && newId !in db.bookings && newId in db'.bookings && OnlyTouches(db, db', {id, newId})
          && db'.bookings[newId] == b.(startsAt := newStart, endsAt := newEnd)
          && Lookup(db'.payments, newId) == None && AnnouncedOnce(db, db', newId)
          && db'.audit == db.audit + multiset{AuditEntry(BookingCancelled, id)} + multiset{AuditEntry(BookingCreated, newId)}
  }

  /** Whoever names the wrong tenant or business, or no booking at all, finds nothing and changes nothing. */
  lemma StrangersFindNothing(tables: Tables, db: Db, id: int, business: int, tenant: int, newStart: int, db': Db, r: Outcome, newId: int)
    requires id in db.bookings ==> db.bookings[id].tenant != tenant || db.bookings[id].business != business
    requires ConfirmSpec(db, id, business, tenant, db', r) || ExpireSpec(db, id, business, tenant, db', r)
      || CancelSpec(db, id, business, tenant, db', r) || RefundSpec(db, id, business, tenant, db', r)
      || RescheduleSpec(tables, db, id, business, tenant, newStart, db', r, newId)
    ensures r == NotFoundError && db' == db
  {
  }

  // ---- the written effects are the promised ones --------------------------

  lemma InsertStores(db: Db, id: int, req: Request)
    requires id !in db.bookings
    ensures Stored(db, Insert(db, id, req), id, req)
  {
  }

  lemma ConfirmsHold(db: Db, id: int)
    requires IsHold(db, id)
    ensures var db' := ConfirmPayment(db, id, db.bookings[id]);
      && Recorded(db, db', id, BookingConfirmed) && Became(db, db', id, Confirmed)
      && Lookup(db'.payments, id) == Some(Succeeded) && AnnouncedOnce(db, db', id)
  {
  }

  lemma Releases(db: Db, id: int, action: AuditAction)
    requires id in db.bookings
    ensures Released(db, Release(db, id, db.bookings[id], Lookup(db.payments, id), action), id, action)
  {
  }

  lemma Refunds(db: Db, id: int)
    ensures var db' := RecordRefund(db, id);
      && Recorded(db, db', id, PaymentRefunded) && db'.bookings == db.bookings
      && Lookup(db'.payments, id) == Some(Refunded) && SameOutbox(db, db', id)
  {
  }

  // ---- a call that runs alone ---------------------------------------------

  /** Transaction `t` takes `n` steps, and nobody else any. */
  function Solo(tables: Tables, s: State, t: int, n: nat): State
    decreases n
  {
    if n == 0 then s else Solo(tables, Step(tables, s, t, Advance), t, n - 1)
  }

  /** The whole call: at most six steps after the first statement. */
  function Whole(tables: Tables, s: State, t: int, call: Call): State {
    Solo(tables, Step(tables, s, t, Begin(call)), t, 6)
  }

  /** Nobody else holds a row lock or has an uncommitted insert. */
  predicate Undisturbed(s: State, t: int) {
    forall u | u in s.txns && u != t :: !HoldsLock(s.txns[u]) && !s.txns[u].Flushed?
  }

  lemma SoloOne(tables: Tables, s: State, t: int, n: nat)
    requires n > 0
    ensures Solo(tables, s, t, n) == Solo(tables, Step(tables, s, t, Advance), t, n - 1)
  {
  }

  lemma {:induction false} SoloDone(tables: Tables, s: State, t: int, n: nat)
    requires t in s.txns && s.txns[t].Done?
    ensures Solo(tables, s, t, n) == s
    decreases n
  {
    if n > 0 {
      SoloDone(tables, s, t, n - 1);
    }
  }

  lemma ChecksAlone(tables: Tables, s: State, t: int, req: Request)
    requires DbOk(tables, s.db) && t in s.txns && s.txns[t] == Checking(req)
    ensures var taken := Taken(s.db, req.staff, req.business, req.startsAt, req.startsAt + req.duration);
      var s' := Step(tables, s, t, Advance);
      && s' == s.(txns := s.txns[t := s'.txns[t]])
      && (if Admissible(tables, req) && !taken then s'.txns[t] == Checked(req)
          else s'.txns[t].Done? && CreateSpec(tables, s.db, req, s.db, s'.txns[t].outcome, 0))
  {
    CheckFindsBusyMinute(tables, s.db, req);
    hide FoundByCheck, Taken, DbOk;
  }

  /** After a passed check, flush and commit in a row. */
  lemma InsertsAlone(tables: Tables, s: State, t: int, req: Request, n: nat)
    requires t in s.txns && s.txns[t] == Checked(req) && Undisturbed(s, t) && n >= 2
    requires !Violates(s.db, Row(req)) && s.nextId !in s.db.bookings
    ensures var s' := Solo(tables, s, t, n);
      t in s'.txns && s'.txns[t] == Done(Ok) && Stored(s.db, s'.db, s.nextId, req)
  {
    assert !MustWait(s, t, Row(req));
    hide Step, Solo, Insert, Violates, MustWait, Stored;
    SoloOne(tables, s, t, n);
    Flushes(tables, s, t, req);
    var s1 := Step(tables, s, t, Advance);
    SoloOne(tables, s1, t, n - 1);
    Commits(tables, s1, t, req, s.nextId);
    SoloDone(tables, Step(tables, s1, t, Advance), t, n - 2);
    InsertStores(s.db, s.nextId, req);
  }

  /** Check, flush and commit in a row. */
  lemma CreatesAlone(tables: Tables, s: State, t: int, req: Request, n: nat)
    requires Inv(tables, s) && t in s.txns && s.txns[t] == Checking(req) && Undisturbed(s, t) && n >= 3
    ensures var s' := Solo(tables, s, t, n);
      t in s'.txns && s'.txns[t].Done? && CreateSpec(tables, s.db, req, s'.db, s'.txns[t].outcome, s.nextId)
  {
    assert DbOk(tables, s.db) && s.nextId !in s.db.bookings;
    ChecksAlone(tables, s, t, req);
    CheckFindsBusyMinute(tables, s.db, req);
    if Admissible(tables, req) {
      CheckMatchesConstraint(tables, s.db, req);
      AdmissibleAlone(tables, s, t, req);
    }
    hide Step, Solo, Taken, FoundByCheck, Violates, Admissible, Inv, DbOk, Stored, Undisturbed;
    SoloOne(tables, s, t, n);
    var s1 := Step(tables, s, t, Advance);
    if s1.txns[t].Done? {
      SoloDone(tables, s1, t, n - 1);
    } else {
      InsertsAlone(tables, s1, t, req, n - 1);
    }
  }

  lemma AdmissibleAlone(tables: Tables, s: State, t: int, req: Request)
    requires Admissible(tables, req) && Undisturbed(s, t)
    ensures !BlankOverride(req) && (req.hold ==> req.depositRequired)
    ensures Undisturbed(s.(txns := s.txns[t := Checked(req)]), t)
  {
  }

  /** Locking, reading the payment and deciding in a row. */
  lemma LocksAlone(tables: Tables, s: State, t: int, op: Op, id: int, business: int, tenant: int, n: nat)
    requires t in s.txns && s.txns[t] == Waiting(op, id, business, tenant) && Undisturbed(s, t) && n >= 3
    ensures if InBusiness(s.db, id, business, tenant) then
        var (db', next) := Decide(s.db, op, id, s.db.bookings[id], Lookup(s.db.payments, id));
        var s' := Step(tables, Step(tables, Step(tables, s, t, Advance), t, Advance), t, Advance);
        s' == s.(db := db', txns := s.txns[t := next]) && Solo(tables, s, t, n) == Solo(tables, s', t, n - 3)
      else Solo(tables, s, t, n) == s.(txns := s.txns[t := Done(NotFoundError)])
  {
    hide Decide, Solo;
    SoloOne(tables, s, t, n);
    var s1 := Step(tables, s, t, Advance);
    if InBusiness(s.db, id, business, tenant) {
      SoloOne(tables, s1, t, n - 1);
      SoloOne(tables, Step(tables, s1, t, Advance), t, n - 2);
    } else {
      SoloDone(tables, s1, t, n - 1);
    }
  }

  // ---- decisions keep their promises --------------------------------------

  lemma ConfirmDecides(db: Db, id: int, business: int, tenant: int)
    requires InBusiness(db, id, business, tenant) && Lockstep(db, id)
    ensures var (db', next) := Decide(db, Confirm, id, db.bookings[id], Lookup(db.payments, id));
      next.Done? && ConfirmSpec(db, id, business, tenant, db', next.outcome)
  {
    if IsHold(db, id) {
      ConfirmsHold(db, id);
    }
  }

  lemma ExpireDecides(db: Db, id: int, business: int, tenant: int)
    requires InBusiness(db, id, business, tenant) && Lockstep(db, id)
    ensures var (db', next) := Decide(db, Expire, id, db.bookings[id], Lookup(db.payments, id));
      next.Done? && ExpireSpec(db, id, business, tenant, db', next.outcome)
  {
    Releases(db, id, HoldExpired);
  }

  lemma CancelDecides(db: Db, id: int, business: int, tenant: int, andThen: Option<Request>)
    requires InBusiness(db, id, business, tenant)
    ensures var (db', next) := Decide(db, Cancel(andThen), id, db.bookings[id], Lookup(db.payments, id));
      if Active(db.bookings[id]) && andThen.Some? then next == Checking(andThen.value) && CancelSpec(db, id, business, tenant, db', Ok)
      else next.Done? && CancelSpec(db, id, business, tenant, db', next.outcome)
  {
    Releases(db, id, BookingCancelled);
  }

  // ---- cancel and create make a reschedule --------------------------------

  /** The request repeats booking `b` at `newStart`, for as long as its service takes now. */
  predicate Repeats(tables: Tables, req: Request, b: Booking, newStart: int) {
    && req.tenant == b.tenant && req.business == b.business && req.customer == b.customer && req.service == b.service
    && req.staff == b.staff && req.startsAt == newStart && !req.hold && req.override == None
    && b.service in tables.services && req.duration == tables.services[b.service].duration
    && req.depositRequired == tables.services[b.service].deposit
  }

  lemma AgainRepeats(tables: Tables, b: Booking, newStart: int)
    requires RowOk(tables, b)
    ensures Repeats(tables, Again(tables, b, newStart), b, newStart) && Admissible(tables, Again(tables, b, newStart))
  {
  }

  /** A cancelled booking is in nobody's way. */
  lemma TakenWithout(db: Db, db': Db, id: int, staff: Option<int>, business: int, from: int, to: int)
    requires OnlyTouches(db, db', {id}) && Became(db, db', id, Cancelled)
    ensures Taken(db', staff, business, from, to) <==> Taken(db.(bookings := db.bookings - {id}), staff, business, from, to)
  {
    var rest := db.(bookings := db.bookings - {id});
    forall m
      ensures Busy(db', staff, business, m) <==> Busy(rest, staff, business, m)
    {
      forall i | i != id
        ensures i in db'.bookings <==> i in rest.bookings
        ensures i in rest.bookings ==> db'.bookings[i] == rest.bookings[i]
      {
        assert SameBooking(db, db', i);
      }
    }
  }

  lemma RescheduleAdds(tables: Tables, db: Db, id: int, business: int, tenant: int, newStart: int, mid: Db, req: Request,
                       db': Db, r: Outcome, newId: int)
    requires DbOk(tables, db) && InBusiness(db, id, business, tenant) && db.bookings[id].status == Confirmed
    requires CancelSpec(db, id, business, tenant, mid, Ok) && Repeats(tables, req, db.bookings[id], newStart) && Admissible(tables, req)
    requires CreateSpec(tables, mid, req, db', r, newId)
    ensures RescheduleSpec(tables, db, id, business, tenant, newStart, db', r, newId)
  {
    var b := db.bookings[id];
    TakenWithout(db, mid, id, b.staff, b.business, newStart, newStart + req.duration);
    assert Lockstep(db, id) && Lockstep(db, newId);
    hide Taken, DbOk, Admissible;
    if r == Ok {
      assert SameBooking(db, mid, newId) && SameOutbox(db, mid, newId);
      assert SameBooking(mid, db', id) && SameOutbox(mid, db', id);
      forall i | i !in {id, newId}
        ensures SameBooking(db, db', i) && SameOutbox(db, db', i)
      {
        assert SameBooking(db, mid, i) && SameBooking(mid, db', i) && SameOutbox(db, mid, i) && SameOutbox(mid, db', i);
      }
    }
  }

  // ---- every call, run alone, keeps its promise ---------------------------

  ghost predicate CallSpec(tables: Tables, db: Db, call: Call, db': Db, r: Outcome, newId: int) {
    match call
    case Create(req) => CreateSpec(tables, db, req, db', r, newId)
    case Lock(Confirm, id, business, tenant) => ConfirmSpec(db, id, business, tenant, db', r)
    case Lock(Expire, id, business, tenant) => ExpireSpec(db, id, business, tenant, db', r)
    case Lock(Cancel(_), id, business, tenant) => CancelSpec(db, id, business, tenant, db', r)
    case Reschedule(id, business, tenant, newStart) => RescheduleSpec(tables, db, id, business, tenant, newStart, db', r, newId)
    case Refund(id, business, tenant) => RefundSpec(db, id, business, tenant, db', r)
  }

  lemma LockRunsAlone(tables: Tables, s: State, t: int, op: Op, id: int, business: int, tenant: int)
    requires Inv(tables, s) && (t in s.txns ==> s.txns[t].Done?) && Undisturbed(s, t)
    ensures var s' := Whole(tables, s, t, Lock(op, id, business, tenant));
      t in s'.txns && s'.txns[t].Done? && CallSpec(tables, s.db, Lock(op, id, business, tenant), s'.db, s'.txns[t].outcome, s.nextId)
  {
    var op' := if op.Cancel? then Cancel(None) else op;
    var s0 := Step(tables, s, t, Begin(Lock(op, id, business, tenant)));
    assert s0 == s.(txns := s.txns[t := Waiting(op', id, business, tenant)]);
    assert Lockstep(s.db, id);
    hide Inv, Step, Solo, Decide, Lockstep, ConfirmSpec, ExpireSpec, CancelSpec;
    LocksAlone(tables, s0, t, op', id, business, tenant, 6);
    if InBusiness(s.db, id, business, tenant) {
      match op {
        case Confirm => ConfirmDecides(s.db, id, business, tenant);
        case Expire => ExpireDecides(s.db, id, business, tenant);
        case Cancel(_) => CancelDecides(s.db, id, business, tenant, None);
      }
      var (db', next) := Decide(s.db, op', id, s.db.bookings[id], Lookup(s.db.payments, id));
      SoloDone(tables, s0.(db := db', txns := s0.txns[t := next]), t, 3);
    } else {
      NotThere(s.db, id, business, tenant);
    }
  }

  lemma NotThere(db: Db, id: int, business: int, tenant: int)
    requires !InBusiness(db, id, business, tenant)
    ensures ConfirmSpec(db, id, business, tenant, db, NotFoundError) && ExpireSpec(db, id, business, tenant, db, NotFoundError)
    ensures CancelSpec(db, id, business, tenant, db, NotFoundError)
  {
  }

  lemma RefundRunsAlone(tables: Tables, s: State, t: int, id: int, business: int, tenant: int)
    requires t in s.txns ==> s.txns[t].Done?
    ensures var s' := Whole(tables, s, t, Refund(id, business, tenant));
      t in s'.txns && s'.txns[t].Done? && RefundSpec(s.db, id, business, tenant, s'.db, s'.txns[t].outcome)
  {
    var s0 := Step(tables, s, t, Begin(Refund(id, business, tenant)));
    Refunds(s.db, id);
    hide Solo;
    if s0.txns[t].Done? {
      SoloDone(tables, s0, t, 6);
    } else {
      SoloOne(tables, s0, t, 6);
      SoloDone(tables, Step(tables, s0, t, Advance), t, 5);
    }
  }

  lemma RescheduleRunsAlone(tables: Tables, s: State, t: int, id: int, business: int, tenant: int, newStart: int)
    requires Inv(tables, s) && (t in s.txns ==> s.txns[t].Done?) && Undisturbed(s, t)
    ensures var s' := Whole(tables, s, t, Reschedule(id, business, tenant, newStart));
      && t in s'.txns && s'.txns[t].Done?
      && RescheduleSpec(tables, s.db, id, business, tenant, newStart, s'.db, s'.txns[t].outcome, s.nextId)
  {
    var call := Reschedule(id, business, tenant, newStart);
    var s0 := Step(tables, s, t, Begin(call));
    StepKeepsInv(tables, s, t, Begin(call));
    if !InBusiness(s.db, id, business, tenant) || s.db.bookings[id].status != Confirmed {
      hide Solo, Inv;
      SoloDone(tables, s0, t, 6);
    } else {
      var b := s.db.bookings[id];
      var req := Again(tables, b, newStart);
      assert RowOk(tables, b) && DbOk(tables, s.db);
      AgainRepeats(tables, b, newStart);
      assert s0 == s.(txns := s.txns[t := Waiting(Cancel(Some(req)), id, business, tenant)]);
      hide Step, Solo, Decide, Inv, DbOk, Again, Repeats, Admissible, CreateSpec, CancelSpec, RescheduleSpec;
      LocksAlone(tables, s0, t, Cancel(Some(req)), id, business, tenant, 6);
      CancelDecides(s.db, id, business, tenant, Some(req));
      StepKeepsInv(tables, s0, t, Advance);
      StepKeepsInv(tables, Step(tables, s0, t, Advance), t, Advance);
      StepKeepsInv(tables, Step(tables, Step(tables, s0, t, Advance), t, Advance), t, Advance);
      var s3 := Step(tables, Step(tables, Step(tables, s0, t, Advance), t, Advance), t, Advance);
      CreatesAlone(tables, s3, t, req, 3);
      var s' := Solo(tables, s3, t, 3);
      RescheduleAdds(tables, s.db, id, business, tenant, newStart, s3.db, req, s'.db, s'.txns[t].outcome, s.nextId);
    }
  }

  /** From every state with the invariant, a call that nobody disturbs ends after at most six steps and does exactly
      what its promise says. */
  lemma CallRunsAlone(tables: Tables, s: State, t: int, call: Call)
    requires Inv(tables, s) && (t in s.txns ==> s.txns[t].Done?) && Undisturbed(s, t)
    ensures var s' := Whole(tables, s, t, call);
      t in s'.txns && s'.txns[t].Done? && CallSpec(tables, s.db, call, s'.db, s'.txns[t].outcome, s.nextId)
  {
    match call
    case Create(req) =>
      StepKeepsInv(tables, s, t, Begin(call));
      var s0 := Step(tables, s, t, Begin(call));
      assert s0 == s.(txns := s.txns[t := Checking(req)]);
      hide Inv, Step, Solo, CreateSpec;
      CreatesAlone(tables, s0, t, req, 6);
    case Lock(op, id, business, tenant) => LockRunsAlone(tables, s, t, op, id, business, tenant);
    case Reschedule(id, business, tenant, newStart) => RescheduleRunsAlone(tables, s, t, id, business, tenant, newStart);
    case Refund(id, business, tenant) => RefundRunsAlone(tables, s, t, id, business, tenant);
  }

  // ---- a reschedule among others ------------------------------------------

  predicate IsCancelled(db: Db, id: int) {
    id in db.bookings && db.bookings[id].status == Cancelled
  }

  /** `newId` is booking `b` at its new time, booked since `before`; others may have cancelled it again. */
  predicate IsMoved(tables: Tables, before: Db, now: Db, b: Booking, newStart: int, newId: int) {
    && newId in now.bookings && newId !in before.bookings && b.service in tables.services
    && now.bookings[newId] == b.(startsAt := newStart, endsAt := newStart + tables.services[b.service].duration, status := now.bookings[newId].status)
    && now.bookings[newId].status != PendingPayment
  }

  /** How far the reschedule of `id` that began in `s0` has come. */
  ghost predicate Underway(tables: Tables, s0: State, id: int, newStart: int, s: State, txn: Txn)
    requires id in s0.db.bookings
  {
    var b := s0.db.bookings[id];
    s0.nextId <= s.nextId &&
    match txn
    case Waiting(op, i, _, _) => i == id && op.Cancel? && op.andThen.Some? && Repeats(tables, op.andThen.value, b, newStart)
    case Locked(op, i, _) => i == id && op.Cancel? && op.andThen.Some? && Repeats(tables, op.andThen.value, b, newStart)
    case PaymentRead(op, i, _, _) => i == id && op.Cancel? && op.andThen.Some? && Repeats(tables, op.andThen.value, b, newStart)
    case Checking(req) => Repeats(tables, req, b, newStart) && IsCancelled(s.db, id)
    case Checked(req) => Repeats(tables, req, b, newStart) && IsCancelled(s.db, id)
    case Flushed(req, k) => Repeats(tables, req, b, newStart) && IsCancelled(s.db, id) && s0.nextId <= k
    case Done(r) => r == Ok ==> IsCancelled(s.db, id) && exists newId :: IsMoved(tables, s0.db, s.db, b, newStart, newId)
    case Refunding(_) => false
  }

  lemma NextIdGrows(tables: Tables, s: State, t: int, a: Action)
    ensures s.nextId <= Step(tables, s, t, a).nextId
  {
  }

  lemma CancelledStays(db: Db, db': Db, id: int)
    requires IsCancelled(db, id) && BookingLaws.Evolves(db, db', id)
    ensures IsCancelled(db', id)
  {
  }

  lemma MovedStays(tables: Tables, before: Db, db: Db, db': Db, b: Booking, newStart: int, newId: int)
    requires IsMoved(tables, before, db, b, newStart, newId) && BookingLaws.Evolves(db, db', newId)
    ensures IsMoved(tables, before, db', b, newStart, newId)
  {
  }

  lemma OthersKeepUnderway(tables: Tables, s0: State, id: int, newStart: int, s: State, txn: Txn, u: int, a: Action)
    requires Inv(tables, s) && id in s0.db.bookings && Underway(tables, s0, id, newStart, s, txn)
    ensures Underway(tables, s0, id, newStart, Step(tables, s, u, a), txn)
  {
    var s' := Step(tables, s, u, a);
    NextIdGrows(tables, s, u, a);
    StepEvolves(tables, s, u, a, id);
    hide Inv, Step, BookingLaws.Evolves, IsCancelled, Repeats, IsMoved;
    if IsCancelled(s.db, id) {
      CancelledStays(s.db, s'.db, id);
    }
    if txn.Done? && txn.outcome == Ok {
      var b := s0.db.bookings[id];
      var newId :| IsMoved(tables, s0.db, s.db, b, newStart, newId);
      StepEvolves(tables, s, u, a, newId);
      MovedStays(tables, s0.db, s.db, s'.db, b, newStart, newId);
    }
  }

  /** The cancelling half has committed. */
  lemma CancelGoesOn(tables: Tables, s: State, t: int)
    requires Inv(tables, s) && t in s.txns && s.txns[t].PaymentRead? && s.txns[t].op.Cancel? && s.txns[t].op.andThen.Some?
    ensures var s', txn := Step(tables, s, t, Advance), s.txns[t];
      && t in s'.txns
      && if txn.seen.status == Cancelled then s'.txns[t] == Done(ConflictError)
         else s'.txns[t] == Checking(txn.op.andThen.value) && IsCancelled(s'.db, txn.id)
  {
    assert TxnOk(tables, s, s.txns[t]);
    hide Inv, TxnOk;
  }

  /** The creating half has committed. */
  lemma CreateGoesOn(tables: Tables, s0: State, id: int, newStart: int, s: State, t: int)
    requires Inv(tables, s0) && Inv(tables, s) && id in s0.db.bookings && t in s.txns && s.txns[t].Flushed?
    requires Repeats(tables, s.txns[t].req, s0.db.bookings[id], newStart) && s0.nextId <= s.txns[t].id
    ensures var s' := Step(tables, s, t, Advance);
      t in s'.txns && s'.txns[t] == Done(Ok) && IsMoved(tables, s0.db, s'.db, s0.db.bookings[id], newStart, s.txns[t].id)
  {
    var req, k := s.txns[t].req, s.txns[t].id;
    assert TxnOk(tables, s, s.txns[t]);
    assert k !in s0.db.bookings;
    hide Inv, Insert, Step;
    InsertStores(s.db, k, req);
    Commits(tables, s, t, req, k);
  }

  lemma OwnStepKeepsUnderway(tables: Tables, s0: State, id: int, newStart: int, s: State, t: int)
    requires Inv(tables, s0) && Inv(tables, s) && id in s0.db.bookings && t in s.txns
    requires Underway(tables, s0, id, newStart, s, s.txns[t])
    ensures var s' := Step(tables, s, t, Advance); t in s'.txns && Underway(tables, s0, id, newStart, s', s'.txns[t])
  {
    var s', txn := Step(tables, s, t, Advance), s.txns[t];
    NextIdGrows(tables, s, t, Advance);
    hide Inv, Repeats, IsMoved, FoundByCheck, Violates, MustWait, LockedByOther, PartiesResolve, StaffResolves, BlankOverride;
    if txn.Flushed? {
      hide Step;
      CreateGoesOn(tables, s0, id, newStart, s, t);
      StepEvolves(tables, s, t, Advance, id);
      CancelledStays(s.db, s'.db, id);
    } else if txn.PaymentRead? {
      hide Step;
      CancelGoesOn(tables, s, t);
    }
  }

  /** After its first statement `t` only goes on; the others do anything. */
  predicate GoesOn(trace: seq<Event>, t: int) {
    forall e | e in trace :: e.txn == t ==> e.action == Advance
  }

  lemma {:induction false} StaysUnderway(tables: Tables, s0: State, id: int, newStart: int, s: State, t: int, trace: seq<Event>)
    requires Inv(tables, s0) && Inv(tables, s) && id in s0.db.bookings && t in s.txns && GoesOn(trace, t)
    requires Underway(tables, s0, id, newStart, s, s.txns[t])
    ensures var s' := Run(tables, s, trace); Inv(tables, s') && t in s'.txns && Underway(tables, s0, id, newStart, s', s'.txns[t])
  {
    hide Inv, Step, Underway;
    if trace != [] {
      var n := |trace| - 1;
      StaysUnderway(tables, s0, id, newStart, s, t, trace[..n]);
      var s1 := Run(tables, s, trace[..n]);
      assert trace[n] in trace;
      StepKeepsInv(tables, s1, trace[n].txn, trace[n].action);
      if trace[n].txn == t {
        OwnStepKeepsUnderway(tables, s0, id, newStart, s1, t);
      } else {
        OthersKeepUnderway(tables, s0, id, newStart, s1, s1.txns[t], trace[n].txn, trace[n].action);
        OthersLeave(tables, s1, trace[n].txn, trace[n].action, t);
      }
    }
  }

  /** Among any other transactions: a reschedule that has succeeded has cancelled the old booking and booked the same
      customer, service and staff at the new time; and its check ends in a conflict exactly when, at that moment, the
      staff member is busy during the new time. */
  lemma RescheduleMovesBooking(tables: Tables, s0: State, t: int, id: int, business: int, tenant: int, newStart: int, trace: seq<Event>)
    requires Inv(tables, s0) && (t in s0.txns ==> s0.txns[t].Done?) && GoesOn(trace, t)
    requires InBusiness(s0.db, id, business, tenant) && s0.db.bookings[id].status == Confirmed
    ensures var b := s0.db.bookings[id];
      var s := Run(tables, Step(tables, s0, t, Begin(Reschedule(id, business, tenant, newStart))), trace);
      && b.service in tables.services && t in s.txns
      && (s.txns[t] == Done(Ok) ==> IsCancelled(s.db, id) && exists newId :: IsMoved(tables, s0.db, s.db, b, newStart, newId))
      && (s.txns[t].Checking? ==>
          (Step(tables, s, t, Advance).txns[t] == Done(ConflictError) <==>
           Taken(s.db, b.staff, b.business, newStart, newStart + tables.services[b.service].duration)))
  {
    var call := Reschedule(id, business, tenant, newStart);
    var b, start := s0.db.bookings[id], Step(tables, s0, t, Begin(call));
    assert RowOk(tables, b);
    AgainRepeats(tables, b, newStart);
    StepKeepsInv(tables, s0, t, Begin(call));
    assert Underway(tables, s0, id, newStart, start, start.txns[t]);
    StaysUnderway(tables, s0, id, newStart, start, t, trace);
    var s := Run(tables, start, trace);
    if s.txns[t].Checking? {
      hide Run, Taken, FoundByCheck, RowOk, Again;
      RepeatResolves(tables, b, s.txns[t].req, newStart);
      ChecksAlone(tables, s, t, s.txns[t].req);
    }
  }

  lemma RepeatResolves(tables: Tables, b: Booking, req: Request, newStart: int)
    requires RowOk(tables, b) && Repeats(tables, req, b, newStart)
    ensures Admissible(tables, req)
  {
  }

  // ---- refunds ------------------------------------------------------------

  /** The event commits a refund of `id`. */
  predicate RecordsRefund(s: State, e: Event, id: int) {
    e.action.Advance? && e.txn in s.txns && s.txns[e.txn] == Refunding(id)
  }

  function RefundsIn(tables: Tables, s: State, trace: seq<Event>, id: int): nat {
    if trace == [] then 0
    else
      var n := |trace| - 1;
      RefundsIn(tables, s, trace[..n], id) + if RecordsRefund(Run(tables, s, trace[..n]), trace[n], id) then 1 else 0
  }

  /** `refunded` says whether the change from `db` to `db'` was a refund of `id`. */
  predicate TellsRefund(db: Db, db': Db, id: int, refunded: bool) {
    && db'.audit[AuditEntry(PaymentRefunded, id)] == db.audit[AuditEntry(PaymentRefunded, id)] + (if refunded then 1 else 0)
    && (Lookup(db'.payments, id) == Some(Refunded) <==> Lookup(db.payments, id) == Some(Refunded) || refunded)
  }

  lemma InsertRefundsNothing(db: Db, i: int, req: Request, id: int)
    requires Lockstep(db, i) && i !in db.bookings
    ensures TellsRefund(db, Insert(db, i, req), id, false)
  {
  }

  lemma ConfirmRefundsNothing(db: Db, i: int, seen: Booking, id: int)
    requires Lookup(db.payments, i) == Some(Pending)
    ensures TellsRefund(db, ConfirmPayment(db, i, seen), id, false)
  {
  }

  lemma ReleaseRefundsNothing(db: Db, i: int, seen: Booking, pay: Option<PaymentStatus>, action: AuditAction, id: int)
    requires (pay == Some(Pending) ==> Lookup(db.payments, i) == Some(Pending)) && action != PaymentRefunded
    ensures TellsRefund(db, Release(db, i, seen, pay, action), id, false)
  {
  }

  lemma DecideRefundsNothing(tables: Tables, s: State, txn: Txn, id: int)
    requires TxnOk(tables, s, txn) && txn.PaymentRead?
    ensures TellsRefund(s.db, Decide(s.db, txn.op, txn.id, txn.seen, txn.pay).0, id, false)
  {
    if txn.pay == Some(Pending) {
      ConfirmRefundsNothing(s.db, txn.id, txn.seen, id);
    }
    ReleaseRefundsNothing(s.db, txn.id, txn.seen, txn.pay, HoldExpired, id);
    ReleaseRefundsNothing(s.db, txn.id, txn.seen, txn.pay, BookingCancelled, id);
    assert TellsRefund(s.db, s.db, id, false);
    hide TellsRefund, ConfirmPayment, Release, TxnOk;
  }

  lemma RefundRefunds(db: Db, i: int, id: int)
    ensures TellsRefund(db, RecordRefund(db, i), id, i == id)
  {
  }

  lemma StepRefunds(tables: Tables, s: State, e: Event, id: int)
    requires Inv(tables, s)
    ensures TellsRefund(s.db, Step(tables, s, e.txn, e.action).db, id, RecordsRefund(s, e, id))
  {
    if e.action.Advance? && e.txn in s.txns && (s.txns[e.txn].Flushed? || s.txns[e.txn].PaymentRead? || s.txns[e.txn].Refunding?) {
      var txn := s.txns[e.txn];
      assert TxnOk(tables, s, txn) && Lockstep(s.db, txn.id);
      hide Inv, Decide, Insert, RecordRefund, TellsRefund;
      if txn.Flushed? {
        InsertRefundsNothing(s.db, txn.id, txn.req, id);
      } else if txn.PaymentRead? {
        DecideRefundsNothing(tables, s, txn, id);
      } else {
        RefundRefunds(s.db, txn.id, id);
      }
    } else {
      QuietStep(tables, s, e.txn, e.action);
    }
  }

  /** Every refund that is committed leaves one audit entry, and a payment is refunded once one is. */
  lemma {:induction false} RefundsAreRecorded(tables: Tables, s: State, trace: seq<Event>, id: int)
    requires Inv(tables, s)
    ensures var db' := Run(tables, s, trace).db;
      && db'.audit[AuditEntry(PaymentRefunded, id)] == s.db.audit[AuditEntry(PaymentRefunded, id)] + RefundsIn(tables, s, trace, id)
      && (Lookup(db'.payments, id) == Some(Refunded) <==> Lookup(s.db.payments, id) == Some(Refunded) || RefundsIn(tables, s, trace, id) > 0)
  {
    hide Inv, Step, RecordsRefund;
    if trace != [] {
      var n := |trace| - 1;
      RefundsAreRecorded(tables, s, trace[..n], id);
      RunKeepsInv(tables, s, trace[..n]);
      StepRefunds(tables, Run(tables, s, trace[..n]), trace[n], id);
    }
  }

  /** Run one after the other, a second refund is always a conflict. */
  lemma RefundedOnlyOnce(db: Db, mid: Db, db': Db, id: int, business: int, tenant: int, r: Outcome)
    requires RefundSpec(db, id, business, tenant, mid, Ok) && RefundSpec(mid, id, business, tenant, db', r)
    ensures r == ConflictError && db' == mid
  {
  }

  /** A refund of a payment that succeeded is admitted, whatever ran since, exactly when no refund of it has been
      committed; after one it is a conflict. */
  lemma RefundAdmittedIff(tables: Tables, s: State, trace: seq<Event>, id: int, business: int, tenant: int)
    requires Inv(tables, s) && InBusiness(s.db, id, business, tenant) && Lookup(s.db.payments, id) == Some(Succeeded)
    ensures Start(tables, Run(tables, s, trace), Refund(id, business, tenant)) ==
      if RefundsIn(tables, s, trace, id) == 0 then Refunding(id) else Done(ConflictError)
  {
    hide Inv, Run;
    RefundsAreRecorded(tables, s, trace, id);
    RunEvolves(tables, s, trace, id);
  }

  /** The payment is read without a lock: two refunds that both begin before either commits both succeed, and the refund
      is on record twice. */
  lemma OverlappingRefundsBothSucceed(tables: Tables, s: State, t: int, u: int, id: int, business: int, tenant: int)
    requires t != u && (t in s.txns ==> s.txns[t].Done?) && (u in s.txns ==> s.txns[u].Done?)
    requires InBusiness(s.db, id, business, tenant) && Lookup(s.db.payments, id) == Some(Succeeded)
    ensures var call := Begin(Refund(id, business, tenant));
      var s' := Step(tables, Step(tables, Step(tables, Step(tables, s, t, call), u, call), t, Advance), u, Advance);
      && t in s'.txns && s'.txns[t] == Done(Ok) && u in s'.txns && s'.txns[u] == Done(Ok)
      && s'.db.audit[AuditEntry(PaymentRefunded, id)] == s.db.audit[AuditEntry(PaymentRefunded, id)] + 2
  {
  }
}
