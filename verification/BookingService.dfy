/** The booking service run one call at a time, on a database it updates in place. */
module BookingService {
  import opened Domain
  import opened Bookings
  import opened BookingLaws
  import opened BookingEffects

  /** `id` was on hold in `db`; in `db'` it is cancelled and its payment failed. */
  predicate HoldReleased(db: Db, db': Db, id: int) {
    && IsHold(db, id)
    && id in db'.bookings && db'.bookings[id] == db.bookings[id].(status := Cancelled)
    && Lookup(db'.payments, id) == Some(Failed)
  }

  lemma ReleaseEffect(db: Db, id: int, db': Db)
    requires IsHold(db, id) && ExpireSpec(db, id, db.bookings[id].business, db.bookings[id].tenant, db', Ok)
    ensures HoldReleased(db, db', id) && forall i | i != id :: SameBooking(db, db', i)
  {
  }

  /** The candidates that are on hold in `db`. */
  function OnHold(db: Db, stale: seq<int>): set<int> {
    set id | id in stale && IsHold(db, id)
  }

  lemma OnHoldSnoc(db: Db, stale: seq<int>, id: int)
    ensures OnHold(db, stale + [id]) == if IsHold(db, id) then OnHold(db, stale) + {id} else OnHold(db, stale)
  {
  }

  /** A candidate that is no longer on hold was released before or never was a hold. */
  lemma SkipStep(db0: Db, db: Db, id: int, released: set<int>)
    requires forall i | i !in released :: SameBooking(db0, db, i)
    requires !IsHold(db, id) && forall i | i in released :: IsHold(db0, i)
    ensures IsHold(db0, id) <==> id in released
  {
    assert id !in released ==> SameBooking(db0, db, id);
  }

  lemma NothingYet(db: Db, stale: seq<int>)
    ensures OnHold(db, stale[..0]) == {} && forall id :: SameBooking(db, db, id)
  {
  }

  lemma SweepStep(db0: Db, db: Db, db': Db, id: int, released: set<int>)
    requires HoldReleased(db, db', id) && forall i | i != id :: SameBooking(db, db', i)
    requires forall i | i in released :: HoldReleased(db0, db, i)
    requires forall i | i !in released :: SameBooking(db0, db, i)
    ensures id !in released && IsHold(db0, id)
    ensures forall i | i in released + {id} :: HoldReleased(db0, db', i)
    ensures forall i | i !in released + {id} :: SameBooking(db0, db', i)
  {
    assert id in released ==> HoldReleased(db0, db, id);
    assert SameBooking(db0, db, id);
    forall i | i in released
      ensures HoldReleased(db0, db', i)
    {
      assert HoldReleased(db0, db, i) && SameBooking(db, db', i);
    }
    forall i | i !in released + {id}
      ensures SameBooking(db0, db', i)
    {
      assert SameBooking(db0, db, i) && SameBooking(db, db', i);
    }
  }

  lemma CancelSucceeds(db: Db, id: int, business: int, tenant: int, db': Db, r: Outcome)
    requires CancelSpec(db, id, business, tenant, db', r) && InBusiness(db, id, business, tenant) && db.bookings[id].status == Confirmed
    ensures r == Ok
  {
  }

  class Service {
    const tables: Tables
    var db: Db
    var nextId: int

    ghost predicate Valid()
      reads this
    {
      DbOk(tables, db) && NoOverlap(db) && forall id | id in db.bookings :: id < nextId
    }

    constructor (tables: Tables)
      ensures Valid() && db == EMPTY.db && this.tables == tables
    {
      this.tables := tables;
      db := EMPTY.db;
      nextId := 0;
      new;
      EmptyInv(tables);
    }

    /** INSERT, with the exclusion constraint checked on the spot. */
    method Flush(req: Request) returns (ok: bool, id: int)
      requires Valid() && Resolves(tables, req)
      modifies this
      ensures ok <==> !Violates(old(db), Row(req))
      ensures ok ==> id == old(nextId) && db == Insert(old(db), id, req)
      ensures !ok ==> db == old(db)
      ensures Valid()
    {
      id := nextId;
      ok := !Violates(db, Row(req));
      if ok {
        InsertOk(tables, db, id, req);
        db := Insert(db, id, req);
        nextId := nextId + 1;
      }
    }

    /** `create_booking` and `create_pending_payment_hold`: exactly the admissible requests without a conflict
        succeed, each error comes exactly in its case, and the constraint never fires once the check has passed. */
    method Create(req: Request) returns (r: Outcome, id: int)
      requires Valid()
      modifies this
      ensures Valid()
      ensures CreateSpec(tables, old(db), req, db, r, id)
      ensures r == Ok ==> db == Insert(old(db), id, req)
    {
      hide Taken, Stored, FoundByCheck;
      CheckFindsBusyMinute(tables, db, req);
      id := -1;
      if BlankOverride(req) {
        return BadRequestError, id;
      }
      if !PartiesResolve(tables, req) {
        return NotFoundError, id;
      }
      if req.hold && !req.depositRequired {
        return BadRequestError, id;
      }
      if !StaffResolves(tables, req) {
        return NotFoundError, id;
      }
      if FoundByCheck(db, req) {
        return ConflictError, id;
      }
      CheckMatchesConstraint(tables, db, req);
      var ok;
      ok, id := Flush(req);
      InsertStores(old(db), id, req);
      r := if ok then Ok else if req.hold then ConflictError else IntegrityError;
    }

    /** Lock, re-read, decide, commit. */
    method UnderLock(op: Op, id: int, business: int, tenant: int) returns (r: Outcome)
      requires Valid() && (op.Cancel? ==> op.andThen == None)
      modifies this
      ensures Valid() && nextId == old(nextId)
      ensures if InBusiness(old(db), id, business, tenant)
        then (db, Done(r)) == Decide(old(db), op, id, old(db).bookings[id], Lookup(old(db).payments, id))
        else r == NotFoundError && db == old(db)
    {
      if !InBusiness(db, id, business, tenant) {
        return NotFoundError;
      }
      var seen := db.bookings[id];
      var pay := Lookup(db.payments, id);
      var (db', next) := Decide(db, op, id, seen, pay);
      ghost var s := State(db, map[0 := PaymentRead(op, id, seen, pay)], nextId);
      assert Inv(tables, s);
      DecideKeepsInv(tables, s, 0);
      db := db';
      r := next.outcome;
    }

    method ConfirmBookingPayment(id: int, business: int, tenant: int) returns (r: Outcome)
      requires Valid()
      modifies this
      ensures Valid()
      ensures ConfirmSpec(old(db), id, business, tenant, db, r)
    {
      hide Decide, ConfirmSpec;
      assert Lockstep(db, id);
      if InBusiness(db, id, business, tenant) {
        ConfirmDecides(db, id, business, tenant);
      } else {
        NotThere(db, id, business, tenant);
      }
      r := UnderLock(Confirm, id, business, tenant);
    }

    method ExpirePendingPaymentHold(id: int, business: int, tenant: int) returns (r: Outcome)
      requires Valid()
      modifies this
      ensures Valid()
      ensures ExpireSpec(old(db), id, business, tenant, db, r)
    {
      hide Decide, ExpireSpec;
      assert Lockstep(db, id);
      if InBusiness(db, id, business, tenant) {
        ExpireDecides(db, id, business, tenant);
      } else {
        NotThere(db, id, business, tenant);
      }
      r := UnderLock(Expire, id, business, tenant);
    }

    method CancelBooking(id: int, business: int, tenant: int) returns (r: Outcome)
      requires Valid()
      modifies this
      ensures Valid()
      ensures CancelSpec(old(db), id, business, tenant, db, r)
    {
      hide Decide, CancelSpec;
      if InBusiness(db, id, business, tenant) {
        CancelDecides(db, id, business, tenant, None);
      } else {
        NotThere(db, id, business, tenant);
      }
      r := UnderLock(Cancel(None), id, business, tenant);
    }

    method RefundBookingPayment(id: int, business: int, tenant: int) returns (r: Outcome)
      requires Valid()
      modifies this
      ensures Valid()
      ensures RefundSpec(old(db), id, business, tenant, db, r)
    {
      Refunds(db, id);
      if !InBusiness(db, id, business, tenant) || id !in db.payments {
        return NotFoundError;
      }
      if db.payments[id] != Succeeded {
        return ConflictError;
      }
      ghost var s := State(db, map[0 := Refunding(id)], nextId);
      assert Inv(tables, s);
      RefundKeepsInv(tables, s, 0);
      db := RecordRefund(db, id);
      r := Ok;
    }

    /** Two committed transactions: when the create fails, the old booking is already cancelled. */
    method RescheduleBooking(id: int, business: int, tenant: int, newStart: int) returns (r: Outcome, newId: int)
      requires Valid()
      modifies this
      ensures Valid()
      ensures RescheduleSpec(tables, old(db), id, business, tenant, newStart, db, r, newId)
    {
      newId := -1;
      if !InBusiness(db, id, business, tenant) {
        return NotFoundError, newId;
      }
      var b := db.bookings[id];
      if b.status != Confirmed {
        return ConflictError, newId;
      }
      assert RowOk(tables, b);
      AgainRepeats(tables, b, newStart);
      hide CreateSpec, CancelSpec, RescheduleSpec, Again, Repeats, Admissible, Insert;
      var c := CancelBooking(id, business, tenant);
      CancelSucceeds(old(db), id, business, tenant, db, c);
      ghost var mid := db;
      var req := Again(tables, b, newStart);
      r, newId := Create(req);
      RescheduleAdds(tables, old(db), id, business, tenant, newStart, mid, req, db, r, newId);
    }

    /** The maintenance sweep over a snapshot of candidates that may be out of date: it releases exactly
        the candidates still on hold, counts them, and leaves every other booking alone. */
    method ExpireStalePaymentHolds(stale: seq<int>) returns (expired: nat)
      requires Valid()
      modifies this
      ensures Valid()
      ensures expired == |OnHold(old(db), stale)|
      ensures forall id | id in OnHold(old(db), stale) :: HoldReleased(old(db), db, id)
      ensures forall id | id !in OnHold(old(db), stale) :: SameBooking(old(db), db, id)
    {
      hide *;
      NothingYet(db, stale);
      expired := 0;
      ghost var released: set<int> := {};
      for i := 0 to |stale|
        invariant Valid()
        invariant released == OnHold(old(db), stale[..i]) && expired == |released|
        invariant forall id | id in released :: HoldReleased(old(db), db, id) && IsHold(old(db), id)
        invariant forall id | id !in released :: SameBooking(old(db), db, id)
      {
        var id := stale[i];
        assert stale[..i + 1] == stale[..i] + [id];
        OnHoldSnoc(old(db), stale[..i], id);
        ghost var before := db;
        var released1 := TryExpire(id);
        if released1 {
          SweepStep(old(db), before, db, id, released);
          expired := expired + 1;
          released := released + {id};
        } else {
          SkipStep(old(db), before, id, released);
          assert released + {id} == released || !IsHold(old(db), id);
        }
      }
      assert stale[..|stale|] == stale;
    }

    /** One candidate of the sweep; a conflict is skipped. */
    method TryExpire(id: int) returns (done: bool)
      requires Valid()
      modifies this
      ensures Valid()
      ensures done <==> IsHold(old(db), id)
      ensures done ==> HoldReleased(old(db), db, id) && forall i | i != id :: SameBooking(old(db), db, i)
      ensures !done ==> db == old(db)
    {
      done := false;
      if id in db.bookings {
        var r := ExpirePendingPaymentHold(id, db.bookings[id].business, db.bookings[id].tenant);
        done := r == Ok;
        if done {
          ReleaseEffect(old(db), id, db);
        }
      }
    }
  }
}
