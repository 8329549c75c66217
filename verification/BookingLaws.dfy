/** Safety of every interleaving of booking transactions. */
module BookingLaws {
  import opened Domain
  import opened Bookings

  /** Replacing one transaction's standing, without touching the database. */
  lemma MoveTxn(tables: Tables, s: State, t: int, next: Txn, s': State)
    requires Inv(tables, s) && s' == s.(txns := s.txns[t := next])
    requires TxnOk(tables, s, next)
    requires forall u | u in s.txns && u != t :: Compatible(next, s.txns[u]) && Compatible(s.txns[u], next)
    ensures Inv(tables, s')
  {
    forall u | u in s'.txns
      ensures TxnOk(tables, s', s'.txns[u])
    {
      SameDb(tables, s, s', s'.txns[u]);
    }
  }

  lemma SameDb(tables: Tables, s: State, s': State, txn: Txn)
    requires s'.db == s.db && s.nextId <= s'.nextId && TxnOk(tables, s, txn)
    ensures TxnOk(tables, s', txn)
  {
  }

  lemma FlushKeepsInv(tables: Tables, s: State, t: int)
    requires Inv(tables, s) && t in s.txns && s.txns[t].Checked?
    ensures Inv(tables, AdvanceTxn(tables, s, t))
  {
    var req := s.txns[t].req;
    var s' := AdvanceTxn(tables, s, t);
    if !MustWait(s, t, Row(req)) {
      if Violates(s.db, Row(req)) {
        MoveTxn(tables, s, t, s'.txns[t], s');
      } else {
        var s1 := s.(nextId := s.nextId + 1);
        forall u | u in s.txns
          ensures TxnOk(tables, s1, s.txns[u])
        {
          SameDb(tables, s, s1, s.txns[u]);
        }
        assert Inv(tables, s1);
        forall u | u in s.txns && u != t
          ensures Compatible(Flushed(req, s.nextId), s.txns[u]) && Compatible(s.txns[u], Flushed(req, s.nextId))
        {
          assert TxnOk(tables, s, s.txns[u]);
          if s.txns[u].Flushed? {
            assert !Excluded(Row(s.txns[u].req), Row(req));
          }
        }
        MoveTxn(tables, s1, t, Flushed(req, s.nextId), s');
      }
    }
  }

  /** One insert, seen from the database. */
  lemma InsertOk(tables: Tables, db: Db, id: int, req: Request)
    requires DbOk(tables, db) && NoOverlap(db) && id !in db.bookings && Resolves(tables, req) && !Violates(db, Row(req))
    ensures DbOk(tables, Insert(db, id, req)) && NoOverlap(Insert(db, id, req))
  {
    var db' := Insert(db, id, req);
    forall i
      ensures Lockstep(db', i)
    {
      assert Lockstep(db, i);
    }
    forall i, j | i in db'.bookings && j in db'.bookings && i != j
      ensures !Excluded(db'.bookings[i], db'.bookings[j])
    {
      if i in db.bookings && j in db.bookings && i != id && j != id {
        assert !Excluded(db.bookings[i], db.bookings[j]);
      }
    }
  }

  lemma InsertKeepsTxn(tables: Tables, s: State, id: int, req: Request, txn: Txn, s': State)
    requires s'.db == Insert(s.db, id, req) && s'.nextId == s.nextId && TxnOk(tables, s, txn)
    requires Lockstep(s.db, id) && id !in s.db.bookings
    requires txn.Flushed? ==> txn.id != id && !Excluded(Row(req), Row(txn.req))
    ensures TxnOk(tables, s', txn)
  {
  }

  lemma CommitInsertKeepsInv(tables: Tables, s: State, t: int)
    requires Inv(tables, s) && t in s.txns && s.txns[t].Flushed?
    ensures Inv(tables, AdvanceTxn(tables, s, t))
  {
    var req, id := s.txns[t].req, s.txns[t].id;
    var s' := AdvanceTxn(tables, s, t);
    assert TxnOk(tables, s, s.txns[t]);
    InsertOk(tables, s.db, id, req);
    forall u | u in s'.txns
      ensures TxnOk(tables, s', s'.txns[u])
    {
      if u != t {
        assert Compatible(s.txns[t], s.txns[u]);
        assert Lockstep(s.db, id);
        InsertKeepsTxn(tables, s, id, req, s.txns[u], s');
      }
    }
  }

  /** Changing the status of a booking to confirmed or cancelled never creates an overlap. */
  lemma StatusOk(db: Db, id: int, status: BookingStatus, db': Db)
    requires NoOverlap(db) && id in db.bookings && status != PendingPayment
    requires db.bookings[id].status == Cancelled ==> status == Cancelled
    requires db'.bookings == db.bookings[id := db.bookings[id].(status := status)]
    ensures NoOverlap(db')
    ensures forall row: Booking :: !Violates(db, row) ==> !Violates(db', row)
  {
    forall i, j | i in db'.bookings && j in db'.bookings && i != j
      ensures !Excluded(db'.bookings[i], db'.bookings[j])
    {
      assert !Excluded(db.bookings[i], db.bookings[j]);
    }
    forall row: Booking | !Violates(db, row)
      ensures !Violates(db', row)
    {
      forall i | i in db'.bookings
        ensures !Excluded(db'.bookings[i], row)
      {
        assert !Excluded(db.bookings[i], row);
      }
    }
  }

  lemma ConfirmLockstep(db: Db, id: int, i: int)
    requires Lockstep(db, i) && id in db.bookings
    requires Lookup(db.payments, id) == Some(Pending) && Lockstep(db, id)
    ensures Lockstep(ConfirmPayment(db, id, db.bookings[id]), i)
  {
  }

  lemma ReleaseLockstep(db: Db, id: int, pay: Option<PaymentStatus>, action: AuditAction, i: int)
    requires Lockstep(db, i) && id in db.bookings && Lockstep(db, id) && db.bookings[id].status != Cancelled
    requires pay == Some(Pending) <==> Lookup(db.payments, id) == Some(Pending)
    requires action == HoldExpired ==> pay == Some(Pending)
    ensures Lockstep(Release(db, id, db.bookings[id], pay, action), i)
  {
  }

  lemma DecideOk(tables: Tables, s: State, t: int)
    requires Inv(tables, s) && t in s.txns && s.txns[t].PaymentRead?
    ensures var x := s.txns[t]; DbOk(tables, Decide(s.db, x.op, x.id, x.seen, x.pay).0)
  {
    var x := s.txns[t];
    assert TxnOk(tables, s, x) && Lockstep(s.db, x.id);
    var db' := Decide(s.db, x.op, x.id, x.seen, x.pay).0;
    forall i
      ensures Lockstep(db', i)
    {
      assert Lockstep(s.db, i);
      if db' == s.db {
      } else if x.op.Confirm? {
        ConfirmLockstep(s.db, x.id, i);
      } else {
        ReleaseLockstep(s.db, x.id, x.pay, if x.op.Expire? then HoldExpired else BookingCancelled, i);
      }
    }
  }

  /** The decision changes only the locked booking, and never makes it pending. */
  lemma DecideFrame(tables: Tables, s: State, t: int)
    requires Inv(tables, s) && t in s.txns && s.txns[t].PaymentRead?
    ensures var x := s.txns[t]; var db' := Decide(s.db, x.op, x.id, x.seen, x.pay).0;
      db' == s.db || exists status ::
        && status != PendingPayment && (x.seen.status == Cancelled ==> status == Cancelled)
        && db'.bookings == s.db.bookings[x.id := s.db.bookings[x.id].(status := status)]
        && (forall i | i != x.id :: Lookup(db'.payments, i) == Lookup(s.db.payments, i))
        && (db'.payments == s.db.payments || Lookup(s.db.payments, x.id) == Some(Pending))
  {
    var x := s.txns[t];
    assert TxnOk(tables, s, x);
    assert Lockstep(s.db, x.id);
    hide Inv;
    var db' := Decide(s.db, x.op, x.id, x.seen, x.pay).0;
    if db' != s.db {
      var status := db'.bookings[x.id].status;
      assert db'.bookings == s.db.bookings[x.id := s.db.bookings[x.id].(status := status)];
    }
  }

  lemma DecideKeepsTxn(tables: Tables, s: State, s': State, x: Txn, txn: Txn)
    requires x.PaymentRead? && TxnOk(tables, s, x) && TxnOk(tables, s, txn) && Compatible(x, txn)
    requires s'.nextId == s.nextId && x.id in s'.db.bookings && s'.db.bookings[x.id].status != PendingPayment
    requires s'.db.bookings == s.db.bookings[x.id := s'.db.bookings[x.id]]
    requires forall i | i != x.id :: Lookup(s'.db.payments, i) == Lookup(s.db.payments, i)
    requires s'.db.payments == s.db.payments || Lookup(s.db.payments, x.id) == Some(Pending)
    requires forall row: Booking :: !Violates(s.db, row) ==> !Violates(s'.db, row)
    ensures TxnOk(tables, s', txn)
  {
    hide Violates;
  }

  /** After its decision a transaction holds no lock and no uncommitted insert. */
  lemma DecideLetsGo(tables: Tables, s: State, t: int)
    requires t in s.txns && s.txns[t].PaymentRead?
    ensures var x, s' := s.txns[t], AdvanceTxn(tables, s, t);
      && s' == s.(db := Decide(s.db, x.op, x.id, x.seen, x.pay).0, txns := s.txns[t := s'.txns[t]])
      && (s'.txns[t].Done? || s'.txns[t].Checking?)
  {
  }

  /** A decision that changes the database keeps what any other transaction knows, and creates no overlap. */
  lemma DecideKeepsOther(tables: Tables, s: State, t: int, u: int)
    requires Inv(tables, s) && t in s.txns && s.txns[t].PaymentRead? && u in s.txns && u != t
    requires AdvanceTxn(tables, s, t).db != s.db
    ensures TxnOk(tables, AdvanceTxn(tables, s, t), s.txns[u])
  {
    var x := s.txns[t];
    assert TxnOk(tables, s, x) && TxnOk(tables, s, s.txns[u]) && Compatible(x, s.txns[u]);
    DecideFrame(tables, s, t);
    DecideLetsGo(tables, s, t);
    var s' := AdvanceTxn(tables, s, t);
    StatusOk(s.db, x.id, s'.db.bookings[x.id].status, s'.db);
    hide Inv, Decide, AdvanceTxn, Excluded, Violates, NoOverlap;
    DecideKeepsTxn(tables, s, s', x, s.txns[u]);
  }

  lemma DecideKeepsApart(tables: Tables, s: State, t: int)
    requires Inv(tables, s) && t in s.txns && s.txns[t].PaymentRead? && AdvanceTxn(tables, s, t).db != s.db
    ensures NoOverlap(AdvanceTxn(tables, s, t).db) && forall id | id in AdvanceTxn(tables, s, t).db.bookings :: id < s.nextId
  {
    var x := s.txns[t];
    assert TxnOk(tables, s, x);
    DecideFrame(tables, s, t);
    DecideLetsGo(tables, s, t);
    hide Decide, AdvanceTxn, Excluded, Violates, DbOk, Compatible;
    var s' := AdvanceTxn(tables, s, t);
    StatusOk(s.db, x.id, s'.db.bookings[x.id].status, s'.db);
  }

  lemma DecideKeepsInv(tables: Tables, s: State, t: int)
    requires Inv(tables, s) && t in s.txns && s.txns[t].PaymentRead?
    ensures Inv(tables, AdvanceTxn(tables, s, t))
  {
    hide Decide, AdvanceTxn, DbOk, TxnOk, NoOverlap, Excluded;
    DecideOk(tables, s, t);
    DecideLetsGo(tables, s, t);
    var s' := AdvanceTxn(tables, s, t);
    DoneIsOk(tables, s', s'.txns[t]);
    if s'.db == s.db {
      DoneIsOk(tables, s, s'.txns[t]);
      MoveTxn(tables, s, t, s'.txns[t], s');
    } else {
      DecideKeepsApart(tables, s, t);
      forall u | u in s'.txns && u != t
        ensures TxnOk(tables, s', s'.txns[u])
      {
        DecideKeepsOther(tables, s, t, u);
      }
    }
  }

  lemma DoneIsOk(tables: Tables, s: State, txn: Txn)
    requires txn.Done? || txn.Checking?
    ensures TxnOk(tables, s, txn)
  {
  }

  lemma RefundKeepsTxn(tables: Tables, s: State, id: int, txn: Txn)
    requires TxnOk(tables, s, txn) && (Lookup(s.db.payments, id) == Some(Succeeded) || Lookup(s.db.payments, id) == Some(Refunded))
    ensures TxnOk(tables, s.(db := RecordRefund(s.db, id)), txn)
  {
    assert forall row :: Violates(RecordRefund(s.db, id), row) == Violates(s.db, row);
    hide Violates;
  }

  lemma RefundDbOk(tables: Tables, s: State, id: int)
    requires DbOk(tables, s.db) && NoOverlap(s.db)
    requires Lookup(s.db.payments, id) == Some(Succeeded) || Lookup(s.db.payments, id) == Some(Refunded)
    ensures DbOk(tables, RecordRefund(s.db, id)) && NoOverlap(RecordRefund(s.db, id))
  {
    var db' := RecordRefund(s.db, id);
    forall i
      ensures Lockstep(db', i)
    {
      assert Lockstep(s.db, i);
    }
  }

  lemma RefundKeepsInv(tables: Tables, s: State, t: int)
    requires Inv(tables, s) && t in s.txns && s.txns[t].Refunding?
    ensures Inv(tables, AdvanceTxn(tables, s, t))
  {
    var id := s.txns[t].id;
    var s' := AdvanceTxn(tables, s, t);
    var s1 := s.(db := s'.db);
    assert TxnOk(tables, s, s.txns[t]);
    assert s' == s.(db := RecordRefund(s.db, id), txns := s.txns[t := Done(Ok)]);
    RefundDbOk(tables, s, id);
    hide AdvanceTxn, DbOk, NoOverlap, RecordRefund;
    assert s'.db.bookings == s.db.bookings by { RefundLeavesBookings(s.db, id); }
    forall u | u in s'.txns
      ensures TxnOk(tables, s', s'.txns[u])
    {
      if u != t {
        RefundKeepsTxn(tables, s, id, s.txns[u]);
        SameDb(tables, s1, s', s.txns[u]);
      }
    }
  }

  lemma RefundLeavesBookings(db: Db, id: int)
    ensures RecordRefund(db, id).bookings == db.bookings
  {
  }

  lemma LockKeepsInv(tables: Tables, s: State, t: int)
    requires Inv(tables, s) && t in s.txns && (s.txns[t].Waiting? || s.txns[t].Locked? || s.txns[t].Checking?)
    ensures Inv(tables, AdvanceTxn(tables, s, t))
  {
    var s' := AdvanceTxn(tables, s, t);
    assert TxnOk(tables, s, s.txns[t]);
    if s' != s {
      forall u | u in s.txns && u != t
        ensures Compatible(s'.txns[t], s.txns[u]) && Compatible(s.txns[u], s'.txns[t])
      {
        assert Compatible(s.txns[t], s.txns[u]);
      }
      MoveTxn(tables, s, t, s'.txns[t], s');
    }
  }

  lemma StepKeepsInv(tables: Tables, s: State, t: int, a: Action)
    requires Inv(tables, s)
    ensures Inv(tables, Step(tables, s, t, a))
  {
    hide Inv;
    var s' := Step(tables, s, t, a);
    match a
    case Begin(call) =>
      if s' != s {
        BeginKeepsInv(tables, s, t, call);
      }
    case Abort =>
      if t in s.txns {
        AbortKeepsInv(tables, s, t);
      }
    case Advance =>
      if t in s.txns {
        match s.txns[t]
        case Done(_) =>
        case Checked(_) => FlushKeepsInv(tables, s, t);
        case Flushed(_, _) => CommitInsertKeepsInv(tables, s, t);
        case PaymentRead(_, _, _, _) => DecideKeepsInv(tables, s, t);
        case Refunding(_) => RefundKeepsInv(tables, s, t);
        case _ => LockKeepsInv(tables, s, t);
      }
  }

  lemma BeginKeepsInv(tables: Tables, s: State, t: int, call: Call)
    requires Inv(tables, s) && (t in s.txns ==> s.txns[t].Done?)
    ensures Inv(tables, s.(txns := s.txns[t := Start(tables, s, call)]))
  {
    MoveTxn(tables, s, t, Start(tables, s, call), s.(txns := s.txns[t := Start(tables, s, call)]));
  }

  lemma AbortKeepsInv(tables: Tables, s: State, t: int)
    requires Inv(tables, s) && t in s.txns
    ensures Inv(tables, s.(txns := s.txns[t := Done(Aborted)]))
  {
    MoveTxn(tables, s, t, Done(Aborted), s.(txns := s.txns[t := Done(Aborted)]));
  }

  lemma {:induction false} RunKeepsInv(tables: Tables, s: State, trace: seq<Event>)
    requires Inv(tables, s)
    ensures Inv(tables, Run(tables, s, trace))
  {
    hide Inv;
    if trace != [] {
      var n := |trace| - 1;
      RunKeepsInv(tables, s, trace[..n]);
      StepKeepsInv(tables, Run(tables, s, trace[..n]), trace[n].txn, trace[n].action);
    }
  }

  lemma EmptyInv(tables: Tables)
    ensures Inv(tables, EMPTY)
  {
  }

  // ---- what every interleaving guarantees ---------------------------------

  /** Active bookings of one staff member are disjoint half-open intervals, in every interleaving. */
  lemma NeverDoubleBooked(tables: Tables, trace: seq<Event>, i: int, j: int)
    requires var db := Run(tables, EMPTY, trace).db;
      && i in db.bookings && j in db.bookings && i != j && Active(db.bookings[i]) && Active(db.bookings[j])
      && db.bookings[i].staff.Some? && db.bookings[i].staff == db.bookings[j].staff
    ensures var db := Run(tables, EMPTY, trace).db;
      db.bookings[i].endsAt <= db.bookings[j].startsAt || db.bookings[j].endsAt <= db.bookings[i].startsAt
  {
    hide Run;
    EmptyInv(tables);
    RunKeepsInv(tables, EMPTY, trace);
    var db := Run(tables, EMPTY, trace).db;
    assert !Excluded(db.bookings[i], db.bookings[j]);
  }

  /** The application check and the exclusion constraint agree on every state the service can reach. */
  lemma CheckMatchesConstraint(tables: Tables, db: Db, req: Request)
    requires DbOk(tables, db) && Resolves(tables, req)
    ensures FoundByCheck(db, req) <==> Violates(db, Row(req))
  {
    if req.staff.Some? {
      forall id | id in db.bookings && db.bookings[id].staff == req.staff
        ensures db.bookings[id].business == req.business
      {
        assert RowOk(tables, db.bookings[id]);
      }
    }
    if FoundByCheck(db, req) {
      var id :| id in db.bookings && db.bookings[id].staff == req.staff && db.bookings[id].business == req.business
        && Active(db.bookings[id]) && Overlaps(db.bookings[id], req.startsAt, req.startsAt + req.duration);
      assert Excluded(db.bookings[id], Row(req));
    }
    if Violates(db, Row(req)) {
      var id :| id in db.bookings && Excluded(db.bookings[id], Row(req));
      assert Overlaps(db.bookings[id], req.startsAt, req.startsAt + req.duration);
    }
  }

  /** Run without interference, a create or hold that passes the check is never refused by the constraint. */
  lemma SerialInsertNeverRefused(tables: Tables, s: State, t: int)
    requires Inv(tables, s) && t in s.txns && s.txns[t].Checking?
    requires forall u | u in s.txns && u != t :: !s.txns[u].Flushed?
    requires AdvanceTxn(tables, s, t).txns[t].Checked?
    ensures var s1 := AdvanceTxn(tables, s, t); AdvanceTxn(tables, s1, t).txns[t] == Flushed(s.txns[t].req, s.nextId)
  {
    CheckMatchesConstraint(tables, s.db, s.txns[t].req);
  }

  /** Booking and payment of every id agree, in every interleaving. */
  lemma BookingAndPaymentAgree(tables: Tables, trace: seq<Event>, id: int)
    ensures var db := Run(tables, EMPTY, trace).db; var pay := Lookup(db.payments, id);
      && (pay.Some? ==> id in db.bookings)
      && (id in db.bookings ==>
          && (db.bookings[id].status == PendingPayment <==> pay == Some(Pending))
          && (pay == Some(Failed) ==> db.bookings[id].status == Cancelled)
          && (pay == Some(Succeeded) || pay == Some(Refunded) ==> db.bookings[id].status != PendingPayment))
  {
    hide Run;
    EmptyInv(tables);
    RunKeepsInv(tables, EMPTY, trace);
    assert Lockstep(Run(tables, EMPTY, trace).db, id);
  }

  /** How one booking can change between two states of a run. */
  predicate Evolves(db: Db, db': Db, id: int) {
    && (id in db.bookings ==>
        && id in db'.bookings
        && db'.bookings[id] == db.bookings[id].(status := db'.bookings[id].status)
        && (db.bookings[id].status == Cancelled ==> db'.bookings[id].status == Cancelled)
        && (db.bookings[id].status == Confirmed ==> db'.bookings[id].status != PendingPayment))
    && (Lookup(db.payments, id) == Some(Failed) ==> Lookup(db'.payments, id) == Some(Failed))
    && (Lookup(db.payments, id) == Some(Succeeded) ==> Lookup(db'.payments, id) in {Some(Succeeded), Some(Refunded)})
    && (Lookup(db.payments, id) == Some(Refunded) ==> Lookup(db'.payments, id) == Some(Refunded))
    && (AuditEntry(HoldExpired, id) in db.audit ==> AuditEntry(HoldExpired, id) in db'.audit)
  }

  /** Only three kinds of step write to the database. */
  lemma QuietStep(tables: Tables, s: State, t: int, a: Action)
    requires a.Advance? && t in s.txns ==> !(s.txns[t].Flushed? || s.txns[t].PaymentRead? || s.txns[t].Refunding?)
    ensures Step(tables, s, t, a).db == s.db
  {
  }

  lemma DecideEvolves(tables: Tables, s: State, txn: Txn, id: int)
    requires TxnOk(tables, s, txn) && txn.PaymentRead? && Lockstep(s.db, txn.id)
    ensures Evolves(s.db, Decide(s.db, txn.op, txn.id, txn.seen, txn.pay).0, id)
  {
    var db' := Decide(s.db, txn.op, txn.id, txn.seen, txn.pay).0;
    PendingTogether(s.db, txn.id);
    hide Lockstep, Evolves;
    if db' == s.db {
      NoChangeEvolves(s.db, id);
    } else if txn.op.Confirm? {
      ConfirmEvolves(s.db, txn.id, id);
    } else {
      ReleaseEvolves(s.db, txn.id, txn.pay, if txn.op.Expire? then HoldExpired else BookingCancelled, id);
    }
  }

  lemma NoChangeEvolves(db: Db, id: int)
    ensures Evolves(db, db, id)
  {
  }

  lemma ConfirmEvolves(db: Db, id: int, i: int)
    requires id in db.bookings && db.bookings[id].status == PendingPayment && Lookup(db.payments, id) == Some(Pending)
    ensures Evolves(db, ConfirmPayment(db, id, db.bookings[id]), i)
  {
  }

  lemma ReleaseEvolves(db: Db, id: int, pay: Option<PaymentStatus>, action: AuditAction, i: int)
    requires id in db.bookings && (pay == Some(Pending) ==> Lookup(db.payments, id) == Some(Pending))
    ensures Evolves(db, Release(db, id, db.bookings[id], pay, action), i)
  {
  }

  lemma PendingTogether(db: Db, id: int)
    requires Lockstep(db, id) && id in db.bookings
    ensures Lookup(db.payments, id) == Some(Pending) <==> db.bookings[id].status == PendingPayment
  {
  }

  lemma InsertEvolves(db: Db, i: int, req: Request, id: int)
    requires Lockstep(db, i) && i !in db.bookings
    ensures Evolves(db, Insert(db, i, req), id)
  {
  }

  lemma RefundEvolves(db: Db, i: int, id: int)
    requires Lookup(db.payments, i) == Some(Succeeded) || Lookup(db.payments, i) == Some(Refunded)
    ensures Evolves(db, RecordRefund(db, i), id)
  {
  }

  lemma StepEvolves(tables: Tables, s: State, t: int, a: Action, id: int)
    requires Inv(tables, s)
    ensures Evolves(s.db, Step(tables, s, t, a).db, id)
  {
    if a.Advance? && t in s.txns && (s.txns[t].Flushed? || s.txns[t].PaymentRead? || s.txns[t].Refunding?) {
      var txn := s.txns[t];
      assert TxnOk(tables, s, txn) && Lockstep(s.db, txn.id);
      hide Inv, Decide, Evolves, Insert, RecordRefund, Lockstep;
      if txn.PaymentRead? {
        DecideEvolves(tables, s, txn, id);
      } else if txn.Flushed? {
        InsertEvolves(s.db, txn.id, txn.req, id);
      } else {
        RefundEvolves(s.db, txn.id, id);
      }
    } else {
      QuietStep(tables, s, t, a);
      NoChangeEvolves(s.db, id);
    }
  }

  lemma {:induction false} RunEvolves(tables: Tables, s: State, trace: seq<Event>, id: int)
    requires Inv(tables, s)
    ensures Evolves(s.db, Run(tables, s, trace).db, id)
  {
    if trace != [] {
      hide Inv, Step;
      var n := |trace| - 1;
      RunEvolves(tables, s, trace[..n], id);
      RunKeepsInv(tables, s, trace[..n]);
      StepEvolves(tables, Run(tables, s, trace[..n]), trace[n].txn, trace[n].action, id);
    }
  }

  /** A cancelled booking stays cancelled whatever runs afterwards. */
  lemma CancelledIsAbsorbing(tables: Tables, before: seq<Event>, after: seq<Event>, id: int)
    requires var db := Run(tables, EMPTY, before).db; id in db.bookings && db.bookings[id].status == Cancelled
    ensures var db := Run(tables, Run(tables, EMPTY, before), after).db; id in db.bookings && db.bookings[id].status == Cancelled
  {
    hide Run, Inv;
    EmptyInv(tables);
    RunKeepsInv(tables, EMPTY, before);
    RunEvolves(tables, Run(tables, EMPTY, before), after, id);
  }

  lemma {:induction false} RunConcat(tables: Tables, s: State, a: seq<Event>, b: seq<Event>)
    ensures Run(tables, s, a + b) == Run(tables, Run(tables, s, a), b)
  {
    if b == [] {
      assert a + b == a;
    } else {
      var n := |b| - 1;
      RunConcat(tables, s, a, b[..n]);
      assert (a + b)[..|a + b| - 1] == a + b[..n];
    }
  }

  /** The state after the first `k` events is on the way to the state after all of them. */
  lemma PrefixEvolves(tables: Tables, trace: seq<Event>, k: nat, id: int)
    requires k <= |trace|
    ensures Evolves(Run(tables, EMPTY, trace[..k]).db, Run(tables, EMPTY, trace).db, id)
  {
    hide Run, Inv;
    EmptyInv(tables);
    RunKeepsInv(tables, EMPTY, trace[..k]);
    assert trace == trace[..k] + trace[k..];
    RunConcat(tables, EMPTY, trace[..k], trace[k..]);
    RunEvolves(tables, Run(tables, EMPTY, trace[..k]), trace[k..], id);
  }

  /** No hold is ever both paid and expired, at whatever two moments of a run one looks. */
  lemma NeverPaidAndExpired(tables: Tables, trace: seq<Event>, j: nat, k: nat, id: int)
    requires j <= |trace| && k <= |trace|
    ensures !(Lookup(Run(tables, EMPTY, trace[..j]).db.payments, id) == Some(Succeeded) &&
              AuditEntry(HoldExpired, id) in Run(tables, EMPTY, trace[..k]).db.audit)
  {
    hide Run;
    PrefixEvolves(tables, trace, j, id);
    PrefixEvolves(tables, trace, k, id);
    EmptyInv(tables);
    RunKeepsInv(tables, EMPTY, trace);
    assert Lockstep(Run(tables, EMPTY, trace).db, id);
  }

  /** The booking was confirmed at some moment of the run. */
  ghost predicate EverConfirmed(tables: Tables, trace: seq<Event>, id: int) {
    exists k | 0 <= k <= |trace| :: IsConfirmed(Run(tables, EMPTY, trace[..k]).db, id)
  }

  predicate IsConfirmed(db: Db, id: int) {
    id in db.bookings && db.bookings[id].status == Confirmed
  }

  predicate Announced(db: Db, id: int) {
    db.calendarEvents[id] == 1 && db.confirmations[id] == 1
  }

  predicate Unannounced(db: Db, id: int) {
    db.calendarEvents[id] == 0 && db.confirmations[id] == 0
  }

  lemma AnnouncedOrNot(tables: Tables, s: State, id: int)
    requires Inv(tables, s)
    ensures Announced(s.db, id) || Unannounced(s.db, id)
    ensures IsConfirmed(s.db, id) ==> Announced(s.db, id)
  {
    assert Lockstep(s.db, id);
  }

  /** An id is announced when it becomes confirmed, and never announced again. */
  predicate Announces(db: Db, db': Db, id: int) {
    && (Announced(db, id) ==> Announced(db', id))
    && (Unannounced(db, id) && Announced(db', id) ==> IsConfirmed(db', id))
  }

  lemma InsertAnnounces(db: Db, i: int, req: Request, id: int)
    requires Lockstep(db, i) && i !in db.bookings
    ensures Announces(db, Insert(db, i, req), id)
  {
  }

  lemma DecideAnnounces(tables: Tables, s: State, x: Txn, id: int)
    requires x.PaymentRead? && TxnOk(tables, s, x) && Lockstep(s.db, x.id)
    ensures Announces(s.db, Decide(s.db, x.op, x.id, x.seen, x.pay).0, id)
  {
  }

  lemma StepAnnounces(tables: Tables, s: State, t: int, a: Action, id: int)
    requires Inv(tables, s)
    ensures var db' := Step(tables, s, t, a).db;
      && (Announced(s.db, id) ==> Announced(db', id))
      && (Unannounced(s.db, id) && Announced(db', id) ==> IsConfirmed(db', id))
  {
    if a.Advance? && t in s.txns && (s.txns[t].Flushed? || s.txns[t].PaymentRead? || s.txns[t].Refunding?) {
      var x := s.txns[t];
      assert TxnOk(tables, s, x) && Lockstep(s.db, x.id);
      hide Inv, Decide, Insert;
      if x.Flushed? {
        InsertAnnounces(s.db, x.id, x.req, id);
      } else if x.PaymentRead? {
        DecideAnnounces(tables, s, x, id);
      }
    } else {
      QuietStep(tables, s, t, a);
    }
  }

  lemma EverConfirmedSnoc(tables: Tables, trace: seq<Event>, id: int)
    requires trace != []
    ensures EverConfirmed(tables, trace, id) <==>
      EverConfirmed(tables, trace[..|trace| - 1], id) || IsConfirmed(Run(tables, EMPTY, trace).db, id)
  {
    hide Run, IsConfirmed;
    var n := |trace| - 1;
    var init := trace[..n];
    assert trace[..|trace|] == trace;
    assert forall k | 0 <= k <= n :: init[..k] == trace[..k];
    if EverConfirmed(tables, trace, id) {
      var k :| 0 <= k <= |trace| && IsConfirmed(Run(tables, EMPTY, trace[..k]).db, id);
      assert k <= n ==> IsConfirmed(Run(tables, EMPTY, init[..k]).db, id);
    }
    if EverConfirmed(tables, init, id) {
      var k :| 0 <= k <= n && IsConfirmed(Run(tables, EMPTY, init[..k]).db, id);
      assert IsConfirmed(Run(tables, EMPTY, trace[..k]).db, id);
    }
  }

  lemma RunSnoc(tables: Tables, s: State, trace: seq<Event>)
    requires trace != []
    ensures var n := |trace| - 1;
      Run(tables, s, trace) == Step(tables, Run(tables, s, trace[..n]), trace[n].txn, trace[n].action)
  {
  }

  lemma NothingConfirmedYet(tables: Tables, id: int)
    ensures !EverConfirmed(tables, [], id) && Unannounced(Run(tables, EMPTY, []).db, id)
  {
    var none: seq<Event> := [];
    assert forall k | 0 <= k <= 0 :: none[..k] == [];
  }

  /** One calendar event and one confirmation batch if the booking was ever confirmed, none otherwise,
      whatever the number of redelivered payment events in the run. */
  lemma {:induction false} AnnouncedIffEverConfirmed(tables: Tables, trace: seq<Event>, id: int)
    ensures EverConfirmed(tables, trace, id) ==> Announced(Run(tables, EMPTY, trace).db, id)
    ensures !EverConfirmed(tables, trace, id) ==> Unannounced(Run(tables, EMPTY, trace).db, id)
  {
    hide *;
    EmptyInv(tables);
    RunKeepsInv(tables, EMPTY, trace);
    AnnouncedOrNot(tables, Run(tables, EMPTY, trace), id);
    if trace == [] {
      NothingConfirmedYet(tables, id);
    } else {
      var n := |trace| - 1;
      AnnouncedIffEverConfirmed(tables, trace[..n], id);
      EverConfirmedSnoc(tables, trace, id);
      RunKeepsInv(tables, EMPTY, trace[..n]);
      StepAnnounces(tables, Run(tables, EMPTY, trace[..n]), trace[n].txn, trace[n].action, id);
      RunSnoc(tables, EMPTY, trace);
    }
  }

  /** The cancelling half of a reschedule never releases a payment hold. */
  lemma RescheduleSparesHolds(tables: Tables, trace: seq<Event>, t: int)
    requires var s := Run(tables, EMPTY, trace); t in s.txns && s.txns[t].PaymentRead? && s.txns[t].op.Cancel? && s.txns[t].op.andThen.Some?
    ensures var s := Run(tables, EMPTY, trace); var id := s.txns[t].id;
      id in s.db.bookings && s.db.bookings[id].status != PendingPayment
  {
    hide Run;
    EmptyInv(tables);
    RunKeepsInv(tables, EMPTY, trace);
    var s := Run(tables, EMPTY, trace);
    assert TxnOk(tables, s, s.txns[t]);
  }

  // ---- losing a race ------------------------------------------------------

  /** Since the check, another transaction has committed a booking that excludes the requested one. */
  ghost predicate RivalCommitted(before: Db, now: Db, req: Request) {
    exists id :: id in now.bookings && id !in before.bookings && Excluded(now.bookings[id], Row(req))
  }

  lemma OthersLeave(tables: Tables, s: State, u: int, a: Action, t: int)
    requires t in s.txns && u != t
    ensures var s' := Step(tables, s, u, a); t in s'.txns && s'.txns[t] == s.txns[t]
  {
  }

  lemma {:induction false} OthersLeaveRun(tables: Tables, s: State, trace: seq<Event>, t: int)
    requires t in s.txns && forall e | e in trace :: e.txn != t
    ensures var s' := Run(tables, s, trace); t in s'.txns && s'.txns[t] == s.txns[t]
  {
    hide Step;
    if trace != [] {
      var n := |trace| - 1;
      OthersLeaveRun(tables, s, trace[..n], t);
      assert trace[n] in trace;
      OthersLeave(tables, Run(tables, s, trace[..n]), trace[n].txn, trace[n].action, t);
    }
  }

  /** A booking that was there and did not exclude the request still does not. */
  lemma OldRowsStayHarmless(before: Db, now: Db, id: int, row: Booking)
    requires id in before.bookings && Evolves(before, now, id) && !Excluded(before.bookings[id], row)
    ensures !Excluded(now.bookings[id], row)
  {
  }

  /** `t` has just passed the check in `s1`, others have run since, and nobody's uncommitted insert is in the way:
      its flush is refused exactly when a rival committed in between. The refusal is a conflict for a hold, and for
      `create_booking`, whose flush is outside its try block, a raw integrity error. */
  lemma FlushRefusedIffRival(tables: Tables, s: State, t: int, trace: seq<Event>)
    requires Inv(tables, s) && t in s.txns && s.txns[t].Checking? && AdvanceTxn(tables, s, t).txns[t].Checked?
    requires forall e | e in trace :: e.txn != t
    requires !MustWait(Run(tables, AdvanceTxn(tables, s, t), trace), t, Row(s.txns[t].req))
    ensures var req, s1 := s.txns[t].req, AdvanceTxn(tables, s, t); var s2 := Run(tables, s1, trace);
      && t in s2.txns && s2.txns[t] == Checked(req)
      && var next := AdvanceTxn(tables, s2, t).txns[t];
        && (next.Done? <==> RivalCommitted(s1.db, s2.db, req))
        && (next == Done(IntegrityError) <==> RivalCommitted(s1.db, s2.db, req) && !req.hold)
        && (next == Done(ConflictError) <==> RivalCommitted(s1.db, s2.db, req) && req.hold)
        && (!next.Done? ==> next == Flushed(req, s2.nextId))
  {
    var req, s1 := s.txns[t].req, AdvanceTxn(tables, s, t);
    LockKeepsInv(tables, s, t);
    CheckMatchesConstraint(tables, s.db, req);
    assert s1.db == s.db && s1.txns[t] == Checked(req) && !Violates(s1.db, Row(req));
    hide Run, Inv, Excluded, FoundByCheck, MustWait, Evolves;
    OthersLeaveRun(tables, s1, trace, t);
    var s2 := Run(tables, s1, trace);
    forall id | id in s1.db.bookings
      ensures id in s2.db.bookings && !Excluded(s2.db.bookings[id], Row(req))
    {
      RunEvolves(tables, s1, trace, id);
      StillThere(s1.db, s2.db, id);
      OldRowsStayHarmless(s1.db, s2.db, id, Row(req));
    }
    assert Violates(s2.db, Row(req)) <==> RivalCommitted(s1.db, s2.db, req);
  }

  lemma StillThere(before: Db, now: Db, id: int)
    requires id in before.bookings && Evolves(before, now, id)
    ensures id in now.bookings
  {
  }

  // ---- one event of a create ----------------------------------------------

  lemma Checks(tables: Tables, s: State, t: int, req: Request)
    requires t in s.txns && s.txns[t] == Checking(req) && Admissible(tables, req) && !FoundByCheck(s.db, req)
    ensures Step(tables, s, t, Advance) == s.(txns := s.txns[t := Checked(req)])
  {
    hide FoundByCheck, BlankOverride, PartiesResolve, StaffResolves;
  }

  lemma Flushes(tables: Tables, s: State, t: int, req: Request)
    requires t in s.txns && s.txns[t] == Checked(req) && !MustWait(s, t, Row(req))
    ensures Step(tables, s, t, Advance) ==
      if Violates(s.db, Row(req)) then s.(txns := s.txns[t := Done(if req.hold then ConflictError else IntegrityError)])
      else s.(txns := s.txns[t := Flushed(req, s.nextId)], nextId := s.nextId + 1)
  {
    hide MustWait, Violates;
  }

  lemma Commits(tables: Tables, s: State, t: int, req: Request, id: int)
    requires t in s.txns && s.txns[t] == Flushed(req, id)
    ensures Step(tables, s, t, Advance) == s.(db := Insert(s.db, id, req), txns := s.txns[t := Done(Ok)])
  {
    hide Insert;
  }

  /** One more event at the end of a run. */
  lemma Append(tables: Tables, trace: seq<Event>, t: int, a: Action)
    ensures Run(tables, EMPTY, trace + [Event(t, a)]) == Step(tables, Run(tables, EMPTY, trace), t, a)
  {
    var longer := trace + [Event(t, a)];
    assert longer[..|longer| - 1] == trace;
  }

  // ---- two runs that show what is not guaranteed --------------------------

  const SHOP := Tables(map[1 := 1], map[3 := Member(1, 1)], map[5 := Service(Member(1, 1), 30, true)], map[7 := Member(1, 1)])

  function Cut(start: int, hold: bool): Request {
    Request(1, 1, 3, 5, Some(7), start, 30, true, hold, None)
  }

  lemma Opens(trace: seq<Event>, t: int, req: Request)
    requires t !in Run(SHOP, EMPTY, trace).txns
    ensures var s := Run(SHOP, EMPTY, trace);
      Run(SHOP, EMPTY, trace + [Event(t, Begin(Create(req)))]) == s.(txns := s.txns[t := Checking(req)])
  {
    hide Run;
    Append(SHOP, trace, t, Begin(Create(req)));
  }

  /** Both transactions pass the check before either inserts. */
  lemma BothPass(hold: bool) returns (trace: seq<Event>)
    ensures Run(SHOP, EMPTY, trace) == State(EMPTY.db, map[1 := Checked(Cut(540, false)), 2 := Checked(Cut(550, hold))], 0)
  {
    var a, b := Cut(540, false), Cut(550, hold);
    assert Run(SHOP, EMPTY, []) == EMPTY && Admissible(SHOP, a) && Admissible(SHOP, b);
    assert !FoundByCheck(EMPTY.db, a) && !FoundByCheck(EMPTY.db, b);
    hide Run, Step, FoundByCheck, Admissible, Cut;
    Opens([], 1, a);
    trace := [] + [Event(1, Begin(Create(a)))];
    Append(SHOP, trace, 1, Advance);
    Checks(SHOP, Run(SHOP, EMPTY, trace), 1, a);
    trace := trace + [Event(1, Advance)];
    Opens(trace, 2, b);
    trace := trace + [Event(2, Begin(Create(b)))];
    Append(SHOP, trace, 2, Advance);
    Checks(SHOP, Run(SHOP, EMPTY, trace), 2, b);
    trace := trace + [Event(2, Advance)];
    assert map[][1 := Checking(a)][1 := Checked(a)][2 := Checking(b)][2 := Checked(b)] == map[1 := Checked(a), 2 := Checked(b)];
  }

  lemma FirstInserts(trace: seq<Event>, a: Request, b: Request)
    requires Run(SHOP, EMPTY, trace) == State(EMPTY.db, map[1 := Checked(a), 2 := Checked(b)], 0)
    ensures Run(SHOP, EMPTY, trace + [Event(1, Advance)] + [Event(1, Advance)])
         == State(Insert(EMPTY.db, 0, a), map[1 := Done(Ok), 2 := Checked(b)], 1)
  {
    var s := Run(SHOP, EMPTY, trace);
    assert !MustWait(s, 1, Row(a)) && !Violates(s.db, Row(a));
    hide Run, Step, Insert, MustWait, Violates;
    Append(SHOP, trace, 1, Advance);
    Flushes(SHOP, s, 1, a);
    var s1 := Step(SHOP, s, 1, Advance);
    Append(SHOP, trace + [Event(1, Advance)], 1, Advance);
    Commits(SHOP, s1, 1, a, 0);
    assert map[1 := Checked(a), 2 := Checked(b)][1 := Flushed(a, 0)][1 := Done(Ok)] == map[1 := Done(Ok), 2 := Checked(b)];
  }

  /** A run in which the second transaction loses the race: a conflict for a hold, a raw integrity error for
      `create_booking`. */
  lemma RaceTripsConstraint(hold: bool) returns (trace: seq<Event>)
    ensures var s := Run(SHOP, EMPTY, trace);
      2 in s.txns && s.txns[2] == Done(if hold then ConflictError else IntegrityError)
  {
    var a, b := Cut(540, false), Cut(550, hold);
    var db := Insert(EMPTY.db, 0, a);
    assert db.bookings[0] == Row(a) && Excluded(db.bookings[0], Row(b));
    var s := State(db, map[1 := Done(Ok), 2 := Checked(b)], 1);
    assert Violates(db, Row(b)) && !MustWait(s, 2, Row(b)) && b.hold == hold;
    hide Run, Step, Insert, MustWait, Violates, Cut;
    trace := BothPass(hold);
    FirstInserts(trace, a, b);
    trace := trace + [Event(1, Advance)] + [Event(1, Advance)];
    Append(SHOP, trace, 2, Advance);
    Flushes(SHOP, s, 2, b);
    trace := trace + [Event(2, Advance)];
  }

  /** Rescheduling is not atomic: interrupted between its two transactions it leaves the old booking
      cancelled and adds none. */
  lemma RescheduleCanLoseBooking(tables: Tables, s: State, t: int)
    requires Inv(tables, s) && t in s.txns && s.txns[t].PaymentRead? && s.txns[t].op.Cancel? && s.txns[t].op.andThen.Some?
    requires Active(s.txns[t].seen)
    ensures var s' := Step(tables, Step(tables, s, t, Advance), t, Abort);
      && s'.txns[t] == Done(Aborted)
      && s'.db.bookings == s.db.bookings[s.txns[t].id := s.db.bookings[s.txns[t].id].(status := Cancelled)]
  {
    assert TxnOk(tables, s, s.txns[t]);
  }
}
