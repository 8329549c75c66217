/** From search to booking: what the availability search offers, the booking transactions accept. */
module Admission {
  import opened Domain
  import opened Bookings
  import opened BookingLaws
  import Availability
  import AvailabilityLaws

  /** The search and the booking service read the same bookings table. */
  ghost predicate SameRows(rows: seq<Booking>, db: Db) {
    forall b :: b in rows <==> exists id | id in db.bookings :: db.bookings[id] == b
  }

  /** The query looks for what the request asks for. */
  predicate Asks(q: Availability.Query, req: Request) {
    q.staff.Some? && q.staff == req.staff && q.business == req.business && q.tenant == req.tenant && q.duration == req.duration
  }

  /** Transaction `t` is about to check `req`, nobody has an uncommitted insert, and the search reads the same table. */
  ghost predicate ReadyToBook(tables: Tables, trace: seq<Event>, t: int, req: Request, rows: seq<Booking>) {
    var s := Run(tables, EMPTY, trace);
    && t in s.txns && s.txns[t] == Checking(req) && (forall u | u in s.txns && u != t :: !s.txns[u].Flushed?)
    && SameRows(rows, s.db)
  }

  /** The state after `t` has run its three steps alone. */
  function Booked(tables: Tables, trace: seq<Event>, t: int): State {
    Run(tables, EMPTY, trace + [Event(t, Advance), Event(t, Advance), Event(t, Advance)])
  }

  /** It succeeded and stored the row. */
  predicate IsBooked(tables: Tables, trace: seq<Event>, t: int, req: Request) {
    var s, booked := Run(tables, EMPTY, trace), Booked(tables, trace, t);
    t in booked.txns && booked.txns[t] == Done(Ok) && booked.db == Insert(s.db, s.nextId, req)
  }

  lemma RowsAreConsistent(tables: Tables, db: Db, rows: seq<Booking>, business: int, tenant: int)
    requires DbOk(tables, db) && SameRows(rows, db) && business in tables.businesses && tables.businesses[business] == tenant
    ensures AvailabilityLaws.TenantConsistent(rows, business, tenant)
  {
    forall b | b in rows && b.business == business
      ensures b.tenant == tenant
    {
      var id :| id in db.bookings && db.bookings[id] == b;
      assert RowOk(tables, db.bookings[id]);
    }
  }

  lemma OfferedPassesCheck(tables: Tables, db: Db, search: Availability.Db, q: Availability.Query, now: int, req: Request)
    requires DbOk(tables, db) && SameRows(search.bookings, db) && Resolves(tables, req) && Asks(q, req)
    requires Availability.Offered(search, q, now, req.startsAt)
    ensures !FoundByCheck(db, req) && !Violates(db, Row(req))
  {
    hide Availability.Offered;
    RowsAreConsistent(tables, db, search.bookings, q.business, q.tenant);
    AvailabilityLaws.OfferedSlotIsAdmitted(search, q, now, req.startsAt);
    forall id | id in db.bookings
      ensures db.bookings[id] in search.bookings
    {
    }
    CheckMatchesConstraint(tables, db, req);
  }

  /** The search only depends on which rows the bookings table holds, not on their order or number. */
  lemma AnswerReadsRows(a: Availability.Db, b: Availability.Db, q: Availability.Query, now: int)
    requires q.duration >= 1 && Availability.ValidTimes(a) && b == a.(bookings := b.bookings)
    requires forall x :: x in a.bookings <==> x in b.bookings
    ensures Availability.Answer(a, q, now) == Availability.Answer(b, q, now)
  {
    AvailabilityLaws.SameWindows(a, b, q);
    forall s
      ensures Availability.Offered(a, q, now, s) <==> Availability.Offered(b, q, now, s)
    {
      hide Availability.EffectiveWindows, Availability.OnGrid;
    }
    Availability.AnswerExact(a, q, now);
    Availability.AnswerExact(b, q, now);
    hide Availability.Offered, Availability.Answer, Availability.Ascending;
    Availability.AscendingUnique(Availability.Answer(a, q, now), Availability.Answer(b, q, now));
  }

  lemma RowsAfterInsert(rows: seq<Booking>, rows': seq<Booking>, db: Db, id: int, req: Request)
    requires SameRows(rows, db) && id !in db.bookings && SameRows(rows', Insert(db, id, req))
    ensures forall b :: b in rows' <==> b in rows + [Row(req)]
  {
    var db' := Insert(db, id, req);
    forall b
      ensures b in rows' <==> b in rows + [Row(req)]
    {
      if i :| i in db'.bookings && db'.bookings[i] == b {
        assert i != id ==> i in db.bookings && db.bookings[i] == b;
      }
      if i :| i in db.bookings && db.bookings[i] == b {
        assert i in db'.bookings && db'.bookings[i] == b;
      }
      assert id in db'.bookings && db'.bookings[id] == Row(req);
    }
  }

  /** In every reachable state, a slot the search offers for a staff member can be booked or held by an admissible
      request that then runs undisturbed: it is refused neither by the check nor by the constraint, the row is
      stored, and searching the table as it is then returns the old answer without exactly the slots overlapping
      the new booking. */
  lemma OfferedSlotCanBeBooked(tables: Tables, trace: seq<Event>, t: int, req: Request,
                               search: Availability.Db, q: Availability.Query, now: int, rows: seq<Booking>)
    requires ReadyToBook(tables, trace, t, req, search.bookings) && Admissible(tables, req) && Asks(q, req)
    requires Availability.ValidTimes(search) && Availability.Offered(search, q, now, req.startsAt)
    requires SameRows(rows, Booked(tables, trace, t).db)
    ensures IsBooked(tables, trace, t, req)
    ensures Availability.Answer(search.(bookings := rows), q, now)
         == AvailabilityLaws.Without(Availability.Answer(search, q, now), Row(req))
  {
    hide Availability.Offered, Availability.Answer, Availability.ValidTimes, Run, Inv, SameRows, AvailabilityLaws.Without;
    var s := Run(tables, EMPTY, trace);
    EmptyInv(tables);
    RunKeepsInv(tables, EMPTY, trace);
    SoundDb(tables, s);
    OfferedPassesCheck(tables, s.db, search, q, now, req);
    ThreeSteps(tables, trace, t, req);
    RowsAfterInsert(search.bookings, rows, s.db, s.nextId, req);
    var plus := search.(bookings := search.bookings + [Row(req)]);
    AvailabilityLaws.SearchAfterBooking(search, q, now, Row(req));
    SameTimes(search, plus);
    assert search.(bookings := rows) == plus.(bookings := rows);
    AnswerReadsRows(plus, search.(bookings := rows), q, now);
  }

  lemma SameTimes(a: Availability.Db, b: Availability.Db)
    requires Availability.ValidTimes(a) && b == a.(bookings := b.bookings)
    ensures Availability.ValidTimes(b)
  {
  }

  lemma SoundDb(tables: Tables, s: State)
    requires Inv(tables, s)
    ensures DbOk(tables, s.db) && s.nextId !in s.db.bookings
  {
  }

  lemma ThreeSteps(tables: Tables, trace: seq<Event>, t: int, req: Request)
    requires var s := Run(tables, EMPTY, trace);
      && t in s.txns && s.txns[t] == Checking(req) && (forall u | u in s.txns && u != t :: !s.txns[u].Flushed?)
      && !FoundByCheck(s.db, req) && !Violates(s.db, Row(req))
    requires Admissible(tables, req)
    ensures IsBooked(tables, trace, t, req)
  {
    hide Run, FoundByCheck, Violates, Insert, Admissible, Step;
    var s := Run(tables, EMPTY, trace);
    var e := Event(t, Advance);
    Append(tables, trace, t, Advance);
    Append(tables, trace + [e], t, Advance);
    Append(tables, trace + [e] + [e], t, Advance);
    assert trace + [e, e, e] == trace + [e] + [e] + [e];
    Checks(tables, s, t, req);
    var s1 := s.(txns := s.txns[t := Checked(req)]);
    Flushes(tables, s1, t, req);
    var s2 := s1.(txns := s1.txns[t := Flushed(req, s.nextId)], nextId := s.nextId + 1);
    Commits(tables, s2, t, req, s.nextId);
  }
}
