/** What the availability answer means, how it agrees with booking admission,
    and the multi-day slot finder of the IVR. */
module AvailabilityLaws {
  import opened Domain
  import opened Windows
  import opened Availability

  // ---- windows mean open minutes -----------------------------------------

  lemma MemberCovers(ws: seq<Window>, m: int)
    ensures InSome(ws, m) <==> exists w | w in ws :: Covers(w, m)
  {
    if w :| w in ws && Covers(w, m) {
      var i :| 0 <= i < |ws| && ws[i] == w;
      assert Covers(ws[i], m);
    }
  }

  lemma HoursDenote(db: Db, q: Query, scope: Option<int>, m: int)
    ensures InSome(HoursToday(db, q, scope), m) <==> OpenHours(db, q, scope, m)
  {
    MemberCovers(HoursToday(db, q, scope), m);
    if r :| r in db.hours && HoursOf(r, q, scope) && r.dayOfWeek == DayOfWeek(q.date) && Covers(r.hours, m) {
      assert r.hours in HoursToday(db, q, scope);
    }
  }

  lemma BaseDenotes(db: Db, q: Query, m: int)
    ensures InSome(BaseWindows(db, q), m) <==> OpenBase(db, q, m)
  {
    HoursDenote(db, q, None, m);
    HoursDenote(db, q, q.staff, m);
    IntersectDenotes(HoursToday(db, q, q.staff), HoursToday(db, q, None), m);
  }

  lemma ExceptionApplies(db: Db, q: Query, e: DateException)
    ensures e in ExceptionsOn(db, q) <==> e in db.exceptions && Applies(e, q)
  {
  }

  lemma SpecialDenotes(db: Db, q: Query, m: int)
    ensures var ws := SpecialHours(ExceptionsOn(db, q));
      && (InSome(ws, m) <==> exists e | e in db.exceptions :: Replaces(e, q) && e.start.value <= m < e.end.value)
      && (ws != [] <==> exists e | e in db.exceptions :: Replaces(e, q))
  {
    var es := ExceptionsOn(db, q);
    var ws := SpecialHours(es);
    MemberCovers(ws, m);
    forall e
      ensures e in es && IsSpecial(e) <==> e in db.exceptions && Replaces(e, q)
    {
      ExceptionApplies(db, q, e);
    }
    hide ExceptionsOn, Replaces;
    if e :| e in db.exceptions && Replaces(e, q) {
      assert e in es && IsSpecial(e);
      assert Window(e.start.value, e.end.value) in ws;
    }
    if e :| e in db.exceptions && Replaces(e, q) && e.start.value <= m < e.end.value {
      assert e in es && IsSpecial(e);
      assert Covers(Window(e.start.value, e.end.value), m);
    }
    if ws != [] {
      assert ws[0] in ws;
      var e :| e in es && IsSpecial(e) && ws[0] == Window(e.start.value, e.end.value);
      assert e in db.exceptions && Replaces(e, q);
    }
    if w :| w in ws && Covers(w, m) {
      var e :| e in es && IsSpecial(e) && w == Window(e.start.value, e.end.value);
      assert e in db.exceptions && Replaces(e, q);
    }
  }

  lemma BlocksDenote(db: Db, q: Query, m: int)
    ensures InSome(BlocksToday(db, q), m) <==> BlockedMinute(db, q, m)
  {
    MemberCovers(BlocksToday(db, q), m);
    if b :| b in db.blocks && Concerns(b.tenant, b.business, b.staff, q) && b.dayOfWeek == DayOfWeek(q.date) && Covers(b.block, m) {
      assert b.block in BlocksToday(db, q);
    }
  }

  lemma ClosedDenotes(db: Db, q: Query)
    ensures (exists e | e in ExceptionsOn(db, q) :: e.isClosed) <==> exists e | e in db.exceptions :: Applies(e, q) && e.isClosed
  {
    forall e
      ensures e in ExceptionsOn(db, q) <==> e in db.exceptions && Applies(e, q)
    {
      ExceptionApplies(db, q, e);
    }
    hide ExceptionsOn, Applies;
  }

  /** The window list denotes exactly the minutes that the precedence rules leave open. */
  lemma EffectiveDenotes(db: Db, q: Query, m: int)
    ensures InSome(EffectiveWindows(db, q), m) <==> OpenMinute(db, q, m)
  {
    var base, special, blocks := BaseWindows(db, q), SpecialHours(ExceptionsOn(db, q)), BlocksToday(db, q);
    BaseDenotes(db, q, m);
    SpecialDenotes(db, q, m);
    BlocksDenote(db, q, m);
    ClosedDenotes(db, q);
    SubtractDenotes(if special != [] then special else base, blocks, m);
    NothingInEmpty(m);
    hide InSome, OpenBase, Subtract, BaseWindows, BlockedMinute, Replaces, Applies, SpecialHours, ExceptionsOn;
  }

  lemma NothingInEmpty(m: int)
    ensures !InSome([], m)
  {
  }

  /** Every minute of an offered slot is open: the service fits whole into the schedule. By the local clock, that is UTC
      plus the offset, the whole slot is on the date asked for. */
  lemma OfferedSlotIsOpen(db: Db, q: Query, now: int, start: int, m: int)
    requires q.duration >= 1 && Offered(db, q, now, start) && start <= m < start + q.duration
    ensures OpenMinute(db, q, m + q.utcOffset - q.date * 1440)
    ensures ValidTimes(db) ==> (m + q.utcOffset) / 1440 == q.date && OpenMinute(db, q, (m + q.utcOffset) % 1440)
  {
    hide EffectiveWindows, OpenMinute, ValidTimes, GridSlot;
    var ws := EffectiveWindows(db, q);
    var i :| 0 <= i < |ws| && GridSlot(ws[i], q.duration, start - Midnight(q));
    GridSlotInside(ws[i], q.duration, start - Midnight(q));
    assert Covers(ws[i], m - Midnight(q));
    EffectiveDenotes(db, q, m - Midnight(q));
    if ValidTimes(db) {
      OfferedInDay(db, q, start);
    }
  }

  /** Somebody asked for has a booking or a hold at minute `m`: the staff member, or anybody when none was named. */
  predicate BusyMinute(db: Db, q: Query, m: int) {
    exists b | b in db.bookings ::
      && b.tenant == q.tenant && b.business == q.business && (q.staff == None || b.staff == q.staff)
      && b.status != Cancelled && IsOn(b, m)
  }

  /** A grid slot after now is offered exactly when nobody asked for is busy during any of its minutes; a booking that
      merely touches it does no harm. */
  lemma OfferedIffFree(db: Db, q: Query, now: int, start: int)
    requires q.duration >= 1 && forall b | b in db.bookings :: b.startsAt < b.endsAt
    ensures Offered(db, q, now, start) <==>
      && OnGrid(EffectiveWindows(db, q), q.duration, start - Midnight(q)) && start > now
      && forall m | start <= m < start + q.duration :: !BusyMinute(db, q, m)
  {
    hide EffectiveWindows, OnGrid, Overlaps;
    forall b | b in db.bookings
      ensures Overlaps(b, start, start + q.duration) <==> exists m :: start <= m < start + q.duration && IsOn(b, m)
    {
      OverlapsIffSharedMinute(b, start, start + q.duration);
    }
    hide IsOn;
    if b :| b in db.bookings && InScope(b, q) && Overlaps(b, start, start + q.duration) {
      var m :| start <= m < start + q.duration && IsOn(b, m);
      assert BusyMinute(db, q, m);
    }
    if m :| start <= m < start + q.duration && BusyMinute(db, q, m) {
      var b :| b in db.bookings && b.tenant == q.tenant && b.business == q.business && (q.staff == None || b.staff == q.staff)
        && b.status != Cancelled && IsOn(b, m);
      assert InScope(b, q) && Overlaps(b, start, start + q.duration);
    }
  }

  /** An empty base schedule closes the day, even under special hours. */
  lemma NoBaseNoSlots(db: Db, q: Query, now: int)
    requires q.duration >= 1 && ValidTimes(db) && BaseWindows(db, q) == []
    ensures Answer(db, q, now) == []
  {
    AnswerExact(db, q, now);
    if Answer(db, q, now) != [] {
      HasMember(Answer(db, q, now));
    }
  }

  /** Disjoint schedules and well-formed blocks leave disjoint windows. */
  lemma EffectiveApart(db: Db, q: Query)
    requires PairwiseApart(HoursToday(db, q, None)) && PairwiseApart(HoursToday(db, q, q.staff))
    requires PairwiseApart(SpecialHours(ExceptionsOn(db, q))) && WellFormed(BlocksToday(db, q))
    ensures PairwiseApart(EffectiveWindows(db, q))
  {
    hide PairwiseApart, WellFormed, Intersect, Subtract;
    IntersectPairwiseApart(HoursToday(db, q, q.staff), HoursToday(db, q, None));
    var base, special := BaseWindows(db, q), SpecialHours(ExceptionsOn(db, q));
    SubtractPairwiseApart(if special != [] then special else base, BlocksToday(db, q));
    assert PairwiseApart([]) by { EmptyApart(); }
  }

  /** ... and so disjoint offers. */
  lemma OffersDisjoint(db: Db, q: Query, now: int, s: int, t: int)
    requires q.duration >= 1
    requires PairwiseApart(HoursToday(db, q, None)) && PairwiseApart(HoursToday(db, q, q.staff))
    requires PairwiseApart(SpecialHours(ExceptionsOn(db, q))) && WellFormed(BlocksToday(db, q))
    requires Offered(db, q, now, s) && Offered(db, q, now, t) && s != t
    ensures s + q.duration <= t || t + q.duration <= s
  {
    EffectiveApart(db, q);
    hide EffectiveWindows, HoursToday, SpecialHours, ExceptionsOn, BlocksToday;
    GridApart(EffectiveWindows(db, q), q.duration, s - Midnight(q), t - Midnight(q));
  }

  lemma GridApart(ws: seq<Window>, duration: int, s: int, t: int)
    requires duration >= 1 && PairwiseApart(ws) && OnGrid(ws, duration, s) && OnGrid(ws, duration, t) && s != t
    ensures s + duration <= t || t + duration <= s
  {
    var i :| 0 <= i < |ws| && GridSlot(ws[i], duration, s);
    var j :| 0 <= j < |ws| && GridSlot(ws[j], duration, t);
    if j < i {
      assert Apart(ws[j], ws[i]);
    } else {
      assert i < j ==> Apart(ws[i], ws[j]);
    }
    SlotsApart(ws[i], ws[j], duration, s, t);
  }

  lemma EmptyApart()
    ensures PairwiseApart([])
  {
  }

  // ---- agreement with booking admission -----------------------------------

  /** `_check_double_booking`: true when no conflict is found. Its query filters by staff and business, not by tenant. */
  predicate PassesDoubleBookingCheck(bookings: seq<Booking>, staff: Option<int>, business: int, start: int, end: int) {
    staff == None ||
    !exists b | b in bookings :: b.staff == staff && b.business == business && Active(b) && Overlaps(b, start, end)
  }

  /** A business belongs to one tenant, so its bookings carry that tenant. */
  predicate TenantConsistent(bookings: seq<Booking>, business: int, tenant: int) {
    forall b | b in bookings && b.business == business :: b.tenant == tenant
  }

  /** An offered slot can only be refused for a booking of the same staff and business
      that carries another tenant. */
  lemma AdmissionExactly(db: Db, q: Query, now: int, start: int)
    requires q.staff.Some? && Offered(db, q, now, start)
    ensures PassesDoubleBookingCheck(db.bookings, q.staff, q.business, start, start + q.duration) <==>
      !exists b | b in db.bookings && b.tenant != q.tenant ::
        b.staff == q.staff && b.business == q.business && Active(b) && Overlaps(b, start, start + q.duration)
  {
    hide EffectiveWindows, OnGrid;
    forall b | b in db.bookings && b.staff == q.staff && b.business == q.business && Active(b) && Overlaps(b, start, start + q.duration)
      ensures b.tenant != q.tenant
    {
      assert b.tenant == q.tenant ==> InScope(b, q);
    }
  }

  /** A slot offered for a staff member is accepted by the admission check in the same state. */
  lemma OfferedSlotIsAdmitted(db: Db, q: Query, now: int, start: int)
    requires TenantConsistent(db.bookings, q.business, q.tenant) && q.staff.Some?
    requires Offered(db, q, now, start)
    ensures PassesDoubleBookingCheck(db.bookings, q.staff, q.business, start, start + q.duration)
  {
    AdmissionExactly(db, q, now, start);
  }

  /** The slots of `r` that do not overlap booking `b`. */
  function Without(r: seq<Slot>, b: Booking): seq<Slot> {
    Select(r, (sl: Slot) => !Overlaps(b, sl.start, sl.end))
  }

  lemma {:induction false} SelectAscending(r: seq<Slot>, p: Slot -> bool)
    requires Ascending(r)
    ensures Ascending(Select(r, p))
  {
    if r != [] {
      assert Ascending(r[1..]);
      SelectAscending(r[1..], p);
      var rest := Select(r[1..], p);
      assert forall sl | sl in rest :: sl in r[1..] && r[0].start < sl.start;
      if p(r[0]) {
        Prepend(r[0], rest);
      }
    }
  }

  /** Searching again after a booking in scope was added, with the same clock, returns the old
      list without exactly the slots that overlap it. */
  lemma SearchAfterBooking(db: Db, q: Query, now: int, b: Booking)
    requires q.duration >= 1 && ValidTimes(db) && InScope(b, q)
    ensures Answer(db.(bookings := db.bookings + [b]), q, now) == Without(Answer(db, q, now), b)
  {
    var db' := db.(bookings := db.bookings + [b]);
    var before, after := Answer(db, q, now), Answer(db', q, now);
    AnswerExact(db, q, now);
    AnswerExact(db', q, now);
    SameWindows(db, db', q);
    forall s
      ensures Offered(db', q, now, s) <==> Offered(db, q, now, s) && !Overlaps(b, s, s + q.duration)
    {
      hide EffectiveWindows, OnGrid, InScope, Overlaps;
      assert b in db'.bookings;
      assert forall x | x in db.bookings :: x in db'.bookings;
      if x :| x in db'.bookings && InScope(x, q) && Overlaps(x, s, s + q.duration) {
        assert x == b || x in db.bookings;
      }
    }
    hide Offered, Answer, Overlaps;
    SelectAscending(before, (sl: Slot) => !Overlaps(b, sl.start, sl.end));
    AscendingUnique(after, Without(before, b));
  }

  /** Windows depend on the schedule tables only. */
  lemma SameWindows(db: Db, db': Db, q: Query)
    requires db.hours == db'.hours && db.exceptions == db'.exceptions && db.blocks == db'.blocks
    ensures EffectiveWindows(db, q) == EffectiveWindows(db', q)
  {
    hide Intersect, Subtract, SpecialHours;
  }

  // ---- lookups before the search ------------------------------------------

  datatype Service = Service(tenant: int, business: int, duration: int)
  datatype Member = Member(tenant: int, business: int)
  datatype Directory = Directory(businesses: map<int, int>, services: map<int, Service>, staff: map<int, Member>)
  datatype Reply = NotFound | Slots(slots: seq<Slot>)

  /** The ids name a business of the tenant, one of its services and, when given, one of its staff. */
  predicate Known(dir: Directory, tenant: int, business: int, service: int, staff: Option<int>) {
    && business in dir.businesses && dir.businesses[business] == tenant
    && service in dir.services && dir.services[service].tenant == tenant && dir.services[service].business == business
    && (staff.Some? ==> staff.value in dir.staff && dir.staff[staff.value] == Member(tenant, business))
  }

  method GetAvailableSlots(dir: Directory, db: Db, tenant: int, business: int, service: int, staff: Option<int>,
                           date: int, utcOffset: int, now: int) returns (r: Reply)
    requires ValidTimes(db) && forall id | id in dir.services :: dir.services[id].duration >= 1
    ensures r.NotFound? <==> !Known(dir, tenant, business, service, staff)
    ensures r.Slots? ==> r.slots == Answer(db, Query(tenant, business, staff, dir.services[service].duration, date, utcOffset), now)
  {
    if business !in dir.businesses || dir.businesses[business] != tenant {
      return NotFound;
    }
    if service !in dir.services || dir.services[service].tenant != tenant {
      return NotFound;
    }
    var svc := dir.services[service];
    if svc.business != business {
      return NotFound;
    }
    if staff.Some? {
      if staff.value !in dir.staff || dir.staff[staff.value].tenant != tenant {
        return NotFound;
      }
      if dir.staff[staff.value].business != business {
        return NotFound;
      }
    }
    var free := GetAvailableSlotsForDuration(db, Query(tenant, business, staff, svc.duration, date, utcOffset), now);
    r := Slots(free);
  }

  // ---- the IVR slot finder ------------------------------------------------

  /** What the search of one day reads: tables, UTC offset and clock may differ from day to day. */
  datatype Day = Day(dir: Directory, db: Db, utcOffset: int, now: int)

  /** A search over consecutive days, the first one being `first`. */
  datatype Finder = Finder(tenant: int, business: int, service: int, staff: Option<int>, first: int)

  predicate KnownOn(f: Finder, day: Day) {
    Known(day.dir, f.tenant, f.business, f.service, f.staff)
  }

  /** Columns hold times of day, and services last at least a minute. */
  predicate SoundDay(day: Day) {
    ValidTimes(day.db) && forall id | id in day.dir.services :: day.dir.services[id].duration >= 1
  }

  function DayQuery(f: Finder, day: Day, i: nat): Query
    requires KnownOn(f, day)
  {
    Query(f.tenant, f.business, f.staff, day.dir.services[f.service].duration, f.first + i, day.utcOffset)
  }

  predicate AllKnown(f: Finder, days: seq<Day>, n: nat)
    requires n <= |days|
  {
    forall i | 0 <= i < n :: KnownOn(f, days[i])
  }

  /** The first day whose lookups fail, or the end of the horizon. */
  function FirstUnknown(f: Finder, days: seq<Day>): (n: nat)
    ensures n <= |days| && AllKnown(f, days, n) && (n < |days| ==> !KnownOn(f, days[n]))
  {
    if days == [] || !KnownOn(f, days[0]) then 0
    else
      var n := FirstUnknown(f, days[1..]);
      assert forall i | 0 <= i < n + 1 :: i == 0 || days[i] == days[1..][i - 1];
      n + 1
  }

  /** The answers of the first `n` days, concatenated. */
  ghost function Horizon(f: Finder, days: seq<Day>, n: nat): seq<Slot>
    requires n <= |days| && AllKnown(f, days, n)
  {
    if n == 0 then [] else Horizon(f, days, n - 1) + Answer(days[n - 1].db, DayQuery(f, days[n - 1], n - 1), days[n - 1].now)
  }

  function Take<T>(s: seq<T>, n: nat): seq<T> {
    if |s| <= n then s else s[..n]
  }

  lemma HorizonStep(f: Finder, days: seq<Day>, n: nat)
    requires n <= |days| && AllKnown(f, days, n)
    ensures Horizon(f, days, n) ==
      if n == 0 then [] else Horizon(f, days, n - 1) + Answer(days[n - 1].db, DayQuery(f, days[n - 1], n - 1), days[n - 1].now)
  {
  }

  lemma {:induction false} HorizonGrows(f: Finder, days: seq<Day>, i: nat, n: nat)
    requires i <= n <= |days| && AllKnown(f, days, n)
    ensures Horizon(f, days, i) <= Horizon(f, days, n)
    decreases n
  {
    hide Answer;
    if i < n {
      HorizonGrows(f, days, i, n - 1);
    }
  }

  /** A day whose lookups fail ends the search with an error, unless enough slots were collected before it; then,
      as on a horizon without such a day, stopping early equals keeping the first slots of all the days before. */
  method FindSlots(f: Finder, days: seq<Day>, maxSlots: nat) returns (r: Reply)
    requires maxSlots > 0 && forall i | 0 <= i < |days| :: SoundDay(days[i])
    ensures var n := FirstUnknown(f, days);
      if n == |days| || |Horizon(f, days, n)| >= maxSlots then r == Slots(Take(Horizon(f, days, n), maxSlots)) else r == NotFound
  {
    hide Answer, Horizon, Known, ValidTimes;
    ghost var n := FirstUnknown(f, days);
    var collected: seq<Slot> := [];
    HorizonStep(f, days, 0);
    var i := 0;
    while i < |days|
      invariant 0 <= i <= n && collected == Horizon(f, days, i) && |collected| < maxSlots
    {
      var day := days[i];
      var found := GetAvailableSlots(day.dir, day.db, f.tenant, f.business, f.service, f.staff, f.first + i, day.utcOffset, day.now);
      if found.NotFound? {
        return NotFound;
      }
      HorizonStep(f, days, i + 1);
      collected := collected + found.slots;
      i := i + 1;
      if |collected| >= maxSlots {
        HorizonGrows(f, days, i, n);
        return Slots(Take(collected, maxSlots));
      }
    }
    r := Slots(Take(collected, maxSlots));
  }

  // ---- the earliest slots -------------------------------------------------

  /** The last of the first `n` days closes by `close`. */
  predicate ClosesBy(f: Finder, days: seq<Day>, n: nat, close: int)
    requires 0 < n <= |days| && AllKnown(f, days, n)
  {
    var q := DayQuery(f, days[n - 1], n - 1);
    Midnight(q) <= close && forall w | w in EffectiveWindows(days[n - 1].db, q) :: Midnight(q) + w.end <= close
  }

  /** Every window of a day closes by the next midnight. */
  predicate InOrder(f: Finder, days: seq<Day>, n: nat)
    requires n <= |days| && AllKnown(f, days, n)
  {
    forall k | 0 < k < n :: ClosesBy(f, days, k, Midnight(DayQuery(f, days[k], k)))
  }

  /** With the same offset on every day the days are in order. */
  lemma ConstantOffsetInOrder(f: Finder, days: seq<Day>, n: nat)
    requires n <= |days| && AllKnown(f, days, n) && forall i | 0 <= i < |days| :: SoundDay(days[i])
    requires forall i | 0 <= i < n :: days[i].utcOffset == days[0].utcOffset
    ensures InOrder(f, days, n)
  {
    hide Known, ValidTimes, EffectiveWindows;
    forall k | 0 < k < n
      ensures ClosesBy(f, days, k, Midnight(DayQuery(f, days[k], k)))
    {
      EffectiveRange(days[k - 1].db, DayQuery(f, days[k - 1], k - 1));
      assert days[k - 1].utcOffset == days[k].utcOffset;
    }
  }

  /** The slots of a day start between its midnight and `close`, when its windows end by then. */
  lemma AnswerInDay(db: Db, q: Query, now: int, close: int)
    requires q.duration >= 1 && ValidTimes(db) && forall w | w in EffectiveWindows(db, q) :: Midnight(q) + w.end <= close
    ensures Ascending(Answer(db, q, now))
    ensures forall sl | sl in Answer(db, q, now) :: Midnight(q) <= sl.start < close
  {
    hide Answer, Ascending, EffectiveWindows, ValidTimes, GridSlot;
    AnswerExact(db, q, now);
    forall sl | sl in Answer(db, q, now)
      ensures Midnight(q) <= sl.start < close
    {
      OfferedInDay(db, q, sl.start);
      var ws := EffectiveWindows(db, q);
      var i :| 0 <= i < |ws| && GridSlot(ws[i], q.duration, sl.start - Midnight(q));
      GridSlotInside(ws[i], q.duration, sl.start - Midnight(q));
      assert ws[i] in ws;
    }
  }

  lemma ClosesAfterMidnight(f: Finder, days: seq<Day>, n: nat, close: int)
    requires 0 < n <= |days| && AllKnown(f, days, n) && ClosesBy(f, days, n, close) && SoundDay(days[n - 1])
    ensures var q := DayQuery(f, days[n - 1], n - 1);
      Midnight(q) <= close && forall sl | sl in Answer(days[n - 1].db, q, days[n - 1].now) :: sl.start < close
  {
    hide Answer;
    AnswerInDay(days[n - 1].db, DayQuery(f, days[n - 1], n - 1), days[n - 1].now, close);
  }

  lemma PreviousCloses(f: Finder, days: seq<Day>, n: nat)
    requires 1 < n <= |days| && AllKnown(f, days, n) && InOrder(f, days, n)
    ensures ClosesBy(f, days, n - 1, Midnight(DayQuery(f, days[n - 1], n - 1)))
  {
  }

  lemma OrderPrefix(f: Finder, days: seq<Day>, n: nat)
    requires 0 < n <= |days| && AllKnown(f, days, n) && InOrder(f, days, n)
    ensures AllKnown(f, days, n - 1) && InOrder(f, days, n - 1)
  {
    hide EffectiveWindows, Known;
  }

  lemma DayAnswer(f: Finder, days: seq<Day>, n: nat)
    requires 0 < n <= |days| && AllKnown(f, days, n) && SoundDay(days[n - 1])
    ensures var q := DayQuery(f, days[n - 1], n - 1); var today := Answer(days[n - 1].db, q, days[n - 1].now);
      Ascending(today) && forall sl | sl in today :: Midnight(q) <= sl.start
  {
    hide Answer, Ascending;
    var day, q := days[n - 1], DayQuery(f, days[n - 1], n - 1);
    EffectiveRange(day.db, q);
    AnswerInDay(day.db, q, day.now, Midnight(q) + DAY);
  }

  /** Everything offered on the first `n` days starts before the last of them closes. */
  lemma {:induction false} HorizonBefore(f: Finder, days: seq<Day>, n: nat, close: int)
    requires 0 < n <= |days| && AllKnown(f, days, n) && InOrder(f, days, n) && forall i | 0 <= i < |days| :: SoundDay(days[i])
    requires ClosesBy(f, days, n, close)
    ensures forall sl | sl in Horizon(f, days, n) :: sl.start < close
  {
    hide Answer, Horizon, Known, ValidTimes, EffectiveWindows, ClosesBy, InOrder;
    HorizonStep(f, days, n);
    HorizonStep(f, days, 0);
    ClosesAfterMidnight(f, days, n, close);
    if n > 1 {
      OrderPrefix(f, days, n);
      PreviousCloses(f, days, n);
      HorizonBefore(f, days, n - 1, Midnight(DayQuery(f, days[n - 1], n - 1)));
    }
  }

  /** When the days are in order, the concatenated answers are strictly ascending. */
  lemma {:induction false} HorizonAscending(f: Finder, days: seq<Day>, n: nat)
    requires n <= |days| && AllKnown(f, days, n) && InOrder(f, days, n) && forall i | 0 <= i < |days| :: SoundDay(days[i])
    ensures Ascending(Horizon(f, days, n))
  {
    hide Answer, Horizon, Known, ValidTimes, EffectiveWindows, Ascending, ClosesBy, InOrder;
    HorizonStep(f, days, n);
    if n == 0 {
      EmptyAscending();
    } else {
      var day, q := days[n - 1], DayQuery(f, days[n - 1], n - 1);
      OrderPrefix(f, days, n);
      HorizonAscending(f, days, n - 1);
      DayAnswer(f, days, n);
      HorizonStep(f, days, 0);
      if n > 1 {
        PreviousCloses(f, days, n);
        HorizonBefore(f, days, n - 1, Midnight(q));
      }
      AscendingConcat(Horizon(f, days, n - 1), Answer(day.db, q, day.now), Midnight(q));
    }
  }

  lemma AscendingConcat(a: seq<Slot>, b: seq<Slot>, cut: int)
    requires Ascending(a) && Ascending(b)
    requires (forall sl | sl in a :: sl.start < cut) && (forall sl | sl in b :: cut <= sl.start)
    ensures Ascending(a + b)
  {
    assert forall i | 0 <= i < |a| :: a[i] in a;
    assert forall i | 0 <= i < |b| :: b[i] in b;
  }

  /** What the finder offers is the earliest: every slot left out starts after every slot kept. */
  lemma FinderOffersEarliest(f: Finder, days: seq<Day>, n: nat, maxSlots: nat, kept: Slot, left: Slot)
    requires n <= |days| && AllKnown(f, days, n) && InOrder(f, days, n) && forall i | 0 <= i < |days| :: SoundDay(days[i])
    requires kept in Take(Horizon(f, days, n), maxSlots)
    requires left in Horizon(f, days, n) && left !in Take(Horizon(f, days, n), maxSlots)
    ensures kept.start < left.start
  {
    hide *;
    HorizonAscending(f, days, n);
    TakeEarliest(Horizon(f, days, n), maxSlots, kept, left);
  }

  lemma TakeEarliest(all: seq<Slot>, n: nat, kept: Slot, left: Slot)
    requires Ascending(all) && kept in Take(all, n) && left in all && left !in Take(all, n)
    ensures kept.start < left.start
  {
    var i :| 0 <= i < |all| && all[i] == kept && i < n;
    var j :| 0 <= j < |all| && all[j] == left;
    assert |all| <= n || all[..n] == Take(all, n);
  }
}
