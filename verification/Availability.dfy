/** The availability search. The specification, `Answer`, tests every minute of
    the day; the method builds windows, packs them and prefilters the bookings. */
module Availability {
  import opened Domain
  import opened Windows

  const DAY := 1440

  datatype WorkingHours = WorkingHours(tenant: int, business: int, staff: Option<int>, dayOfWeek: int, hours: Window)
  datatype DateException = DateException(
    tenant: int, business: int, staff: Option<int>, date: int,
    isClosed: bool, start: Option<int>, end: Option<int>)
  datatype RecurringBlock = RecurringBlock(tenant: int, business: int, staff: Option<int>, dayOfWeek: int, block: Window)

  datatype Db = Db(
    hours: seq<WorkingHours>,
    exceptions: seq<DateException>,
    blocks: seq<RecurringBlock>,
    bookings: seq<Booking>)

  /** One search; `date` is a proleptic ordinal and `utcOffset` the constant offset of that day in minutes. */
  datatype Query = Query(tenant: int, business: int, staff: Option<int>, duration: int, date: int, utcOffset: int)

  datatype Slot = Slot(start: int, end: int)

  function Midnight(q: Query): int {
    q.date * DAY - q.utcOffset
  }

  /** `date.weekday()`: ordinal 1 is a Monday. */
  function DayOfWeek(date: int): int {
    (date + 6) % 7
  }

  /** Ordinal 1 is a Monday, weekdays follow one another in a cycle of seven, and two dates share their weekday exactly
      when they are whole weeks apart. */
  lemma WeekdaysCycle(date: int, other: int)
    ensures DayOfWeek(1) == 0 && 0 <= DayOfWeek(date) < 7
    ensures DayOfWeek(date + 1) == if DayOfWeek(date) == 6 then 0 else DayOfWeek(date) + 1
    ensures DayOfWeek(date) == DayOfWeek(other) <==> exists weeks: int :: date == other + 7 * weeks
  {
    if DayOfWeek(date) == DayOfWeek(other) {
      assert date == other + 7 * ((date + 6) / 7 - (other + 6) / 7);
    }
  }

  predicate TimeOfDay(t: int) {
    0 <= t < DAY
  }

  /** Schedule columns hold times of day. */
  predicate ValidTimes(db: Db) {
    && (forall r | r in db.hours :: TimeOfDay(r.hours.start) && TimeOfDay(r.hours.end))
    && (forall e | e in db.exceptions :: (e.start.Some? ==> TimeOfDay(e.start.value)) && (e.end.Some? ==> TimeOfDay(e.end.value)))
    && (forall b | b in db.blocks :: TimeOfDay(b.block.start) && TimeOfDay(b.block.end))
  }

  // ---- queries ------------------------------------------------------------

  predicate HoursOf(r: WorkingHours, q: Query, scope: Option<int>) {
    r.business == q.business && r.tenant == q.tenant && r.staff == scope
  }

  function HoursToday(db: Db, q: Query, scope: Option<int>): (ws: seq<Window>)
    ensures forall w :: w in ws <==> exists r | r in db.hours :: HoursOf(r, q, scope) && r.dayOfWeek == DayOfWeek(q.date) && r.hours == w
  {
    var rows := Select(db.hours, (r: WorkingHours) => HoursOf(r, q, scope) && r.dayOfWeek == DayOfWeek(q.date));
    Project(rows, (x: WorkingHours) => x.hours)
  }

  /** Whether any working-hours row exists for this scope, on any day. */
  predicate HasAnySchedule(db: Db, q: Query, scope: Option<int>) {
    exists r | r in db.hours :: HoursOf(r, q, scope)
  }

  /** Rows of exceptions and blocks that concern this search: business-wide ones, or the staff member's own. */
  predicate Concerns(tenant: int, business: int, staff: Option<int>, q: Query) {
    business == q.business && tenant == q.tenant && (staff == None || staff == q.staff)
  }

  function ExceptionsOn(db: Db, q: Query): (r: seq<DateException>)
    ensures forall e :: e in r <==> e in db.exceptions && Concerns(e.tenant, e.business, e.staff, q) && e.date == q.date
  {
    Select(db.exceptions, (e: DateException) => Concerns(e.tenant, e.business, e.staff, q) && e.date == q.date)
  }

  predicate IsSpecial(e: DateException) {
    !e.isClosed && e.start.Some? && e.end.Some?
  }

  function SpecialHours(es: seq<DateException>): (ws: seq<Window>)
    ensures forall w :: w in ws <==> exists e | e in es :: IsSpecial(e) && w == Window(e.start.value, e.end.value)
  {
    if es == [] then []
    else
      assert forall e :: e in es <==> e == es[0] || e in es[1..];
      (if IsSpecial(es[0]) then [Window(es[0].start.value, es[0].end.value)] else []) + SpecialHours(es[1..])
  }

  function BlocksToday(db: Db, q: Query): (ws: seq<Window>)
    ensures forall w :: w in ws <==>
      exists b | b in db.blocks :: Concerns(b.tenant, b.business, b.staff, q) && b.dayOfWeek == DayOfWeek(q.date) && b.block == w
  {
    var rows := Select(db.blocks, (b: RecurringBlock) => Concerns(b.tenant, b.business, b.staff, q) && b.dayOfWeek == DayOfWeek(q.date));
    Project(rows, (x: RecurringBlock) => x.block)
  }

  // ---- windows ------------------------------------------------------------

  /** Working hours: a side that never configured a schedule defers to the other. */
  function BaseWindows(db: Db, q: Query): seq<Window> {
    if q.staff == None || !HasAnySchedule(db, q, q.staff) then HoursToday(db, q, None)
    else if !HasAnySchedule(db, q, None) then HoursToday(db, q, q.staff)
    else Intersect(HoursToday(db, q, q.staff), HoursToday(db, q, None))
  }

  /** The windows slots are cut from; empty when the base schedule is, whatever the special hours. */
  function EffectiveWindows(db: Db, q: Query): seq<Window> {
    var base := BaseWindows(db, q);
    var exceptions := ExceptionsOn(db, q);
    if base == [] || exists e | e in exceptions :: e.isClosed then []
    else
      var special := SpecialHours(exceptions);
      Subtract(if special != [] then special else base, BlocksToday(db, q))
  }

  // ---- the specification --------------------------------------------------

  /** Some row of this scope is open at minute `m` of the day. */
  predicate OpenHours(db: Db, q: Query, scope: Option<int>, m: int) {
    exists r | r in db.hours ::
      r.tenant == q.tenant && r.business == q.business && r.staff == scope && r.dayOfWeek == DayOfWeek(q.date) && r.hours.start <= m < r.hours.end
  }

  /** Some row of this scope exists, for whatever day. */
  predicate Scheduled(db: Db, q: Query, scope: Option<int>) {
    exists r | r in db.hours :: r.tenant == q.tenant && r.business == q.business && r.staff == scope
  }

  predicate OpenBase(db: Db, q: Query, m: int) {
    if q.staff == None || !Scheduled(db, q, q.staff) then OpenHours(db, q, None, m)
    else if !Scheduled(db, q, None) then OpenHours(db, q, q.staff, m)
    else OpenHours(db, q, q.staff, m) && OpenHours(db, q, None, m)
  }

  /** The exception is for this date, and for the whole business or for the staff member asked for. */
  predicate Applies(e: DateException, q: Query) {
    e.tenant == q.tenant && e.business == q.business && e.date == q.date && (e.staff == None || e.staff == q.staff)
  }

  /** The exception replaces the hours of its date. */
  predicate Replaces(e: DateException, q: Query) {
    Applies(e, q) && !e.isClosed && e.start.Some? && e.end.Some?
  }

  predicate BlockedMinute(db: Db, q: Query, m: int) {
    exists b | b in db.blocks ::
      && b.tenant == q.tenant && b.business == q.business && (b.staff == None || b.staff == q.staff)
      && b.dayOfWeek == DayOfWeek(q.date) && b.block.start <= m < b.block.end
  }

  /** Minute `m` is open by the precedence rules of ADR 0003, read directly off the rows. */
  predicate OpenMinute(db: Db, q: Query, m: int) {
    && BaseWindows(db, q) != []
    && !(exists e | e in db.exceptions :: Applies(e, q) && e.isClosed)
    && (if exists e | e in db.exceptions :: Replaces(e, q)
        then exists e | e in db.exceptions :: Replaces(e, q) && e.start.value <= m < e.end.value
        else OpenBase(db, q, m))
    && !BlockedMinute(db, q, m)
  }

  ghost predicate OnGrid(ws: seq<Window>, duration: int, s: int) {
    exists i | 0 <= i < |ws| :: GridSlot(ws[i], duration, s)
  }

  /** Bookings that can block this search: the staff member's, or anyone's when no staff is asked for. */
  predicate InScope(b: Booking, q: Query) {
    b.business == q.business && b.tenant == q.tenant && Active(b) && (q.staff == None || b.staff == q.staff)
  }

  ghost predicate Offered(db: Db, q: Query, now: int, start: int) {
    && OnGrid(EffectiveWindows(db, q), q.duration, start - Midnight(q))
    && start > now
    && !exists b | b in db.bookings :: InScope(b, q) && Overlaps(b, start, start + q.duration)
  }

  /** Every minute in `[first, bound)` that is offered, as slots in order. */
  ghost function Scan(db: Db, q: Query, now: int, first: int, bound: int): seq<Slot>
    decreases bound - first
  {
    if first >= bound then []
    else if Offered(db, q, now, first) then [Slot(first, first + q.duration)] + Scan(db, q, now, first + 1, bound)
    else Scan(db, q, now, first + 1, bound)
  }

  /** What the search must return: every offered minute of the local day. */
  ghost function Answer(db: Db, q: Query, now: int): seq<Slot> {
    Scan(db, q, now, Midnight(q), Midnight(q) + DAY)
  }

  predicate Ascending(r: seq<Slot>) {
    forall i, j | 0 <= i < j < |r| :: r[i].start < r[j].start
  }

  lemma Prepend(x: Slot, rest: seq<Slot>)
    requires Ascending(rest) && forall sl | sl in rest :: x.start < sl.start
    ensures Ascending([x] + rest)
    ensures forall sl :: sl in [x] + rest <==> sl == x || sl in rest
  {
    assert forall i | 0 <= i < |rest| :: rest[i] in rest;
  }

  ghost predicate OfferedWithin(db: Db, q: Query, now: int, first: int, bound: int, sl: Slot) {
    first <= sl.start < bound && sl.end == sl.start + q.duration && Offered(db, q, now, sl.start)
  }

  lemma {:induction false} ScanExact(db: Db, q: Query, now: int, first: int, bound: int)
    ensures Ascending(Scan(db, q, now, first, bound))
    ensures forall sl :: sl in Scan(db, q, now, first, bound) <==> OfferedWithin(db, q, now, first, bound, sl)
    decreases bound - first
  {
    hide Offered, Ascending;
    if first < bound {
      ScanExact(db, q, now, first + 1, bound);
      if Offered(db, q, now, first) {
        Prepend(Slot(first, first + q.duration), Scan(db, q, now, first + 1, bound));
      }
    } else {
      assert Ascending([]) by { EmptyAscending(); }
    }
  }

  lemma EmptyAscending()
    ensures Ascending([])
  {
  }

  lemma SubtractRange(base: seq<Window>, blocks: seq<Window>)
    requires forall w | w in base :: 0 <= w.start && w.end < DAY
    requires forall w | w in blocks :: 0 <= w.end && w.start < DAY
    ensures forall w | w in Subtract(base, blocks) :: 0 <= w.start && w.end < DAY
  {
    if blocks != [] {
      SubtractRange(base, blocks[..|blocks| - 1]);
      CarveRange(Subtract(base, blocks[..|blocks| - 1]), blocks[|blocks| - 1]);
    }
  }

  lemma CarveRange(ws: seq<Window>, b: Window)
    requires forall w | w in ws :: 0 <= w.start && w.end < DAY
    requires 0 <= b.end && b.start < DAY
    ensures forall w | w in Carve(ws, b) :: 0 <= w.start && w.end < DAY
  {
    if ws != [] {
      CarveRange(ws[..|ws| - 1], b);
      assert ws[|ws| - 1] in ws;
    }
  }

  lemma MeetAllRange(a: Window, salon: seq<Window>)
    requires 0 <= a.start && a.end < DAY
    ensures forall w | w in MeetAll(a, salon) :: 0 <= w.start && w.end < DAY
  {
  }

  lemma IntersectRange(staff: seq<Window>, salon: seq<Window>)
    requires forall w | w in staff :: 0 <= w.start && w.end < DAY
    ensures forall w | w in Intersect(staff, salon) :: 0 <= w.start && w.end < DAY
  {
    if staff != [] {
      IntersectRange(staff[..|staff| - 1], salon);
      assert staff[|staff| - 1] in staff;
      MeetAllRange(staff[|staff| - 1], salon);
    }
  }

  lemma HoursRange(db: Db, q: Query, scope: Option<int>)
    requires ValidTimes(db)
    ensures forall w | w in HoursToday(db, q, scope) :: 0 <= w.start && w.end < DAY
  {
  }

  lemma BaseRange(db: Db, q: Query)
    requires ValidTimes(db)
    ensures forall w | w in BaseWindows(db, q) :: 0 <= w.start && w.end < DAY
  {
    hide Intersect, HoursToday, ValidTimes;
    HoursRange(db, q, q.staff);
    HoursRange(db, q, None);
    IntersectRange(HoursToday(db, q, q.staff), HoursToday(db, q, None));
  }

  lemma ExceptionsRange(db: Db, q: Query)
    requires ValidTimes(db)
    ensures forall w | w in SpecialHours(ExceptionsOn(db, q)) :: 0 <= w.start && w.end < DAY
    ensures forall w | w in BlocksToday(db, q) :: 0 <= w.end && w.start < DAY
  {
  }

  lemma EffectiveRange(db: Db, q: Query)
    requires ValidTimes(db)
    ensures forall w | w in EffectiveWindows(db, q) :: 0 <= w.start && w.end < DAY
  {
    hide Subtract, BaseWindows, SpecialHours, ExceptionsOn, BlocksToday, ValidTimes;
    BaseRange(db, q);
    ExceptionsRange(db, q);
    var special := SpecialHours(ExceptionsOn(db, q));
    SubtractRange(if special != [] then special else BaseWindows(db, q), BlocksToday(db, q));
  }

  /** An offered slot lies inside its local day. */
  lemma OfferedInDay(db: Db, q: Query, start: int)
    requires ValidTimes(db) && q.duration >= 1 && OnGrid(EffectiveWindows(db, q), q.duration, start - Midnight(q))
    ensures Midnight(q) <= start && start + q.duration < Midnight(q) + DAY
  {
    EffectiveRange(db, q);
    var ws := EffectiveWindows(db, q);
    var i :| 0 <= i < |ws| && GridSlot(ws[i], q.duration, start - Midnight(q));
    assert ws[i] in ws;
    GridSlotInside(ws[i], q.duration, start - Midnight(q));
  }

  /** The answer is ascending, hence without duplicates, and holds exactly the offered slots. */
  lemma AnswerExact(db: Db, q: Query, now: int)
    requires ValidTimes(db) && q.duration >= 1
    ensures Ascending(Answer(db, q, now))
    ensures forall sl :: sl in Answer(db, q, now) <==> sl.end == sl.start + q.duration && Offered(db, q, now, sl.start)
  {
    ScanExact(db, q, now, Midnight(q), Midnight(q) + DAY);
    hide Scan, EffectiveWindows, Ascending;
    forall s | Offered(db, q, now, s)
      ensures Midnight(q) <= s < Midnight(q) + DAY
    {
      OfferedInDay(db, q, s);
    }
  }

  lemma HasMember(a: seq<Slot>)
    requires a != []
    ensures exists sl :: sl in a
  {
    assert a[0] in a;
  }

  /** No member of `a` starts after the last slot of `b`; equal starts mean equal slots. */
  lemma LastInOther(a: seq<Slot>, b: seq<Slot>)
    requires Ascending(a) && Ascending(b) && a != [] && b != [] && forall sl :: sl in a <==> sl in b
    ensures a[|a| - 1].start <= b[|b| - 1].start
    ensures a[|a| - 1].start == b[|b| - 1].start ==> a[|a| - 1] == b[|b| - 1]
  {
    var last := a[|a| - 1];
    assert last in a && last in b;
    var i :| 0 <= i < |b| && b[i] == last;
  }

  lemma Front(a: seq<Slot>)
    requires Ascending(a) && a != []
    ensures Ascending(a[..|a| - 1])
    ensures forall sl :: sl in a[..|a| - 1] <==> sl in a && sl != a[|a| - 1]
  {
    var front, last := a[..|a| - 1], a[|a| - 1];
    assert a == front + [last];
    assert forall i | 0 <= i < |front| :: front[i].start < last.start;
  }

  lemma {:induction false} AscendingUnique(a: seq<Slot>, b: seq<Slot>)
    requires Ascending(a) && Ascending(b) && forall sl :: sl in a <==> sl in b
    ensures a == b
  {
    if a != [] {
      HasMember(a);
    }
    if b != [] {
      HasMember(b);
    }
    if a != [] && b != [] {
      LastInOther(a, b);
      LastInOther(b, a);
      assert a[|a| - 1] == b[|b| - 1];
      var a', b' := a[..|a| - 1], b[..|b| - 1];
      Front(a);
      Front(b);
      hide Ascending;
      forall sl
        ensures sl in a' <==> sl in b'
      {
        assert sl in a <==> sl in b;
        assert sl in a' <==> sl in a && sl != a[|a| - 1];
        assert sl in b' <==> sl in b && sl != b[|b| - 1];
      }
      AscendingUnique(a', b');
    }
  }

  // ---- the search ---------------------------------------------------------

  predicate Increasing(s: seq<int>) {
    forall i, j | 0 <= i < j < |s| :: s[i] < s[j]
  }

  lemma ConsIncreasing(x: int, s: seq<int>)
    requires Increasing(s) && forall y | y in s :: x < y
    ensures Increasing([x] + s)
  {
    assert forall j | 0 <= j < |s| :: s[j] in s;
  }

  lemma TailIncreasing(s: seq<int>)
    requires Increasing(s) && s != []
    ensures Increasing(s[1..]) && (forall y | y in s[1..] :: s[0] < y) && forall y :: y in s <==> y == s[0] || y in s[1..]
  {
  }

  function Insert(x: int, s: seq<int>): (r: seq<int>)
    requires Increasing(s)
    ensures Increasing(r) && forall y :: y in r <==> y == x || y in s
  {
    if s == [] then [x]
    else
      TailIncreasing(s);
      if x < s[0] then ConsIncreasing(x, s); [x] + s
      else if x == s[0] then s
      else
        var rest := Insert(x, s[1..]);
        ConsIncreasing(s[0], rest);
        [s[0]] + rest
  }

  /** `sorted(set(s))`. */
  function SortedSet(s: seq<int>): (r: seq<int>)
    ensures Increasing(r) && forall y :: y in r <==> y in s
  {
    if s == [] then [] else Insert(s[0], SortedSet(s[1..]))
  }

  method WindowsFor(db: Db, q: Query) returns (effective: seq<Window>)
    ensures effective == EffectiveWindows(db, q)
  {
    var salon := HoursToday(db, q, None);
    var workingHours;
    if q.staff == None {
      workingHours := salon;
    } else {
      var staffWindows := HoursToday(db, q, q.staff);
      if !HasAnySchedule(db, q, q.staff) {
        workingHours := salon;
      } else if !HasAnySchedule(db, q, None) {
        workingHours := staffWindows;
      } else {
        workingHours := IntersectTimeWindows(staffWindows, salon);
      }
    }
    if workingHours == [] {
      return [];
    }
    var exceptions := ExceptionsOn(db, q);
    if exists e | e in exceptions :: e.isClosed {
      return [];
    }
    var special := SpecialHours(exceptions);
    effective := if special != [] then special else workingHours;
    var blocks := BlocksToday(db, q);
    if blocks != [] {
      effective := SubtractTimeWindows(effective, blocks);
    }
  }

  method CandidateStarts(ws: seq<Window>, midnight: int, duration: int) returns (starts: seq<int>)
    requires duration >= 1
    ensures forall s :: s in starts <==> OnGrid(ws, duration, s - midnight)
  {
    starts := [];
    for i := 0 to |ws|
      invariant forall s :: s in starts <==> OnGrid(ws[..i], duration, s - midnight)
    {
      var more := SlotsInWindow(midnight, ws[i], duration);
      assert forall s :: OnGrid(ws[..i + 1], duration, s) <==> OnGrid(ws[..i], duration, s) || GridSlot(ws[i], duration, s) by {
        GridExtends(ws, i, duration);
      }
      starts := starts + more;
    }
    assert ws[..|ws|] == ws;
  }

  lemma GridExtends(ws: seq<Window>, i: nat, duration: int)
    requires i < |ws|
    ensures forall s :: OnGrid(ws[..i + 1], duration, s) <==> OnGrid(ws[..i], duration, s) || GridSlot(ws[i], duration, s)
  {
    forall s
      ensures OnGrid(ws[..i + 1], duration, s) <==> OnGrid(ws[..i], duration, s) || GridSlot(ws[i], duration, s)
    {
      if OnGrid(ws[..i], duration, s) {
        var k :| 0 <= k < i && GridSlot(ws[..i][k], duration, s);
        assert GridSlot(ws[..i + 1][k], duration, s);
      }
      if GridSlot(ws[i], duration, s) {
        assert GridSlot(ws[..i + 1][i], duration, s);
      }
      if OnGrid(ws[..i + 1], duration, s) {
        var k :| 0 <= k < i + 1 && GridSlot(ws[..i + 1][k], duration, s);
        assert k < i ==> GridSlot(ws[..i][k], duration, s);
      }
    }
  }

  predicate Blocked(bookings: seq<Booking>, start: int, duration: int) {
    exists b | b in bookings :: Overlaps(b, start, start + duration)
  }

  predicate Prefilter(b: Booking, q: Query) {
    InScope(b, q) && b.startsAt < Midnight(q) + DAY && b.endsAt > Midnight(q)
  }

  /** The day-range condition on the bookings query drops no booking that conflicts with a slot of the day. */
  lemma PrefilterKeepsConflicts(db: Db, q: Query, start: int)
    requires Midnight(q) <= start && start + q.duration < Midnight(q) + DAY
    ensures (exists b | b in db.bookings :: Prefilter(b, q) && Overlaps(b, start, start + q.duration)) <==>
            (exists b | b in db.bookings :: InScope(b, q) && Overlaps(b, start, start + q.duration))
  {
    if b :| b in db.bookings && InScope(b, q) && Overlaps(b, start, start + q.duration) {
      assert Prefilter(b, q);
    }
  }

  /** On the grid, the tests of the loop decide exactly whether the slot is offered. */
  lemma LoopTest(db: Db, q: Query, now: int, bookings: seq<Booking>, start: int)
    requires q.duration >= 1 && ValidTimes(db)
    requires forall b :: b in bookings <==> b in db.bookings && Prefilter(b, q)
    requires OnGrid(EffectiveWindows(db, q), q.duration, start - Midnight(q))
    ensures Offered(db, q, now, start) <==>
      start > now && !Blocked(bookings, start, q.duration)
  {
    OfferedInDay(db, q, start);
    PrefilterKeepsConflicts(db, q, start);
    hide EffectiveWindows, Prefilter;
    if b :| b in bookings && Overlaps(b, start, start + q.duration) {
      assert b in db.bookings && Prefilter(b, q);
    }
    if b :| b in db.bookings && Prefilter(b, q) && Overlaps(b, start, start + q.duration) {
      assert b in bookings;
    }
  }

  lemma StartsExact(db: Db, q: Query, now: int, starts: seq<int>, bookings: seq<Booking>)
    requires q.duration >= 1 && ValidTimes(db)
    requires forall b :: b in bookings <==> b in db.bookings && Prefilter(b, q)
    requires forall s :: s in starts <==> OnGrid(EffectiveWindows(db, q), q.duration, s - Midnight(q))
    ensures forall s :: Offered(db, q, now, s) <==> s in starts && s > now && !Blocked(bookings, s, q.duration)
  {
    hide EffectiveWindows, Blocked, OnGrid, ValidTimes;
    forall s
      ensures Offered(db, q, now, s) <==> s in starts && s > now && !Blocked(bookings, s, q.duration)
    {
      if s in starts {
        LoopTest(db, q, now, bookings, s);
      }
    }
  }

  /** The final loop: candidates after `now` that no fetched booking overlaps. */
  method FilterFree(starts: seq<int>, bookings: seq<Booking>, now: int, duration: int) returns (free: seq<Slot>)
    requires Increasing(starts)
    ensures Ascending(free)
    ensures forall sl :: sl in free <==>
      sl.start in starts && sl.end == sl.start + duration && sl.start > now && !Blocked(bookings, sl.start, duration)
  {
    free := [];
    for i := 0 to |starts|
      invariant Ascending(free)
      invariant forall sl :: sl in free <==>
        sl.start in starts[..i] && sl.end == sl.start + duration && sl.start > now && !Blocked(bookings, sl.start, duration)
    {
      var start := starts[i];
      assert starts[..i + 1] == starts[..i] + [start];
      if start <= now {
        continue;
      }
      if !Blocked(bookings, start, duration) {
        assert forall k | 0 <= k < |free| :: free[k] in free;
        free := free + [Slot(start, start + duration)];
      }
    }
    assert starts[..|starts|] == starts;
  }

  method GetAvailableSlotsForDuration(db: Db, q: Query, now: int) returns (free: seq<Slot>)
    requires q.duration >= 1 && ValidTimes(db)
    ensures free == Answer(db, q, now)
  {
    var windows := WindowsFor(db, q);
    var starts := CandidateStarts(windows, Midnight(q), q.duration);
    starts := SortedSet(starts);
    var bookings := Select(db.bookings, (b: Booking) => Prefilter(b, q));
    StartsExact(db, q, now, starts, bookings);
    hide *;
    free := FilterFree(starts, bookings, now, q.duration);
    AnswerExact(db, q, now);
    AscendingUnique(free, Answer(db, q, now));
  }
}
