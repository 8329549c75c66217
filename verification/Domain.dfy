/** Values shared by several parts of the appointment backend. */
module Domain {
  datatype Option<+T> = None | Some(value: T)

  /** `BookingStatus` (app/models/booking.py). */
  datatype BookingStatus = Confirmed | PendingPayment | Cancelled

  /** A committed row of the bookings table; `[startsAt, endsAt)` is half-open. */
  datatype Booking = Booking(
    tenant: int,
    business: int,
    customer: int,
    service: int,
    staff: Option<int>,
    startsAt: int,
    endsAt: int,
    status: BookingStatus
  )

  /** Confirmed bookings and payment holds both occupy their slot. */
  predicate Active(b: Booking) {
    b.status != Cancelled
  }

  predicate Overlaps(b: Booking, start: int, end: int) {
    b.startsAt < end && b.endsAt > start
  }

  predicate IsOn(b: Booking, m: int) {
    b.startsAt <= m < b.endsAt
  }

  /** Half-open intervals overlap exactly when they share a minute. */
  lemma OverlapsIffSharedMinute(b: Booking, from: int, to: int)
    requires b.startsAt < b.endsAt && from < to
    ensures Overlaps(b, from, to) <==> exists m :: from <= m < to && IsOn(b, m)
  {
    if Overlaps(b, from, to) {
      var m := if b.startsAt <= from then from else b.startsAt;
      assert from <= m < to && IsOn(b, m);
    }
  }

  const WHITESPACE := " \t\n\r\U{000B}\U{000C}"

  /** `text.strip()` is not empty. */
  predicate HasText(s: string) {
    exists i | 0 <= i < |s| :: s[i] !in WHITESPACE
  }

  /** A SQL `WHERE`: the rows satisfying `p`, in table order. */
  function Select<T(!new)>(rows: seq<T>, p: T -> bool): (r: seq<T>)
    ensures forall x :: x in r <==> x in rows && p(x)
  {
    if rows == [] then []
    else if p(rows[0]) then [rows[0]] + Select(rows[1..], p)
    else Select(rows[1..], p)
  }

  /** A SQL column list: `f` of every row. */
  function Project<T(!new), R(!new)>(rows: seq<T>, f: T -> R): (r: seq<R>)
    ensures forall y :: y in r <==> exists x | x in rows :: f(x) == y
  {
    if rows == [] then []
    else
      assert forall x :: x in rows <==> x == rows[0] || x in rows[1..];
      [f(rows[0])] + Project(rows[1..], f)
  }

  /** Counting a set that loses `gone` and gains `offered`. */
  lemma SplitCount<T(!new)>(before: set<T>, gone: set<T>, offered: set<T>, after: set<T>)
    requires forall id :: id in after <==> (id in before && id !in gone) || id in offered
    requires forall id :: (id in gone ==> id in before) && (id in offered ==> id !in before)
    ensures |after| + |gone| == |before| + |offered|
  {
    assert gone <= before && after == (before - gone) + offered && (before - gone) !! offered;
    assert |before - gone| == |before| - |gone|;
  }

  /** Taking an element out of a non-empty set. */
  lemma Pick<T(!new)>(s: set<T>) returns (x: T, rest: set<T>)
    requires s != {}
    ensures x in s && rest == s - {x} && |rest| < |s| && forall y :: y in s <==> y == x || y in rest
  {
    x :| x in s;
    rest := s - {x};
  }

  lemma Empty<T(!new)>(s: set<T>)
    requires forall x :: x !in s
    ensures s == {}
  {
  }
}
