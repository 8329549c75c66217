/** The user list: filters, sorting, and keyset pages that continue after a cursor. */
module Pagination {
  import opened Domain
  import opened EmailSearch

  datatype User = User(id: int, tenant: int, email: string, role: string, active: bool, tokenVersion: nat)
  datatype SortBy = ById | ByEmail | ByRole | ByActive

  datatype Query = Query(
    tenant: int, sortBy: SortBy, desc: bool, role: Option<string>, active: Option<bool>, search: Option<string>, mode: SearchMode)

  /** The decoded payload; a key missing from the JSON is `None`. */
  datatype Cursor = Cursor(
    sortBy: Option<SortBy>, desc: Option<bool>, role: Option<string>, active: Option<bool>, search: Option<string>,
    mode: Option<SearchMode>, id: Option<int>, value: Option<Value>)

  datatype Value = Num(n: int) | Text(s: string) | Flag(b: bool)

  datatype Page = Page(items: seq<User>, next: Option<Cursor>) | InvalidCursor

  // ---- order --------------------------------------------------------------

  function ValueOf(u: User, column: SortBy): Value {
    match column
    case ById => Num(u.id)
    case ByEmail => Text(u.email)
    case ByRole => Text(u.role)
    case ByActive => Flag(u.active)
  }

  predicate TextLess(a: string, b: string) {
    b != [] && (a == [] || a[0] < b[0] || (a[0] == b[0] && TextLess(a[1..], b[1..])))
  }

  predicate SameType(a: Value, b: Value) {
    a.Num? == b.Num? && a.Text? == b.Text?
  }

  predicate Less(a: Value, b: Value)
    requires SameType(a, b)
  {
    match a
    case Num(n) => n < b.n
    case Text(s) => TextLess(s, b.s)
    case Flag(f) => !f && b.b
  }

  /** Where a row stands in the list. */
  datatype Place = Place(value: Value, id: int)

  function PlaceOf(u: User, column: SortBy): Place {
    Place(ValueOf(u, column), u.id)
  }

  /** `ORDER BY column, id`, both ascending or both descending: `p` comes before `q`. */
  predicate Before(p: Place, q: Place, desc: bool)
    requires SameType(p.value, q.value)
  {
    if desc then Less(q.value, p.value) || (q.value == p.value && q.id < p.id)
    else Less(p.value, q.value) || (p.value == q.value && p.id < q.id)
  }

  predicate UserBefore(u: User, v: User, q: Query) {
    Before(PlaceOf(u, q.sortBy), PlaceOf(v, q.sortBy), q.desc)
  }

  predicate Sorted(s: seq<User>, q: Query) {
    forall i, j | 0 <= i < j < |s| :: UserBefore(s[i], s[j], q)
  }

  predicate UniqueIds(s: seq<User>) {
    forall i, j | 0 <= i < j < |s| :: s[i].id != s[j].id
  }

  // ---- queries ------------------------------------------------------------

  predicate Matches(q: Query, u: User) {
    && u.tenant == q.tenant
    && (q.role.Some? ==> u.role == q.role.value)
    && u.active == (if q.active.Some? then q.active.value else true)
    && (q.search.Some? ==> Ilike(LikePattern(q.search.value, q.mode), u.email))
  }

  function InsertSorted(u: User, s: seq<User>, q: Query): seq<User> {
    if s == [] then [u]
    else if UserBefore(u, s[0], q) then [u] + s
    else [s[0]] + InsertSorted(u, s[1..], q)
  }

  function OrderBy(s: seq<User>, q: Query): seq<User> {
    if s == [] then [] else InsertSorted(s[0], OrderBy(s[1..], q), q)
  }

  /** The whole list, in order: what the pages are pages of. */
  function Listing(table: seq<User>, q: Query): seq<User> {
    OrderBy(Select(table, u => Matches(q, u)), q)
  }

  function Limit(s: seq<User>, limit: nat): seq<User> {
    if |s| <= limit then s else s[..limit]
  }

  // ---- cursors ------------------------------------------------------------

  function CursorFor(u: User, q: Query): Cursor {
    Cursor(Some(q.sortBy), Some(q.desc), q.role, q.active, q.search, Some(q.mode), Some(u.id), Some(ValueOf(u, q.sortBy)))
  }

  function NextCursor(items: seq<User>, q: Query, limit: nat): Option<Cursor> {
    if |items| < limit || items == [] then None else Some(CursorFor(items[|items| - 1], q))
  }

  /** A cursor only continues the very query it came from. A value of another type than the column is refused by
      the database. */
  predicate Accepts(q: Query, c: Cursor) {
    && c.sortBy == Some(q.sortBy) && c.desc == Some(q.desc) && c.role == q.role && c.active == q.active
    && c.search == q.search && c.mode == Some(q.mode) && c.id.Some? && c.value.Some?
    && SameType(c.value.value, ValueOf(User(0, 0, "", "", false, 0), q.sortBy))
  }

  /** `_apply_keyset_filter`. */
  predicate AfterCursor(q: Query, c: Cursor, u: User)
    requires Accepts(q, c)
  {
    Before(Place(c.value.value, c.id.value), PlaceOf(u, q.sortBy), q.desc)
  }

  function GetUsers(table: seq<User>, q: Query, limit: nat, cursor: Option<Cursor>): Page {
    if cursor == None then
      var items := Limit(Listing(table, q), limit);
      Page(items, NextCursor(items, q, limit))
    else if !Accepts(q, cursor.value) then InvalidCursor
    else
      var c := cursor.value;
      var items := Limit(OrderBy(Select(table, u => Matches(q, u) && AfterCursor(q, c, u)), q), limit);
      Page(items, NextCursor(items, q, limit))
  }

  /** The offset form kept for page numbers. */
  function GetUsersOffset(table: seq<User>, q: Query, limit: nat, skip: nat): seq<User> {
    var all := Listing(table, q);
    if skip <= |all| then Limit(all[skip..], limit) else []
  }

  // ---- the order is total -------------------------------------------------

  lemma {:induction false} TextTotal(a: string, b: string)
    ensures a == b || TextLess(a, b) || TextLess(b, a)
    ensures !(TextLess(a, b) && TextLess(b, a)) && !TextLess(a, a)
    decreases |a|
  {
    if a != [] {
      TextTotal(a[1..], if b == [] then b else b[1..]);
      if b != [] && a[0] == b[0] && a[1..] == b[1..] {
        assert a == [a[0]] + a[1..] && b == [b[0]] + b[1..];
      }
    }
  }

  lemma {:induction false} TextTrans(a: string, b: string, c: string)
    requires TextLess(a, b) && TextLess(b, c)
    ensures TextLess(a, c)
    decreases |a|
  {
    if a != [] && a[0] == b[0] && b[0] == c[0] {
      TextTrans(a[1..], b[1..], c[1..]);
    }
  }

  lemma LessTotal(a: Value, b: Value)
    requires SameType(a, b)
    ensures a == b || Less(a, b) || Less(b, a)
    ensures !(Less(a, b) && Less(b, a)) && !Less(a, a)
  {
    hide TextLess;
    if a.Text? {
      TextTotal(a.s, b.s);
    }
  }

  lemma LessTrans(a: Value, b: Value, c: Value)
    requires SameType(a, b) && SameType(b, c) && Less(a, b) && Less(b, c)
    ensures Less(a, c)
  {
    hide TextLess;
    if a.Text? {
      TextTrans(a.s, b.s, c.s);
    }
  }

  lemma BeforeTotal(p: Place, q: Place, desc: bool)
    requires SameType(p.value, q.value)
    ensures p == q || Before(p, q, desc) || Before(q, p, desc)
    ensures !(Before(p, q, desc) && Before(q, p, desc)) && !Before(p, p, desc)
  {
    hide Less;
    LessTotal(p.value, q.value);
    LessTotal(p.value, p.value);
  }

  lemma BeforeTrans(p: Place, q: Place, r: Place, desc: bool)
    requires SameType(p.value, q.value) && SameType(q.value, r.value) && Before(p, q, desc) && Before(q, r, desc)
    ensures Before(p, r, desc)
  {
    hide Less;
    var (a, b, c) := if desc then (r.value, q.value, p.value) else (p.value, q.value, r.value);
    if Less(a, b) && Less(b, c) {
      LessTrans(a, b, c);
    }
  }

  // ---- sorting ------------------------------------------------------------

  lemma {:induction false} InsertMembers(u: User, s: seq<User>, q: Query)
    ensures multiset(InsertSorted(u, s, q)) == multiset(s) + multiset{u}
  {
    if s != [] {
      assert s == [s[0]] + s[1..];
      if !UserBefore(u, s[0], q) {
        InsertMembers(u, s[1..], q);
      }
    }
  }

  lemma ConsSorted(u: User, s: seq<User>, q: Query)
    requires Sorted(s, q) && forall v | v in s :: UserBefore(u, v, q)
    ensures Sorted([u] + s, q)
  {
  }

  lemma {:induction false} InsertIsSorted(u: User, s: seq<User>, q: Query)
    requires Sorted(s, q) && forall v | v in s :: v.id != u.id
    ensures Sorted(InsertSorted(u, s, q), q)
  {
    hide UserBefore;
    if s == [] {
    } else if UserBefore(u, s[0], q) {
      forall v | v in s
        ensures UserBefore(u, v, q)
      {
        if v != s[0] {
          UserTrans(u, s[0], v, q);
        }
      }
      ConsSorted(u, s, q);
    } else {
      InsertIsSorted(u, s[1..], q);
      InsertMembers(u, s[1..], q);
      var rest := InsertSorted(u, s[1..], q);
      forall v | v in rest
        ensures UserBefore(s[0], v, q)
      {
        assert v in multiset(rest);
        if v == u {
          UserTotal(u, s[0], q);
        }
      }
      ConsSorted(s[0], rest, q);
    }
  }

  lemma UserTrans(u: User, v: User, w: User, q: Query)
    requires UserBefore(u, v, q) && UserBefore(v, w, q)
    ensures UserBefore(u, w, q)
  {
    BeforeTrans(PlaceOf(u, q.sortBy), PlaceOf(v, q.sortBy), PlaceOf(w, q.sortBy), q.desc);
  }

  lemma UserTotal(u: User, v: User, q: Query)
    ensures u.id != v.id ==> UserBefore(u, v, q) || UserBefore(v, u, q)
    ensures !(UserBefore(u, v, q) && UserBefore(v, u, q)) && !UserBefore(u, u, q)
  {
    BeforeTotal(PlaceOf(u, q.sortBy), PlaceOf(v, q.sortBy), q.desc);
    BeforeTotal(PlaceOf(u, q.sortBy), PlaceOf(u, q.sortBy), q.desc);
  }

  /** ORDER BY yields the same rows, strictly in order. */
  lemma {:induction false} OrderBySorts(s: seq<User>, q: Query)
    requires UniqueIds(s)
    ensures Sorted(OrderBy(s, q), q) && multiset(OrderBy(s, q)) == multiset(s)
  {
    if s != [] {
      OrderBySorts(s[1..], q);
      var rest := OrderBy(s[1..], q);
      assert s == [s[0]] + s[1..];
      forall v | v in rest
        ensures v.id != s[0].id
      {
        assert v in multiset(rest);
        assert v in s[1..];
      }
      InsertIsSorted(s[0], rest, q);
      InsertMembers(s[0], rest, q);
    }
  }

  lemma HasMember(s: seq<User>)
    ensures s == [] || exists u :: u in s
  {
    if s != [] {
      assert s[0] in s;
    }
  }

  /** A strictly sorted list is determined by its elements. */
  lemma {:induction false} SortedUnique(a: seq<User>, b: seq<User>, q: Query)
    requires Sorted(a, q) && Sorted(b, q) && forall u :: u in a <==> u in b
    ensures a == b
    decreases |a|
  {
    hide UserBefore;
    if a == [] {
      HasMember(b);
    } else {
      assert a[0] in b && b != [] && b[0] in a;
      var x, y := a[0], b[0];
      UserTotal(x, y, q);
      assert x != y ==> UserBefore(x, y, q) && UserBefore(y, x, q);
      forall u
        ensures u in a[1..] <==> u in b[1..]
      {
        UserTotal(u, u, q);
        assert u in a[1..] ==> u in a && UserBefore(a[0], u, q);
        assert u in b[1..] ==> u in b && UserBefore(b[0], u, q);
      }
      SortedUnique(a[1..], b[1..], q);
      assert a == [a[0]] + a[1..] && b == [b[0]] + b[1..];
    }
  }
}
