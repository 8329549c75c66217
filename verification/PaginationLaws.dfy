/** Keyset pages are slices of the sorted list, and following cursors visits it once from end to end. */
module PaginationLaws {
  import opened Domain
  import opened Pagination
  import opened EmailSearch

  lemma {:induction false} SelectUnique(table: seq<User>, p: User -> bool)
    requires UniqueIds(table)
    ensures UniqueIds(Select(table, p))
  {
    if table != [] {
      SelectUnique(table[1..], p);
      var rest := Select(table[1..], p);
      forall v | v in rest
        ensures v.id != table[0].id
      {
        assert v in table[1..];
      }
    }
  }

  /** A filtered query returns exactly the rows that satisfy the filter, strictly in order. */
  lemma QueryIsSorted(table: seq<User>, p: User -> bool, q: Query)
    requires UniqueIds(table)
    ensures var r := OrderBy(Select(table, p), q); Sorted(r, q) && forall u :: u in r <==> u in table && p(u)
  {
    SelectUnique(table, p);
    OrderBySorts(Select(table, p), q);
    var r := OrderBy(Select(table, p), q);
    forall u
      ensures u in r <==> u in table && p(u)
    {
      assert u in r <==> u in multiset(r);
      assert u in Select(table, p) <==> u in multiset(Select(table, p));
    }
  }

  lemma ListingIsSorted(table: seq<User>, q: Query)
    requires UniqueIds(table)
    ensures Sorted(Listing(table, q), q) && forall u :: u in Listing(table, q) <==> u in table && Matches(q, u)
  {
    QueryIsSorted(table, u => Matches(q, u), q);
  }

  lemma OwnCursorAccepted(q: Query, u: User)
    ensures Accepts(q, CursorFor(u, q))
  {
  }

  /** The rows after the cursor of the k-th row are the rest of the list. */
  /** A cursor continues a query exactly when it comes from one that agrees with it in everything but the tenant: the
      tenant is not part of the cursor. */
  lemma CursorAcceptedIff(q: Query, p: Query, u: User)
    ensures Accepts(q, CursorFor(u, p)) <==> q.(tenant := p.tenant) == p
  {
  }

  /** Ascending, a row comes before another by its column, by its id among equals; descending, the other way round. */
  lemma ListedInOrder(table: seq<User>, q: Query, i: nat, j: nat)
    requires UniqueIds(table) && i < j < |Listing(table, q)|
    ensures var all := Listing(table, q);
      var u, v := if q.desc then all[j] else all[i], if q.desc then all[i] else all[j];
      match q.sortBy
      case ById => u.id < v.id
      case ByEmail => TextLess(u.email, v.email) || (u.email == v.email && u.id < v.id)
      case ByRole => TextLess(u.role, v.role) || (u.role == v.role && u.id < v.id)
      case ByActive => (!u.active && v.active) || (u.active == v.active && u.id < v.id)
  {
    ListingIsSorted(table, q);
    hide Listing, Matches;
    assert UserBefore(Listing(table, q)[i], Listing(table, q)[j], q);
  }

  lemma AfterCursorIsSuffix(table: seq<User>, q: Query, k: nat)
    requires UniqueIds(table) && 0 < k <= |Listing(table, q)|
    ensures var all := Listing(table, q); var c := CursorFor(all[k - 1], q);
      Accepts(q, c) && OrderBy(Select(table, u => Matches(q, u) && AfterCursor(q, c, u)), q) == all[k..]
  {
    var all := Listing(table, q);
    var c := CursorFor(all[k - 1], q);
    OwnCursorAccepted(q, all[k - 1]);
    ListingIsSorted(table, q);
    var after := (u: User) => Matches(q, u) && AfterCursor(q, c, u);
    QueryIsSorted(table, after, q);
    var r := OrderBy(Select(table, after), q);
    hide Listing, OrderBy, Select, Matches, UserBefore;
    forall u
      ensures u in r <==> u in all[k..]
    {
      AfterIsLater(all, q, k, u);
      assert AfterCursor(q, c, u) == UserBefore(all[k - 1], u, q) by {
        CursorOrder(all[k - 1], u, q);
      }
      assert u in all[k..] ==> u in all;
    }
    SortedUnique(r, all[k..], q);
  }

  lemma CursorOrder(last: User, u: User, q: Query)
    ensures Accepts(q, CursorFor(last, q)) && AfterCursor(q, CursorFor(last, q), u) == UserBefore(last, u, q)
  {
  }

  /** In a strictly sorted list, the rows after position k - 1 are those at positions from k on. */
  lemma AfterIsLater(all: seq<User>, q: Query, k: nat, u: User)
    requires Sorted(all, q) && 0 < k <= |all|
    ensures u in all[k..] <==> u in all && UserBefore(all[k - 1], u, q)
  {
    hide UserBefore;
    if u in all {
      var i :| 0 <= i < |all| && all[i] == u;
      UserTotal(all[k - 1], u, q);
      assert i < k - 1 ==> UserBefore(all[i], all[k - 1], q);
      assert k <= i ==> UserBefore(all[k - 1], all[i], q) && all[k..][i - k] == u;
      if u in all[k..] {
        var j :| 0 <= j < |all[k..]| && all[k..][j] == u;
        assert UserBefore(all[k - 1], all[j + k], q);
      }
    }
  }

  /** The cursor a page would start from: none for the first, that of the preceding row otherwise. */
  function CursorAt(all: seq<User>, q: Query, k: nat): Option<Cursor>
    requires k <= |all|
  {
    if k == 0 then None else Some(CursorFor(all[k - 1], q))
  }

  /** Every page reached by cursors is a slice of the sorted list, and its cursor points at the slice's end; the
      walk ends exactly when fewer than `limit` rows were left. */
  lemma PageIsSlice(table: seq<User>, q: Query, limit: nat, k: nat)
    requires UniqueIds(table) && limit >= 1 && k <= |Listing(table, q)|
    ensures var all := Listing(table, q); var page := GetUsers(table, q, limit, CursorAt(all, q, k));
      && page.Page? && page.items == Limit(all[k..], limit)
      && (if k + limit <= |all| then page.next.Some? && page.next == CursorAt(all, q, k + limit) else page.next == None)
  {
    var all := Listing(table, q);
    if k > 0 {
      AfterCursorIsSuffix(table, q, k);
    } else {
      assert all[0..] == all;
    }
    hide Listing, OrderBy, Select, AfterCursor, Accepts;
    var items := Limit(all[k..], limit);
    assert |items| == limit ==> items[|items| - 1] == all[k + limit - 1];
  }

  /** Keyset and offset pages agree. */
  lemma KeysetAgreesWithOffset(table: seq<User>, q: Query, limit: nat, k: nat)
    requires UniqueIds(table) && limit >= 1 && k <= |Listing(table, q)|
    ensures var page := GetUsers(table, q, limit, CursorAt(Listing(table, q), q, k));
      page.Page? && page.items == GetUsersOffset(table, q, limit, k)
  {
    PageIsSlice(table, q, limit, k);
  }

  // ---- following cursors --------------------------------------------------

  function Joined(pages: seq<seq<User>>): seq<User> {
    if pages == [] then [] else Joined(pages[..|pages| - 1]) + pages[|pages| - 1]
  }

  /** Following `next_cursor` from no cursor until it is null: page k is the k-th slice, the slices together are
      the sorted list, and there are `|list| / limit + 1` of them. */
  method FollowCursors(table: seq<User>, q: Query, limit: nat) returns (pages: seq<seq<User>>)
    requires UniqueIds(table) && limit >= 1
    ensures |pages| == |Listing(table, q)| / limit + 1
    ensures forall k | 0 <= k < |pages| :: k * limit <= |Listing(table, q)| && pages[k] == Limit(Listing(table, q)[k * limit..], limit)
    ensures Joined(pages) == Listing(table, q)
  {
    hide *;
    var all := Listing(table, q);
    pages := [];
    NoneYet(all, q, pages);
    var cursor: Option<Cursor> := None;
    var done := false;
    ghost var at := 0;
    while !done
      invariant !done ==> at <= |all| && at == |pages| * limit && cursor == CursorAt(all, q, at) && Joined(pages) == all[..at]
      invariant done ==> |pages| >= 1 && (|pages| - 1) * limit <= |all| < |pages| * limit && Joined(pages) == all
      invariant forall k | 0 <= k < |pages| :: k * limit <= |all| && pages[k] == Limit(all[k * limit..], limit)
      decreases if done then 0 else |all| - at + 1
    {
      var page := GetUsers(table, q, limit, cursor);
      PageIsSlice(table, q, limit, at);
      SliceEnds(all, at, limit);
      JoinedSnoc(pages, page.items);
      TimesNext(|pages|, limit);
      pages := pages + [page.items];
      if page.next == None {
        done := true;
      } else {
        cursor := page.next;
        at := at + limit;
      }
    }
    QuotientIs(|all|, limit, |pages| - 1);
  }

  lemma NoneYet(all: seq<User>, q: Query, pages: seq<seq<User>>)
    requires pages == []
    ensures Joined(pages) == all[..0] && CursorAt(all, q, 0) == None
  {
  }

  lemma JoinedSnoc(pages: seq<seq<User>>, page: seq<User>)
    ensures Joined(pages + [page]) == Joined(pages) + page
  {
    assert (pages + [page])[..|pages|] == pages;
  }

  lemma SliceEnds(all: seq<User>, at: nat, limit: nat)
    requires at <= |all|
    ensures all[..at] + Limit(all[at..], limit) == if at + limit <= |all| then all[..at + limit] else all
  {
  }

  lemma TimesNext(n: nat, limit: nat)
    ensures (n + 1) * limit == n * limit + limit
  {
  }

  lemma QuotientIs(n: nat, limit: nat, k: nat)
    requires limit >= 1 && k * limit <= n < (k + 1) * limit
    ensures n / limit == k
  {
    var d := n / limit;
    assert d < k ==> (d + 1) * limit <= k * limit;
    assert d > k ==> (k + 1) * limit <= d * limit;
  }

  /** What a caller asks for: the tenant's users with this role, active unless asked otherwise, and with an address that
      starts with, or contains, the text up to case. */
  predicate Wanted(q: Query, u: User) {
    && u.tenant == q.tenant
    && (q.role == None || q.role == Some(u.role))
    && (q.active == Some(u.active) || (q.active == None && u.active))
    && (q.search == None || Found(Lower(q.search.value), q.mode, Lower(u.email)))
  }

  lemma MatchesIffWanted(q: Query, u: User)
    ensures Matches(q, u) <==> Wanted(q, u)
  {
    hide Ilike, LikePattern, Found, Lower;
    if q.search.Some? {
      SearchFindsTheText(q.search.value, q.mode, u.email);
    }
  }

  /** Every user asked for is on exactly one page, once, and no other user is. */
  lemma VisitedOnce(table: seq<User>, q: Query, u: User)
    requires UniqueIds(table)
    ensures multiset(Listing(table, q))[u] == if u in table && Wanted(q, u) then 1 else 0
  {
    MatchesIffWanted(q, u);
    ListingIsSorted(table, q);
    hide Matches;
    SortedHasNoDuplicates(Listing(table, q), q, u);
  }

  lemma {:induction false} SortedHasNoDuplicates(s: seq<User>, q: Query, u: User)
    requires Sorted(s, q)
    ensures multiset(s)[u] == if u in s then 1 else 0
  {
    hide UserBefore;
    if s != [] {
      SortedHasNoDuplicates(s[1..], q, u);
      UserTotal(u, u, q);
      assert s == [s[0]] + s[1..];
      assert u == s[0] && u in s[1..] ==> UserBefore(u, u, q);
    }
  }
}
