/** The user list and its mutations, run one at a time with a working Redis. */
module UserService {
  import opened Domain
  import opened Pagination
  import opened UserListCache

  /** A row of one tenant never shows in the lists of another. */
  lemma {:induction false} SelectIgnoresOthers(table: seq<User>, i: nat, u: User, f: User -> bool)
    requires i < |table| && !f(table[i]) && !f(u)
    ensures Select(table[i := u], f) == Select(table, f)
  {
    if i == 0 {
      assert table[i := u][1..] == table[1..];
    } else {
      assert table[i := u][1..] == table[1..][i - 1 := u];
      SelectIgnoresOthers(table[1..], i - 1, u, f);
    }
  }

  lemma OtherTenantsUnaffected(table: seq<User>, i: nat, u: User, p: Params)
    requires i < |table| && table[i].tenant == u.tenant && p.query.tenant != u.tenant
    ensures PageOf(table[i := u], p) == PageOf(table, p)
  {
    var q := p.query;
    SelectIgnoresOthers(table, i, u, w => Matches(q, w));
    if p.cursor.Some? && Accepts(q, p.cursor.value) {
      SelectIgnoresOthers(table, i, u, w => Matches(q, w) && AfterCursor(q, p.cursor.value, w));
    }
  }

  lemma PageIs(table: seq<User>, p: Params)
    ensures PageOf(table, p) == if p.skip == 0 then Pagination.GetUsers(table, p.query, p.limit, p.cursor)
      else Page(GetUsersOffset(table, p.query, p.limit, p.skip), None)
  {
    hide GetUsersOffset, Pagination.GetUsers;
  }

  function Switched(u: User, active: bool): User {
    u.(active := active, tokenVersion := if active then u.tokenVersion else u.tokenVersion + 1)
  }

  class UserList {
    const cacheEnabled: bool
    var table: seq<User>
    var versions: map<int, nat>
    var cache: map<Key, Page>

    function Version(tenant: int): nat
      reads this
    {
      if tenant in versions then versions[tenant] else 0
    }

    /** Entries under a tenant's current version are what the database would answer now; no entry is ahead. */
    ghost predicate Coherent()
      reads this
    {
      forall k | k in cache ::
        && k.version <= Version(k.params.query.tenant)
        && (k.version == Version(k.params.query.tenant) ==> cache[k] == PageOf(table, k.params))
    }

    constructor (cacheEnabled: bool, table: seq<User>)
      ensures Coherent() && this.table == table && this.cacheEnabled == cacheEnabled
    {
      this.cacheEnabled, this.table, versions, cache := cacheEnabled, table, map[], map[];
    }

    /** Cached or not, the answer is the database's; a bad cursor is refused and never cached. */
    method GetUsers(p: Params) returns (page: Page)
      requires Coherent()
      modifies `cache
      ensures Coherent() && page == PageOf(table, p)
      ensures page == if p.skip == 0 then Pagination.GetUsers(table, p.query, p.limit, p.cursor)
        else Page(GetUsersOffset(table, p.query, p.limit, p.skip), None)
      ensures cacheEnabled && !page.InvalidCursor? ==>
        var key := Key(Version(p.query.tenant), p); key in cache && cache[key] == page && cache == old(cache)[key := page]
      ensures !cacheEnabled || page.InvalidCursor? ==> cache == old(cache)
    {
      hide PageOf, GetUsersOffset, Pagination.GetUsers;
      PageIs(table, p);
      var key := Key(Version(p.query.tenant), p);
      if cacheEnabled && key in cache {
        return cache[key];
      }
      page := PageOf(table, p);
      if cacheEnabled && !page.InvalidCursor? {
        cache := cache[key := page];
      }
    }

    method InvalidateUsersListCache(tenant: int)
      requires forall k | k in cache :: k.version <= Version(k.params.query.tenant)
      requires forall k | k in cache && k.params.query.tenant != tenant && k.version == Version(k.params.query.tenant) ::
        cache[k] == PageOf(table, k.params)
      modifies `versions
      ensures Coherent() && versions == old(versions)[tenant := old(Version(tenant)) + 1]
    {
      hide PageOf;
      versions := versions[tenant := Version(tenant) + 1];
    }

    /** `deactivate_user` and `activate_user`: exactly the one row changes, and every later list shows it; only a
        deactivation ends the user's tokens. */
    method SetActive(id: int, tenant: int, active: bool) returns (found: bool)
      requires Coherent()
      modifies `table, `versions
      ensures Coherent()
      ensures found <==> exists i | 0 <= i < |old(table)| :: old(table)[i].id == id && old(table)[i].tenant == tenant
      ensures !found ==> table == old(table) && versions == old(versions)
      ensures found ==> versions == old(versions)[tenant := old(Version(tenant)) + 1]
      ensures found ==> exists i | 0 <= i < |old(table)| ::
        && old(table)[i].id == id && old(table)[i].tenant == tenant && |table| == |old(table)| && table == old(table)[i := table[i]]
        && table[i] == old(table)[i].(active := active, tokenVersion := table[i].tokenVersion)
        && table[i].tokenVersion == old(table)[i].tokenVersion + (if active then 0 else 1)
    {
      hide PageOf;
      found := false;
      var i := 0;
      while i < |table|
        invariant 0 <= i <= |table| && forall k | 0 <= k < i :: !(table[k].id == id && table[k].tenant == tenant)
      {
        if table[i].id == id && table[i].tenant == tenant {
          break;
        }
        i := i + 1;
      }
      if i == |table| {
        return;
      }
      var u := Switched(table[i], active);
      forall k | k in cache && k.params.query.tenant != tenant
        ensures PageOf(table[i := u], k.params) == PageOf(table, k.params)
      {
        OtherTenantsUnaffected(table, i, u, k.params);
      }
      table := table[i := u];
      InvalidateUsersListCache(tenant);
      found := true;
    }
  }
}
