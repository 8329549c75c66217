/** The version-keyed cache in front of the user list: any number of readers and writers, interleaved at single
    Redis commands, commits and queries. */
module UserListCache {
  import opened Domain
  import opened Pagination
  import EmailSearch

  /** What the cache key hashes; distinct parameters have distinct hashes. */
  datatype Params = Params(query: Query, limit: nat, cursor: Option<Cursor>, skip: nat)

  datatype Key = Key(version: nat, params: Params)

  /** A cached list, and which state of the table it was computed from. */
  datatype Entry = Entry(page: Page, at: nat)

  /** `seen` is what had been invalidated when the read began, `sure` whether its version read succeeded. */
  datatype Reader =
    | Started(params: Params, seen: set<nat>)
    | Versioned(params: Params, seen: set<nat>, version: nat, sure: bool)
    | Missed(params: Params, seen: set<nat>, version: nat, sure: bool)
    | Queried(params: Params, seen: set<nat>, version: nat, sure: bool, entry: Entry)
    | Returned(params: Params, seen: set<nat>, sure: bool, entry: Entry)

  /** `history[i]` is the table after the first i committed mutations; mutation i belongs to tenant `owners[i]`,
      and `invalidated` maps it to the version its increment produced. */
  datatype Shared = Shared(history: seq<seq<User>>, owners: seq<int>, invalidated: map<nat, nat>, versions: map<int, nat>)

  datatype State = State(db: Shared, cache: map<Key, Entry>, readers: map<int, Reader>)

  function Initial(table: seq<User>): State {
    State(Shared([table], [], map[], map[]), map[], map[])
  }

  datatype Action =
    | Commit(tenant: int, table: seq<User>)
    | Invalidate(mutation: nat)
    | Evict(key: Key)
    | Begin(reader: int, params: Params)
    | Next(reader: int, ok: bool)

  function VersionOf(db: Shared, tenant: int): nat {
    if tenant in db.versions then db.versions[tenant] else 0
  }

  function PageOf(table: seq<User>, p: Params): Page {
    if p.skip > 0 then Page(GetUsersOffset(table, p.query, p.limit, p.skip), None)
    else GetUsers(table, p.query, p.limit, p.cursor)
  }

  /** Mutations of the tenant whose invalidation has reached Redis. */
  function Seen(db: Shared, tenant: int): set<nat> {
    set i | i in db.invalidated && i < |db.owners| && db.owners[i] == tenant
  }

  /** Reading the table as it is now. */
  function Fetch(db: Shared, p: Params): Entry
    requires db.history != []
  {
    Entry(PageOf(db.history[|db.history| - 1], p), |db.history| - 1)
  }

  /** The next command of a read; `ok` is false when Redis fails. */
  function Advance(s: State, r: Reader, ok: bool): Reader
    requires s.db.history != []
  {
    match r
    case Started(p, seen) => Versioned(p, seen, if ok then VersionOf(s.db, p.query.tenant) else 0, ok)
    case Versioned(p, seen, v, sure) =>
      if ok && Key(v, p) in s.cache then Returned(p, seen, sure, s.cache[Key(v, p)]) else Missed(p, seen, v, sure)
    case Missed(p, seen, v, sure) =>
      var entry := Fetch(s.db, p);
      if entry.page.InvalidCursor? then Returned(p, seen, sure, entry) else Queried(p, seen, v, sure, entry)
    case Queried(p, seen, v, sure, entry) => Returned(p, seen, sure, entry)
    case Returned(_, _, _, _) => r
  }

  function Commits(db: Shared, tenant: int, table: seq<User>): Shared {
    db.(history := db.history + [table], owners := db.owners + [tenant])
  }

  /** INCR of the tenant's version for a committed mutation. */
  function Increments(db: Shared, i: nat): Shared {
    if i < |db.owners| && i !in db.invalidated then
      var v := VersionOf(db, db.owners[i]) + 1;
      db.(versions := db.versions[db.owners[i] := v], invalidated := db.invalidated[i := v])
    else db
  }

  function Step(s: State, a: Action): State {
    match a
    case Commit(tenant, table) => s.(db := Commits(s.db, tenant, table))
    case Invalidate(i) => s.(db := Increments(s.db, i))
    case Evict(key) => s.(cache := s.cache - {key})
    case Begin(r, p) => s.(readers := s.readers[r := Started(p, Seen(s.db, p.query.tenant))])
    case Next(r, ok) =>
      if r !in s.readers || s.db.history == [] then s
      else
        var x := s.readers[r];
        s.(readers := s.readers[r := Advance(s, x, ok)],
           cache := if x.Queried? && ok then s.cache[Key(x.version, x.params) := x.entry] else s.cache)
  }

  function Run(table: seq<User>, trace: seq<Action>): State {
    if trace == [] then Initial(table) else Step(Run(table, trace[..|trace| - 1]), trace[|trace| - 1])
  }

  // ---- the invariant ------------------------------------------------------

  predicate IsPage(db: Shared, p: Params, e: Entry) {
    e.at < |db.history| && e.page == PageOf(db.history[e.at], p)
  }

  /** The entry is a page of some past table that has every mutation invalidated up to `version`. */
  predicate Reflects(db: Shared, p: Params, version: nat, e: Entry) {
    && IsPage(db, p, e)
    && forall i | i in db.invalidated && i < |db.owners| && db.owners[i] == p.query.tenant && db.invalidated[i] <= version :: i < e.at
  }

  /** The entry is a page of some past table that has every mutation in `seen`. */
  predicate Covers(db: Shared, p: Params, seen: set<nat>, e: Entry) {
    IsPage(db, p, e) && forall i | i in seen :: i < e.at
  }

  /** Everything a read has seen was invalidated at a version no later than `version`. */
  predicate Below(db: Shared, tenant: int, seen: set<nat>, version: nat) {
    forall i | i in seen :: i in db.invalidated && i < |db.owners| && db.owners[i] == tenant && db.invalidated[i] <= version
  }

  predicate Committed(db: Shared, seen: set<nat>) {
    forall i | i in seen :: i < |db.owners|
  }

  /** A read knows which version it asks for: the current one or older, or version 0 after a failed lookup. */
  predicate Looked(db: Shared, p: Params, seen: set<nat>, v: nat, sure: bool) {
    v <= VersionOf(db, p.query.tenant) && Committed(db, seen) && (if sure then Below(db, p.query.tenant, seen, v) else v == 0)
  }

  predicate ReaderOk(db: Shared, r: Reader) {
    match r
    case Started(p, seen) => Below(db, p.query.tenant, seen, VersionOf(db, p.query.tenant))
    case Versioned(p, seen, v, sure) => Looked(db, p, seen, v, sure)
    case Missed(p, seen, v, sure) => Looked(db, p, seen, v, sure)
    case Queried(p, seen, v, sure, e) => v <= VersionOf(db, p.query.tenant) && Reflects(db, p, v, e) && Covers(db, p, seen, e)
    case Returned(p, seen, sure, e) => IsPage(db, p, e) && (sure ==> Covers(db, p, seen, e))
  }

  predicate EntryOk(db: Shared, key: Key, e: Entry) {
    key.version <= VersionOf(db, key.params.query.tenant) && Reflects(db, key.params, key.version, e)
  }

  predicate SharedOk(db: Shared) {
    && |db.history| == |db.owners| + 1
    && forall i | i in db.invalidated :: i < |db.owners| && db.invalidated[i] <= VersionOf(db, db.owners[i])
  }

  ghost predicate Inv(s: State) {
    && SharedOk(s.db)
    && (forall key | key in s.cache :: EntryOk(s.db, key, s.cache[key]))
    && (forall r | r in s.readers :: ReaderOk(s.db, s.readers[r]))
  }

  // ---- every step keeps it ------------------------------------------------

  /** The shared state only grows: more history, more increments, higher versions for new ones. */
  ghost predicate Grows(db: Shared, db': Shared) {
    && SharedOk(db) && SharedOk(db')
    && db.history <= db'.history && db.owners <= db'.owners
    && (forall tenant :: VersionOf(db, tenant) <= VersionOf(db', tenant))
    && (forall i | i in db.invalidated :: i in db'.invalidated && db'.invalidated[i] == db.invalidated[i])
    && (forall i | i in db'.invalidated && i !in db.invalidated :: db'.invalidated[i] > VersionOf(db, db'.owners[i]))
  }

  lemma CommitGrows(db: Shared, tenant: int, table: seq<User>)
    requires SharedOk(db)
    ensures Grows(db, Commits(db, tenant, table))
  {
    var db' := Commits(db, tenant, table);
    assert forall i | 0 <= i < |db.owners| :: db'.owners[i] == db.owners[i];
    assert forall t :: VersionOf(db', t) == VersionOf(db, t);
  }

  lemma IncrementGrows(db: Shared, i: nat)
    requires SharedOk(db)
    ensures Grows(db, Increments(db, i))
  {
  }

  lemma PageKept(db: Shared, db': Shared, p: Params, e: Entry)
    requires db.history <= db'.history && IsPage(db, p, e)
    ensures IsPage(db', p, e)
  {
    hide PageOf;
    assert db'.history[e.at] == db.history[e.at];
  }

  lemma ReflectsKept(db: Shared, db': Shared, p: Params, version: nat, e: Entry)
    requires Grows(db, db') && Reflects(db, p, version, e) && version <= VersionOf(db, p.query.tenant)
    ensures Reflects(db', p, version, e)
  {
    PageKept(db, db', p, e);
    hide IsPage;
    forall i | i in db'.invalidated && i < |db'.owners| && db'.owners[i] == p.query.tenant && db'.invalidated[i] <= version
      ensures i < e.at
    {
      assert i in db.invalidated;
      assert db'.owners[i] == db.owners[i];
    }
  }

  lemma BelowKept(db: Shared, db': Shared, tenant: int, seen: set<nat>, version: nat, version': nat)
    requires Grows(db, db') && Below(db, tenant, seen, version) && version <= version'
    ensures Below(db', tenant, seen, version')
  {
    forall i | i in seen
      ensures i in db'.invalidated && i < |db'.owners| && db'.owners[i] == tenant && db'.invalidated[i] <= version'
    {
      assert db'.owners[i] == db.owners[i];
    }
  }

  lemma LookedKept(db: Shared, db': Shared, p: Params, seen: set<nat>, v: nat, sure: bool)
    requires Grows(db, db') && Looked(db, p, seen, v, sure)
    ensures Looked(db', p, seen, v, sure)
  {
    hide Below, SharedOk;
    if sure {
      BelowKept(db, db', p.query.tenant, seen, v, v);
    }
  }

  lemma ReaderKept(db: Shared, db': Shared, r: Reader)
    requires Grows(db, db') && ReaderOk(db, r)
    ensures ReaderOk(db', r)
  {
    hide IsPage, Reflects, Below, SharedOk, Looked;
    match r
    case Started(p, seen) =>
      BelowKept(db, db', p.query.tenant, seen, VersionOf(db, p.query.tenant), VersionOf(db', p.query.tenant));
    case Versioned(p, seen, v, sure) => LookedKept(db, db', p, seen, v, sure);
    case Missed(p, seen, v, sure) => LookedKept(db, db', p, seen, v, sure);
    case Queried(p, seen, v, sure, e) =>
      ReflectsKept(db, db', p, v, e);
      PageKept(db, db', p, e);
    case Returned(p, seen, sure, e) => PageKept(db, db', p, e);
  }

  lemma GrowthKeepsInv(s: State, db': Shared)
    requires Inv(s) && Grows(s.db, db')
    ensures Inv(s.(db := db'))
  {
    hide Reflects, ReaderOk, VersionOf;
    forall key | key in s.cache
      ensures EntryOk(db', key, s.cache[key])
    {
      assert EntryOk(s.db, key, s.cache[key]);
      ReflectsKept(s.db, db', key.params, key.version, s.cache[key]);
    }
    forall r | r in s.readers
      ensures ReaderOk(db', s.readers[r])
    {
      ReaderKept(s.db, db', s.readers[r]);
    }
  }

  lemma FetchIsFresh(db: Shared, p: Params, seen: set<nat>, v: nat)
    requires SharedOk(db) && Committed(db, seen)
    ensures Reflects(db, p, v, Fetch(db, p)) && Covers(db, p, seen, Fetch(db, p))
  {
    hide PageOf;
  }

  lemma AdvanceOk(s: State, r: Reader, ok: bool)
    requires Inv(s) && ReaderOk(s.db, r)
    ensures ReaderOk(s.db, Advance(s, r, ok))
  {
    hide Fetch, PageOf;
    match r
    case Versioned(p, seen, v, sure) =>
      if ok && Key(v, p) in s.cache {
        assert EntryOk(s.db, Key(v, p), s.cache[Key(v, p)]);
      }
    case Missed(p, seen, v, sure) => FetchIsFresh(s.db, p, seen, v);
    case _ =>
  }

  lemma NextKeepsInv(s: State, r: int, ok: bool)
    requires Inv(s) && r in s.readers
    ensures Inv(Step(s, Next(r, ok)))
  {
    AdvanceOk(s, s.readers[r], ok);
    hide Advance, SharedOk, Reflects, Covers, Below, VersionOf;
    var x := s.readers[r];
    assert x.Queried? ==> EntryOk(s.db, Key(x.version, x.params), x.entry);
    hide EntryOk, ReaderOk;
  }

  lemma BeginKeepsInv(s: State, r: int, p: Params)
    requires Inv(s)
    ensures Inv(Step(s, Begin(r, p)))
  {
    hide Reflects, Covers;
    assert ReaderOk(s.db, Started(p, Seen(s.db, p.query.tenant)));
    hide ReaderOk, SharedOk, EntryOk;
  }

  lemma StepKeepsInv(s: State, a: Action)
    requires Inv(s)
    ensures Inv(Step(s, a))
  {
    hide Commits, Increments, Advance, SharedOk, EntryOk, ReaderOk, Grows;
    match a
    case Commit(tenant, table) =>
      CommitGrows(s.db, tenant, table);
      GrowthKeepsInv(s, Commits(s.db, tenant, table));
    case Invalidate(i) =>
      IncrementGrows(s.db, i);
      GrowthKeepsInv(s, Increments(s.db, i));
    case Evict(key) =>
    case Begin(r, p) => BeginKeepsInv(s, r, p);
    case Next(r, ok) =>
      if r in s.readers {
        NextKeepsInv(s, r, ok);
      }
  }

  lemma {:induction false} RunKeepsInv(table: seq<User>, trace: seq<Action>)
    ensures Inv(Run(table, trace))
  {
    hide Step;
    if trace != [] {
      hide Inv;
      var n := |trace| - 1;
      RunKeepsInv(table, trace[..n]);
      StepKeepsInv(Run(table, trace[..n]), trace[n]);
    }
  }

  /** In every run: an entry cached under version v is a page of a table that has every mutation invalidated by
      the first v increments, whatever Redis commands failed. */
  lemma CachedEntriesAreFresh(table: seq<User>, trace: seq<Action>, key: Key)
    requires key in Run(table, trace).cache
    ensures Reflects(Run(table, trace).db, key.params, key.version, Run(table, trace).cache[key])
  {
    hide Run;
    RunKeepsInv(table, trace);
    assert EntryOk(Run(table, trace).db, key, Run(table, trace).cache[key]);
  }

  /** A read whose version lookup succeeded returns a page of a table that has every mutation invalidated before
      the read began. */
  lemma ReadsMissNothing(table: seq<User>, trace: seq<Action>, r: int)
    requires r in Run(table, trace).readers && Run(table, trace).readers[r].Returned? && Run(table, trace).readers[r].sure
    ensures var s := Run(table, trace); var x := s.readers[r];
      && x.entry.at < |s.db.history| && x.entry.page == PageOf(s.db.history[x.entry.at], x.params)
      && forall i | i in x.seen :: i < x.entry.at
  {
    hide Run, PageOf;
    RunKeepsInv(table, trace);
    assert ReaderOk(Run(table, trace).db, Run(table, trace).readers[r]);
  }

  /** A read that does not find its key, whether or not its version lookup succeeded, misses nothing either. */
  lemma MissesReadEverything(table: seq<User>, trace: seq<Action>, r: int, ok: bool)
    requires r in Run(table, trace).readers && Run(table, trace).readers[r].Missed?
    ensures var s := Run(table, trace); var x := s.readers[r];
      s.db.history != [] && var x' := Advance(s, x, ok); (x'.Queried? || x'.Returned?) && Covers(s.db, x.params, x.seen, x'.entry)
  {
    hide Run, PageOf;
    RunKeepsInv(table, trace);
    var s := Run(table, trace);
    var x := s.readers[r];
    assert ReaderOk(s.db, x);
    FetchIsFresh(s.db, x.params, x.seen, x.version);
  }

  // ---- a failed version lookup --------------------------------------------

  /** The read is about to return a list that lacks a mutation invalidated before it began. */
  predicate ReturnsStale(s: State, x: Reader, ok: bool)
    requires s.db.history != [] && x.Versioned?
  {
    var x' := Advance(s, x, ok);
    x'.Returned? && exists i | i in x.seen :: x'.entry.at <= i
  }

  /** In every run, a read returns a list that lacks such a mutation exactly when its version lookup failed, the
      following GET succeeds, and the list cached under version 0 is older than that mutation. */
  lemma StaleIffLookupFailed(table: seq<User>, trace: seq<Action>, r: int, ok: bool)
    requires r in Run(table, trace).readers && Run(table, trace).readers[r].Versioned?
    ensures var s := Run(table, trace); var x := s.readers[r];
      && s.db.history != []
      && (ReturnsStale(s, x, ok) <==>
            !x.sure && ok && Key(0, x.params) in s.cache && exists i | i in x.seen :: s.cache[Key(0, x.params)].at <= i)
  {
    hide Run, PageOf;
    RunKeepsInv(table, trace);
    var s := Run(table, trace);
    var x := s.readers[r];
    assert ReaderOk(s.db, x);
    if ok && Key(x.version, x.params) in s.cache {
      assert EntryOk(s.db, Key(x.version, x.params), s.cache[Key(x.version, x.params)]);
    }
  }

  const ANYONE := Query(1, ById, false, None, None, None, EmailSearch.Prefix)
  const FIRST_PAGE := Params(ANYONE, 1, None, 0)

  lemma Snoc(trace: seq<Action>, a: Action)
    ensures Run([], trace + [a]) == Step(Run([], trace), a)
  {
    assert (trace + [a])[..|trace|] == trace;
  }

  /** One command of reader `r`, which stands at `x`. */
  lemma Moves(trace: seq<Action>, r: int, x: Reader, ok: bool)
    requires var s := Run([], trace); r in s.readers && s.readers[r] == x && s.db.history != []
    ensures var s := Run([], trace);
      Run([], trace + [Next(r, ok)]) == s.(readers := s.readers[r := Advance(s, x, ok)],
        cache := if x.Queried? && ok then s.cache[Key(x.version, x.params) := x.entry] else s.cache)
  {
    hide Run, Advance;
    Snoc(trace, Next(r, ok));
  }

  lemma Starts(trace: seq<Action>, r: int, p: Params)
    ensures var s := Run([], trace);
      Run([], trace + [Begin(r, p)]) == s.(readers := s.readers[r := Started(p, Seen(s.db, p.query.tenant))])
  {
    hide Run, Seen;
    Snoc(trace, Begin(r, p));
  }

  /** A first reader fills the cache under version 0. */
  lemma Fill(p: Params, e: Entry) returns (trace: seq<Action>)
    requires e == Fetch(Initial([]).db, p) && e.page.Page?
    ensures var s := Run([], trace); s.db == Initial([]).db && s.cache == map[Key(0, p) := e]
  {
    var seen := Seen(Initial([]).db, p.query.tenant);
    assert Run([], []) == Initial([]) && VersionOf(Initial([]).db, p.query.tenant) == 0;
    hide Run, Fetch, Seen, VersionOf;
    Starts([], 0, p);
    trace := [] + [Begin(0, p)];
    Moves(trace, 0, Started(p, seen), true);
    trace := trace + [Next(0, true)];
    Moves(trace, 0, Versioned(p, seen, 0, true), true);
    trace := trace + [Next(0, true)];
    Moves(trace, 0, Missed(p, seen, 0, true), true);
    trace := trace + [Next(0, true)];
    Moves(trace, 0, Queried(p, seen, 0, true, e), true);
    trace := trace + [Next(0, true)];
    assert map[][Key(0, p) := e] == map[Key(0, p) := e];
  }

  /** A mutation of tenant 1 is committed and its invalidation reaches Redis. */
  lemma Mutates(trace: seq<Action>, table: seq<User>) returns (t: seq<Action>)
    requires Run([], trace).db == Initial([]).db
    ensures var s, s' := Run([], trace), Run([], t);
      s'.cache == s.cache && s'.db.history != [] && 0 in Seen(s'.db, 1)
  {
    hide Run;
    Snoc(trace, Commit(1, table));
    Snoc(trace + [Commit(1, table)], Invalidate(0));
    t := trace + [Commit(1, table)] + [Invalidate(0)];
    var db := Run([], t).db;
    assert db.owners == [1] && 0 in db.invalidated;
  }

  lemma NoUsersNoItems(p: Params)
    requires p == FIRST_PAGE
    ensures Fetch(Initial([]).db, p) == Entry(Page([], None), 0)
  {
    assert Select([], w => Matches(ANYONE, w)) == [];
  }

  /** When the version lookup itself fails the read uses version 0, and may return a list cached before any
      invalidation: here a reader misses the mutation that was committed and invalidated before it began. */
  lemma FailedLookupReadsStale(table: seq<User>) returns (trace: seq<Action>)
    ensures var x := Run([], trace).readers;
      1 in x && x[1].Returned? && !x[1].sure && 0 in x[1].seen && x[1].entry.at == 0
  {
    hide Run, Fetch, Seen, PageOf;
    var p, e := FIRST_PAGE, Entry(Page([], None), 0);
    NoUsersNoItems(p);
    trace := Fill(p, e);
    trace := Mutates(trace, table);
    var seen := Seen(Run([], trace).db, 1);
    Starts(trace, 1, p);
    trace := trace + [Begin(1, p)];
    Moves(trace, 1, Started(p, seen), false);
    trace := trace + [Next(1, false)];
    Moves(trace, 1, Versioned(p, seen, 0, false), true);
    trace := trace + [Next(1, true)];
  }
}
