/** Waitlist offers: cancellations and hold expiries free slots, the sweep expires
    stale offers and escalates. Transactions lock rows with SKIP LOCKED, buffer
    their writes and publish them at commit; they interleave in any order. */
module Waitlist {
  import opened Domain

  /** What an entry waits for. */
  datatype Wish = Wish(tenant: int, business: int, service: int, date: int)

  /** A freed slot: the wish it can satisfy and the staff member it belonged to. */
  datatype Slot = Slot(wish: Wish, staff: Option<int>)

  /** The other two statuses of the enumeration are never set by these operations. */
  datatype Status = IsWaiting | IsOffered | IsExpired

  datatype Entry = Entry(
    wish: Wish, wants: Option<int>, status: Status, offeredFor: Option<int>, createdAt: int, updatedAt: int)

  type Entries = map<int, Entry>

  function SlotOf(e: Entry): Slot {
    Slot(e.wish, e.offeredFor)
  }

  /** The filter of `find_matching_waitlist_entries`. */
  predicate Matches(e: Entry, slot: Slot) {
    e.status == IsWaiting && e.wish == slot.wish && (e.wants == None || e.wants == slot.staff)
  }

  predicate CandidateIn(view: Entries, skipped: set<int>, slot: Slot, id: int) {
    id in view && id !in skipped && Matches(view[id], slot)
  }

  /** The row `LIMIT 1 FOR UPDATE SKIP LOCKED` may return: an oldest match that nobody else has locked,
      or nothing when there is none. */
  predicate IsPick(view: Entries, skipped: set<int>, slot: Slot, pick: Option<int>) {
    match pick
    case None => forall id | id in view :: !CandidateIn(view, skipped, slot, id)
    case Some(p) =>
      && CandidateIn(view, skipped, slot, p)
      && forall id | id in view && CandidateIn(view, skipped, slot, id) :: view[p].createdAt <= view[id].createdAt
  }

  function Offer(e: Entry, staff: Option<int>, now: int): Entry {
    e.(status := IsOffered, offeredFor := staff, updatedAt := now)
  }

  function Expire(e: Entry, now: int): Entry {
    e.(status := IsExpired, updatedAt := now)
  }

  /** A transaction: the slot it frees (a cancellation) or none (a sweep), the stale offers it still has to
      process, its locks, its buffered writes and the entries it wrote an offer notification for. */
  datatype Txn = Txn(freeing: Option<Slot>, todo: seq<int>, locked: set<int>, writes: Entries, offers: seq<int>)

  datatype State = State(
    entries: Entries,
    notifications: multiset<int>,
    freed: multiset<Slot>,
    txns: map<int, Txn>,
    nextId: int,
    now: int)

  const EMPTY := State(map[], multiset{}, multiset{}, map[], 0, 0)

  ghost function LockedByOthers(s: State, t: int): set<int> {
    set u, id | u in s.txns && u != t && id in s.txns[u].locked :: id
  }

  /** The entry is an offer older than the threshold. */
  predicate Stale(e: Entry, threshold: int) {
    e.status == IsOffered && e.updatedAt <= threshold
  }

  predicate NoDuplicates(ids: seq<int>) {
    forall i, j | 0 <= i < j < |ids| :: ids[i] != ids[j]
  }

  /** Writing an offer to `pick`, if any: the lock, the row and its notification. */
  function WithOffer(x: Txn, view: Entries, staff: Option<int>, pick: Option<int>, now: int): Txn
    requires pick.Some? ==> pick.value in view
  {
    if pick == None then x
    else x.(locked := x.locked + {pick.value},
            writes := x.writes[pick.value := Offer(view[pick.value], staff, now)],
            offers := x.offers + [pick.value])
  }

  /** A cancellation's statements up to its commit. */
  function FreeTxn(s: State, slot: Slot, pick: Option<int>): Txn
    requires pick.Some? ==> pick.value in s.entries
  {
    WithOffer(Txn(Some(slot), [], {}, map[], []), s.entries, slot.staff, pick, s.now)
  }

  /** The sweep's view when it looks for the next entry: its own writes, the first stale offer expired. */
  function SweepView(s: State, x: Txn): Entries
    requires x.todo != [] && x.todo[0] in s.entries
  {
    s.entries + x.writes[x.todo[0] := Expire(s.entries[x.todo[0]], s.now)]
  }

  /** One turn of the sweep loop: expire the first stale offer, then offer its slot to `pick`. */
  function EscalateTxn(s: State, x: Txn, pick: Option<int>): Txn
    requires x.todo != [] && x.todo[0] in s.entries && (pick.Some? ==> pick.value in SweepView(s, x))
  {
    var e := s.entries[x.todo[0]];
    var x' := x.(todo := x.todo[1..], writes := x.writes[x.todo[0] := Expire(e, s.now)]);
    WithOffer(x', s.entries + x'.writes, e.offeredFor, pick, s.now)
  }

  /** What a commit makes visible. */
  function Publish(s: State, x: Txn): State {
    s.(entries := s.entries + x.writes,
       notifications := s.notifications + multiset(x.offers),
       freed := if x.freeing.Some? then s.freed + multiset{x.freeing.value} else s.freed)
  }

  datatype Action =
    | Join(wish: Wish, wants: Option<int>)
    | Free(txn: int, slot: Slot, pick: Option<int>)
    | Sweep(txn: int, threshold: int, stale: seq<int>)
    | Escalate(txn: int, pick: Option<int>)
    | Commit(txn: int)
    | Rollback(txn: int)
    | Tick(to: int)

  ghost predicate Enabled(s: State, a: Action) {
    match a
    case Join(_, _) => true
    case Free(t, slot, pick) => t !in s.txns && IsPick(s.entries, LockedByOthers(s, t), slot, pick)
    case Sweep(t, threshold, stale) =>
      && t !in s.txns && NoDuplicates(stale)
      && forall id :: id in stale <==> id in s.entries && id !in LockedByOthers(s, t) && Stale(s.entries[id], threshold)
    case Escalate(t, pick) =>
      && t in s.txns && s.txns[t].todo != [] && s.txns[t].todo[0] in s.entries
      && var x := s.txns[t]; IsPick(SweepView(s, x), LockedByOthers(s, t), SlotOf(s.entries[x.todo[0]]), pick)
    case Commit(t) => t in s.txns && s.txns[t].todo == []
    case Rollback(t) => t in s.txns
    case Tick(to) => s.now <= to
  }

  ghost function Step(s: State, a: Action): State {
    if !Enabled(s, a) then s
    else match a
      case Join(wish, wants) =>
        s.(entries := s.entries[s.nextId := Entry(wish, wants, IsWaiting, None, s.now, s.now)], nextId := s.nextId + 1)
      case Free(t, slot, pick) =>
        s.(txns := s.txns[t := FreeTxn(s, slot, pick)])
      case Sweep(t, _, stale) =>
        s.(txns := s.txns[t := Txn(None, stale, set id | id in stale, map[], [])])
      case Escalate(t, pick) =>
        s.(txns := s.txns[t := EscalateTxn(s, s.txns[t], pick)])
      case Commit(t) =>
        Publish(s, s.txns[t]).(txns := s.txns - {t})
      case Rollback(t) => s.(txns := s.txns - {t})
      case Tick(to) => s.(now := to)
  }

  ghost function Run(s: State, trace: seq<Action>): State {
    if trace == [] then s else Step(Run(s, trace[..|trace| - 1]), trace[|trace| - 1])
  }

  // ---- counting -----------------------------------------------------------

  /** Entries holding an unexpired offer for `slot`. */
  function Outstanding(entries: Entries, slot: Slot): set<int> {
    set id | id in entries && entries[id].status == IsOffered && SlotOf(entries[id]) == slot
  }

  /** Buffered expiries of offers for `slot`. */
  function Expiring(writes: Entries, slot: Slot): set<int> {
    set id | id in writes && writes[id].status == IsExpired && SlotOf(writes[id]) == slot
  }

  // ---- the invariant ------------------------------------------------------

  /** A waiting entry has no notification, any other has exactly one and was offered a slot it wanted. */
  predicate EntryOk(s: State, id: int) {
    if id !in s.entries then s.notifications[id] == 0
    else
      var e := s.entries[id];
      && id < s.nextId
      && (if e.status == IsWaiting then s.notifications[id] == 0
          else s.notifications[id] == 1 && (e.wants == None || e.wants == e.offeredFor))
  }

  /** A buffered write offers a waiting entry, with one notification, or expires an offered one, with none. */
  predicate WriteOk(s: State, x: Txn, id: int)
    requires id in x.writes
  {
    var w := x.writes[id];
    && id in s.entries && id in x.locked && id !in x.todo
    && var e := s.entries[id];
      || (e.status == IsWaiting && w == Offer(e, w.offeredFor, w.updatedAt) && multiset(x.offers)[id] == 1 && (e.wants == None || e.wants == w.offeredFor))
      || (e.status == IsOffered && w == Expire(e, w.updatedAt) && multiset(x.offers)[id] == 0)
  }

  /** Per slot, offers written never exceed offers expired, plus the slot being freed. */
  ghost predicate Balanced(x: Txn) {
    forall slot :: |Outstanding(x.writes, slot)| <= |Expiring(x.writes, slot)| + (if x.freeing == Some(slot) then 1 else 0)
  }

  /** Locks, writes, offers and stale offers to come fit together and fit the tables. */
  ghost predicate Shape(s: State, x: Txn) {
    && (forall id | id in x.locked :: id in s.entries)
    && (forall id | id in x.writes :: WriteOk(s, x, id))
    && (forall id | id in x.offers :: id in x.writes)
    && (forall id | id in x.todo :: id in x.locked && id in s.entries && s.entries[id].status == IsOffered)
    && NoDuplicates(x.todo)
  }

  ghost predicate TxnOk(s: State, x: Txn) {
    Shape(s, x) && Balanced(x)
  }

  ghost predicate Inv(s: State) {
    && (forall id :: EntryOk(s, id))
    && (forall t | t in s.txns :: TxnOk(s, s.txns[t]))
    && (forall t, u | t in s.txns && u in s.txns && t != u :: s.txns[t].locked !! s.txns[u].locked)
    && (forall slot :: |Outstanding(s.entries, slot)| <= s.freed[slot])
  }
}
