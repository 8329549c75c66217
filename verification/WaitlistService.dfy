/** The waitlist operations run one at a time on tables they update in place.
    Each is a run of the interleaved steps, so their invariant carries over. */
module WaitlistService {
  import opened Domain
  import opened Waitlist
  import opened WaitlistLaws

  // ---- who waits, and what a sweep does -----------------------------------

  /** The entry waits for a slot like this: with this staff member or with any. */
  predicate WaitsFor(e: Entry, wish: Wish, staff: Option<int>) {
    e.status == IsWaiting && e.wish == wish && (e.wants == None || e.wants == staff)
  }

  predicate NobodyWaits(entries: Entries, wish: Wish, staff: Option<int>) {
    forall id | id in entries :: !WaitsFor(entries[id], wish, staff)
  }

  /** Nobody who waits for such a slot has waited longer than `p`. */
  predicate WaitsLongest(entries: Entries, p: int, wish: Wish, staff: Option<int>) {
    && p in entries && WaitsFor(entries[p], wish, staff)
    && forall id | id in entries && WaitsFor(entries[id], wish, staff) :: entries[p].createdAt <= entries[id].createdAt
  }

  predicate IsExpiry(before: Entries, after: Entries, id: int, now: int) {
    id in before && id in after && after[id] == before[id].(status := IsExpired, updatedAt := now)
  }

  /** `to`, who waited for it, now has the offer that `from` let expire; nobody still waiting had waited longer. */
  predicate HandedOn(before: Entries, after: Entries, from: int, to: int, now: int) {
    && from in before && to in before && to in after
    && var wish, staff := before[from].wish, before[from].offeredFor;
      && WaitsFor(before[to], wish, staff) && after[to] == before[to].(status := IsOffered, offeredFor := staff, updatedAt := now)
      && forall id | id in after && WaitsFor(after[id], wish, staff) :: before[to].createdAt <= after[id].createdAt
  }

  /** Nobody is left who would take the offer that `from` let expire. */
  predicate NotWanted(before: Entries, after: Entries, from: int) {
    from in before && NobodyWaits(after, before[from].wish, before[from].offeredFor)
  }

  /** What a sweep over `stale` does: every offer expires, and the i-th goes to `picks[i]`, or to nobody when nobody
      would take it; no entry gets two offers, and no other entry changes. */
  ghost predicate Swept(before: Entries, after: Entries, stale: seq<int>, picks: seq<Option<int>>, now: int) {
    && |picks| == |stale| && after.Keys == before.Keys
    && (forall i | 0 <= i < |stale| :: IsExpiry(before, after, stale[i], now))
    && (forall i | 0 <= i < |stale| :: if picks[i].Some? then HandedOn(before, after, stale[i], picks[i].value, now) else NotWanted(before, after, stale[i]))
    && (forall i, j | 0 <= i < j < |picks| && picks[i].Some? :: picks[i] != picks[j])
    && (forall id | id in before && id !in stale && Some(id) !in picks :: after[id] == before[id])
  }

  /** One new notification for everybody picked. */
  ghost predicate Notified(before: multiset<int>, after: multiset<int>, picks: seq<Option<int>>) {
    forall id :: after[id] == before[id] + if Some(id) in picks then 1 else 0
  }

  /** Some candidate is oldest when there is any. */
  lemma {:induction false} OldestExists(view: Entries, ids: set<int>)
    requires ids != {} && forall id | id in ids :: id in view
    ensures exists p | p in ids :: forall id | id in ids :: view[p].createdAt <= view[id].createdAt
    decreases |ids|
  {
    var x, rest := Pick(ids);
    if rest == {} {
      assert forall id | id in ids :: id == x;
    } else {
      OldestExists(view, rest);
      var p :| p in rest && forall id | id in rest :: view[p].createdAt <= view[id].createdAt;
      var q := if view[x].createdAt <= view[p].createdAt then x else p;
      assert q in ids && forall id | id in ids :: view[q].createdAt <= view[id].createdAt;
    }
  }

  method FindOldest(view: Entries, slot: Slot) returns (pick: Option<int>)
    ensures IsPick(view, {}, slot, pick) && (pick.Some? ==> pick.value in view)
    ensures if pick == None then NobodyWaits(view, slot.wish, slot.staff) else WaitsLongest(view, pick.value, slot.wish, slot.staff)
  {
    var ids := set id | id in view && CandidateIn(view, {}, slot, id);
    if ids == {} {
      assert forall id | id in view :: id !in ids;
      return None;
    }
    OldestExists(view, ids);
    var p :| p in ids && forall id | id in ids :: view[p].createdAt <= view[id].createdAt;
    pick := Some(p);
    forall id | id in view && WaitsFor(view[id], slot.wish, slot.staff)
      ensures view[p].createdAt <= view[id].createdAt
    {
      assert id in ids;
    }
  }

  /** A transaction that ran alone, once published, leaves sound tables. */
  lemma Alone(s: State, x: Txn)
    requires Inv(s) && s.txns == map[] && TxnOk(s, x)
    ensures Inv(Publish(s, x))
  {
    PublishOk(s, x);
  }

  lemma FreeAlone(s: State, slot: Slot, pick: Option<int>)
    requires Inv(s) && s.txns == map[] && IsPick(s.entries, {}, slot, pick) && (pick.Some? ==> pick.value in s.entries)
    ensures Inv(State(
      if pick.Some? then s.entries[pick.value := Offer(s.entries[pick.value], slot.staff, s.now)] else s.entries,
      if pick.Some? then s.notifications + multiset{pick.value} else s.notifications,
      s.freed + multiset{slot}, map[], s.nextId, s.now))
  {
    hide Inv, IsPick, TxnOk, FreeTxn, Publish;
    FreeTxnOk(s, slot, pick, {});
    Alone(s, FreeTxn(s, slot, pick));
    FreePublishes(s, slot, pick);
  }

  lemma FreePublishes(s: State, slot: Slot, pick: Option<int>)
    requires s.txns == map[] && (pick.Some? ==> pick.value in s.entries)
    ensures Publish(s, FreeTxn(s, slot, pick)) == State(
      if pick.Some? then s.entries[pick.value := Offer(s.entries[pick.value], slot.staff, s.now)] else s.entries,
      if pick.Some? then s.notifications + multiset{pick.value} else s.notifications,
      s.freed + multiset{slot}, map[], s.nextId, s.now)
  {
    if pick.Some? {
      var p := pick.value;
      var e := Offer(s.entries[p], slot.staff, s.now);
      assert FreeTxn(s, slot, pick) == Txn(Some(slot), [], {} + {p}, map[][p := e], [] + [p]);
      hide FreeTxn, Offer;
      Overlay(s.entries, p, e);
      OneOffer(p);
    } else {
      assert s.entries + map[] == s.entries && s.notifications + multiset([]) == s.notifications;
    }
  }

  lemma Overlay(entries: Entries, p: int, e: Entry)
    ensures entries + map[][p := e] == entries[p := e]
  {
  }

  lemma OneOffer(p: int)
    ensures multiset([] + [p]) == multiset{p}
  {
  }

  /** The sweep's working tables: the committed rows overlaid with its writes. */
  ghost predicate Reflects(s: State, x: Txn, entries: Entries, notifications: multiset<int>) {
    TxnOk(s, x) && Fair(x, entries) && x.freeing == None && entries == s.entries + x.writes && notifications == s.notifications + multiset(x.offers)
  }

  lemma BeginSweep(s: State, stale: seq<int>) returns (x: Txn)
    requires NoDuplicates(stale) && forall id | id in stale :: id in s.entries && s.entries[id].status == IsOffered
    ensures Reflects(s, x, s.entries, s.notifications) && x.todo == stale && x.writes == map[]
  {
    x := Txn(None, stale, set id | id in stale, map[], []);
    SweepTxnOk(s, stale);
    assert s.entries + x.writes == s.entries;
    assert forall slot :: Outstanding(map[], slot) == {} && Expiring(map[], slot) == {};
  }

  lemma FirstStale(s: State, x: Txn, entries: Entries, notifications: multiset<int>)
    requires Reflects(s, x, entries, notifications) && x.todo != []
    ensures x.todo[0] in s.entries && x.todo[0] !in x.writes && x.todo[0] in entries && entries[x.todo[0]] == s.entries[x.todo[0]]
    ensures SweepView(s, x) == entries[x.todo[0] := Expire(s.entries[x.todo[0]], s.now)]
  {
    assert x.todo[0] in x.todo;
    ExpireShape(s, x);
  }

  /** Every offer the sweep expired was handed on, unless nobody is left who would take the slot. */
  ghost predicate Fair(x: Txn, entries: Entries) {
    forall slot: Slot :: |Outstanding(x.writes, slot)| == |Expiring(x.writes, slot)| || NobodyWaits(entries, slot.wish, slot.staff)
  }

  /** The writes of one turn change the balance of a slot only if nobody takes it. */
  lemma SlotBalance(x: Txn, id: int, gone: Entry, pick: Option<int>, w: Entry, slot: Slot)
    requires id !in x.writes && gone.status == IsExpired && |Outstanding(x.writes, slot)| == |Expiring(x.writes, slot)|
    requires pick.Some? ==> pick.value !in x.writes && pick.value != id && w.status == IsOffered && SlotOf(w) == SlotOf(gone)
    requires pick.Some? || slot != SlotOf(gone)
    ensures var writes := if pick.Some? then x.writes[id := gone][pick.value := w] else x.writes[id := gone];
      |Outstanding(writes, slot)| == |Expiring(writes, slot)|
  {
    AddExpiryBalance(x, id, gone, slot);
    if pick.Some? {
      AddOfferBalance(x.(writes := x.writes[id := gone]), pick.value, w, slot);
    }
    hide Outstanding, Expiring;
  }

  lemma EscalateWrites(s: State, x: Txn, pick: Option<int>)
    requires x.todo != [] && x.todo[0] in s.entries && (pick.Some? ==> pick.value in SweepView(s, x))
    ensures var x', gone := EscalateTxn(s, x, pick), Expire(s.entries[x.todo[0]], s.now);
      if pick == None then x'.writes == x.writes[x.todo[0] := gone]
      else x'.writes == x.writes[x.todo[0] := gone][pick.value := Offer(SweepView(s, x)[pick.value], SlotOf(gone).staff, s.now)]
  {
  }

  /** Whoever still waits after the turn waited before it and during its search. */
  lemma StillWaiting(s: State, x: Txn, pick: Option<int>, i: int)
    requires Shape(s, x) && x.todo != [] && x.todo[0] in s.entries && (pick.Some? ==> pick.value in SweepView(s, x))
    requires var x' := EscalateTxn(s, x, pick); i in s.entries + x'.writes && (s.entries + x'.writes)[i].status == IsWaiting
    ensures var view, entries, after := SweepView(s, x), s.entries + x.writes, s.entries + EscalateTxn(s, x, pick).writes;
      i in view && view[i] == after[i] && i in entries && entries[i] == after[i]
  {
    EscalateWrites(s, x, pick);
    hide EscalateTxn, Shape;
  }

  lemma KeepsFair(s: State, x: Txn, entries: Entries, pick: Option<int>)
    requires Shape(s, x) && x.todo != [] && x.todo[0] in s.entries && entries == s.entries + x.writes && Fair(x, entries)
    requires IsPick(SweepView(s, x), {}, SlotOf(s.entries[x.todo[0]]), pick) && (pick.Some? ==> pick.value in SweepView(s, x))
    requires pick.Some? ==> pick.value !in x.writes && pick.value != x.todo[0] && SweepView(s, x)[pick.value].wish == s.entries[x.todo[0]].wish
    ensures var x' := EscalateTxn(s, x, pick); Fair(x', s.entries + x'.writes)
  {
    var id := x.todo[0];
    var e, view, x' := s.entries[id], SweepView(s, x), EscalateTxn(s, x, pick);
    var after, gone := s.entries + x'.writes, Expire(e, s.now);
    ExpireShape(s, x);
    EscalateWrites(s, x, pick);
    forall slot: Slot
      ensures |Outstanding(x'.writes, slot)| == |Expiring(x'.writes, slot)| || NobodyWaits(after, slot.wish, slot.staff)
    {
      hide EscalateTxn, Shape, Outstanding, Expiring;
      if |Outstanding(x.writes, slot)| == |Expiring(x.writes, slot)| && (pick.Some? || slot != SlotOf(gone)) {
        SlotBalance(x, id, gone, pick, if pick.Some? then x'.writes[pick.value] else e, slot);
      } else {
        forall i | i in after
          ensures !WaitsFor(after[i], slot.wish, slot.staff)
        {
          if after[i].status == IsWaiting {
            StillWaiting(s, x, pick, i);
            assert pick == None ==> !CandidateIn(view, {}, SlotOf(e), i);
          }
        }
      }
    }
  }

  lemma NextSweep(s: State, x: Txn, entries: Entries, notifications: multiset<int>, pick: Option<int>) returns (x': Txn)
    requires Reflects(s, x, entries, notifications) && x.todo != [] && x.todo[0] in s.entries
    requires IsPick(SweepView(s, x), {}, SlotOf(s.entries[x.todo[0]]), pick) && (pick.Some? ==> pick.value in SweepView(s, x))
    ensures x'.todo == x.todo[1..]
    ensures var view := SweepView(s, x); var staff := s.entries[x.todo[0]].offeredFor;
      Reflects(s, x',
        if pick.Some? then view[pick.value := Offer(view[pick.value], staff, s.now)] else view,
        if pick.Some? then notifications + multiset{pick.value} else notifications)
  {
    EscalateTxnOk(s, x, pick, {});
    KeepsFair(s, x, entries, pick);
    hide TxnOk, IsPick, Fair;
    x' := EscalateTxn(s, x, pick);
    var view, staff := SweepView(s, x), s.entries[x.todo[0]].offeredFor;
    assert s.entries + x'.writes == if pick.Some? then view[pick.value := Offer(view[pick.value], staff, s.now)] else view;
    if pick.Some? {
      assert multiset(x'.offers) == multiset(x.offers) + multiset{pick.value};
    }
  }

  lemma EndSweep(s: State, x: Txn, entries: Entries, notifications: multiset<int>)
    requires Inv(s) && s.txns == map[] && Reflects(s, x, entries, notifications)
    ensures Inv(State(entries, notifications, s.freed, map[], s.nextId, s.now))
    ensures forall slot: Slot :: |Outstanding(entries, slot)| <= |Outstanding(s.entries, slot)|
    ensures forall slot: Slot :: |Outstanding(entries, slot)| == |Outstanding(s.entries, slot)| || NobodyWaits(entries, slot.wish, slot.staff)
  {
    Alone(s, x);
    PublishOk(s, x);
    forall slot: Slot
      ensures |Outstanding(entries, slot)| == |Outstanding(s.entries, slot)| || NobodyWaits(entries, slot.wish, slot.staff)
    {
      CommitCount(s, x, slot);
      assert |Outstanding(x.writes, slot)| == |Expiring(x.writes, slot)| || NobodyWaits(entries, slot.wish, slot.staff);
    }
  }

  lemma NothingSwept(entries: Entries, notifications: multiset<int>, now: int)
    ensures Swept(entries, entries, [], [], now) && Notified(notifications, notifications, [])
  {
  }

  /** An entry that the sweep has not touched yet. */
  lemma Untouched(before: Entries, mid: Entries, done: seq<int>, picks: seq<Option<int>>, now: int, id: int)
    requires Swept(before, mid, done, picks, now) && id in before
    requires mid[id].status == IsWaiting || (before[id].status == IsOffered && id !in done)
    ensures mid[id] == before[id] && id !in done && Some(id) !in picks
  {
    assert forall i | 0 <= i < |done| :: IsExpiry(before, mid, done[i], now) ==> mid[done[i]].status == IsExpired;
    assert forall i | 0 <= i < |picks| && picks[i].Some? :: HandedOn(before, mid, done[i], picks[i].value, now) ==> picks[i] != Some(id);
  }

  /** What was handed on, or not wanted, stays so while fewer and fewer wait. */
  lemma FewerWait(before: Entries, mid: Entries, after: Entries, from: int, to: Option<int>, now: int)
    requires forall id | id in after && after[id].status == IsWaiting :: id in mid && mid[id] == after[id]
    requires if to == None then NotWanted(before, mid, from)
      else HandedOn(before, mid, from, to.value, now) && to.value in after && after[to.value] == mid[to.value]
    ensures if to.Some? then HandedOn(before, after, from, to.value, now) else NotWanted(before, after, from)
  {
  }

  /** One turn: `id` expires, and `pick`, if any, gets its offer. */
  predicate Turn(mid: Entries, after: Entries, id: int, pick: Option<int>, now: int) {
    && id in mid
    && var view := mid[id := mid[id].(status := IsExpired, updatedAt := now)];
      && (if pick == None then NobodyWaits(view, mid[id].wish, mid[id].offeredFor)
          else WaitsLongest(view, pick.value, mid[id].wish, mid[id].offeredFor))
      && after == if pick == None then view
                  else view[pick.value := view[pick.value].(status := IsOffered, offeredFor := mid[id].offeredFor, updatedAt := now)]
  }

  lemma TurnEffect(before: Entries, mid: Entries, after: Entries, id: int, pick: Option<int>, now: int)
    requires Turn(mid, after, id, pick, now) && id in before && mid[id] == before[id] && mid[id].status == IsOffered
    requires pick.Some? && pick.value in mid ==> pick.value in before && mid[pick.value] == before[pick.value]
    ensures IsExpiry(before, after, id, now) && after.Keys == mid.Keys && (pick.Some? ==> pick.value in mid && mid[pick.value].status == IsWaiting)
    ensures if pick.Some? then HandedOn(before, after, id, pick.value, now) else NotWanted(before, after, id)
    ensures forall i | i in after && after[i].status == IsWaiting :: i in mid && mid[i] == after[i]
    ensures forall i | i in mid && i != id && pick != Some(i) :: after[i] == mid[i]
  {
  }

  lemma SweepsOne(before: Entries, mid: Entries, after: Entries, done: seq<int>, picks: seq<Option<int>>, id: int, pick: Option<int>, now: int)
    requires Swept(before, mid, done, picks, now) && id in before && id !in done && before[id].status == IsOffered
    requires Turn(mid, after, id, pick, now)
    ensures Swept(before, after, done + [id], picks + [pick], now)
    ensures pick.Some? ==> pick !in picks
  {
    Untouched(before, mid, done, picks, now, id);
    if pick.Some? {
      assert pick.value in mid && mid[pick.value].status == IsWaiting;
      Untouched(before, mid, done, picks, now, pick.value);
    }
    TurnEffect(before, mid, after, id, pick, now);
    hide Turn, HandedOn, NotWanted;
    var done', picks' := done + [id], picks + [pick];
    forall i | 0 <= i < |done'|
      ensures IsExpiry(before, after, done'[i], now)
      ensures if picks'[i].Some? then HandedOn(before, after, done'[i], picks'[i].value, now) else NotWanted(before, after, done'[i])
    {
      if i < |done| {
        assert IsExpiry(before, mid, done[i], now);
        if picks[i].Some? {
          WasOffered(before, mid, done[i], picks[i].value, now);
        }
        FewerWait(before, mid, after, done[i], picks[i], now);
      }
    }
    assert forall i | i in before && i !in done' && Some(i) !in picks' :: i !in done && Some(i) !in picks && i != id && pick != Some(i) by {
      assert picks'[|picks|] == pick && done'[|done|] == id;
    }
  }

  lemma WasOffered(before: Entries, mid: Entries, from: int, to: int, now: int)
    requires HandedOn(before, mid, from, to, now)
    ensures to in before && to in mid && mid[to].status == IsOffered && before[to].status == IsWaiting
  {
  }

  lemma NotifiesOne(before: multiset<int>, mid: multiset<int>, picks: seq<Option<int>>, pick: Option<int>)
    requires Notified(before, mid, picks) && (pick.Some? ==> pick !in picks)
    ensures Notified(before, if pick.Some? then mid + multiset{pick.value} else mid, picks + [pick])
  {
  }

  class Tables {
    var entries: Entries
    var notifications: multiset<int>
    var freed: multiset<Slot>
    var nextId: int
    var now: int

    ghost function Model(): State
      reads this
    {
      State(entries, notifications, freed, map[], nextId, now)
    }

    ghost predicate Valid()
      reads this
    {
      Inv(Model())
    }

    constructor ()
      ensures Valid() && entries == map[]
    {
      entries, notifications, freed, nextId, now := map[], multiset{}, multiset{}, 0, 0;
      new;
      EmptyInv();
    }

    /** The waitlist part of `cancel_booking` and `expire_pending_payment_hold`: the oldest entry that the
        freed slot satisfies gets it; nothing changes when there is none. */
    method OfferFreedSlot(slot: Slot) returns (pick: Option<int>)
      requires Valid()
      modifies this
      ensures Valid()
      ensures if pick == None then NobodyWaits(old(entries), slot.wish, slot.staff) else WaitsLongest(old(entries), pick.value, slot.wish, slot.staff)
      ensures entries == if pick == None then old(entries)
        else old(entries)[pick.value := old(entries)[pick.value].(status := IsOffered, offeredFor := slot.staff, updatedAt := now)]
      ensures notifications == if pick.Some? then old(notifications) + multiset{pick.value} else old(notifications)
      ensures freed == old(freed) + multiset{slot} && now == old(now)
    {
      hide Inv, IsPick, NobodyWaits, WaitsFor;
      pick := FindOldest(entries, slot);
      FreeAlone(Model(), slot, pick);
      if pick.Some? {
        var p := pick.value;
        entries := entries[p := Offer(entries[p], slot.staff, now)];
        notifications := notifications + multiset{p};
      }
      freed := freed + multiset{slot};
    }

    /** `expire_stale_waitlist_offers`: every stale offer expires and goes to a longest-waiting entry that would take
        it, with one notification, or to nobody when nobody would; no other entry changes. So a slot keeps its number
        of outstanding offers as long as anybody waits for it, and never gains any. */
    method ExpireStaleOffers(threshold: int, stale: seq<int>) returns (count: nat, ghost picks: seq<Option<int>>)
      requires Valid() && NoDuplicates(stale)
      requires forall id :: id in stale <==> id in entries && entries[id].status == IsOffered && entries[id].updatedAt <= threshold
      modifies this
      ensures Valid() && freed == old(freed) && now == old(now)
      ensures count == |stale|
      ensures Swept(old(entries), entries, stale, picks, now) && Notified(old(notifications), notifications, picks)
      ensures forall slot: Slot :: |Outstanding(entries, slot)| <= |Outstanding(old(entries), slot)|
      ensures forall slot: Slot :: |Outstanding(entries, slot)| == |Outstanding(old(entries), slot)| || NobodyWaits(entries, slot.wish, slot.staff)
    {
      hide Inv, Reflects, IsPick, Outstanding, Swept, Notified, WaitsLongest, NobodyWaits;
      ghost var s := Model();
      ghost var x := BeginSweep(s, stale);
      picks := [];
      NothingSwept(entries, notifications, now);
      for i := 0 to |stale|
        invariant freed == old(freed) && nextId == old(nextId) && now == old(now)
        invariant Reflects(s, x, entries, notifications) && x.todo == stale[i..]
        invariant Swept(old(entries), entries, stale[..i], picks, now) && Notified(old(notifications), notifications, picks)
      {
        FirstStale(s, x, entries, notifications);
        ghost var before, said := entries, notifications;
        var id := stale[i];
        var e := entries[id];
        entries := entries[id := Expire(e, now)];
        var pick := FindOldest(entries, SlotOf(e));
        x := NextSweep(s, x, before, notifications, pick);
        if pick.Some? {
          var p := pick.value;
          entries := entries[p := Offer(entries[p], e.offeredFor, now)];
          notifications := notifications + multiset{p};
        }
        assert stale[i..][1..] == stale[i + 1..] && stale[..i + 1] == stale[..i] + [id] && id !in stale[..i];
        SweepsOne(s.entries, before, entries, stale[..i], picks, id, pick, now);
        NotifiesOne(old(notifications), said, picks, pick);
        picks := picks + [pick];
      }
      EndSweep(s, x, entries, notifications);
      assert stale[..|stale|] == stale;
      count := |stale|;
    }
  }

  lemma SweepTxnOk(s: State, stale: seq<int>)
    requires NoDuplicates(stale) && forall id | id in stale :: id in s.entries && s.entries[id].status == IsOffered
    ensures TxnOk(s, Txn(None, stale, set id | id in stale, map[], []))
  {
    var x := Txn(None, stale, set id | id in stale, map[], []);
    forall k
      ensures |Outstanding(x.writes, k)| <= |Expiring(x.writes, k)|
    {
      assert Outstanding(x.writes, k) == {};
    }
  }
}
