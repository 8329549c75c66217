/** Safety of every interleaving of cancellations, hold expiries and sweeps. */
module WaitlistLaws {
  import opened Domain
  import opened Waitlist

  lemma NotIn(offers: seq<int>, id: int)
    requires id !in offers
    ensures multiset(offers)[id] == 0
  {
  }

  // ---- steps that touch one transaction -----------------------------------

  lemma AddOfferBalance(x: Txn, p: int, w: Entry, slot: Slot)
    requires p !in x.writes && w.status == IsOffered
    ensures var writes := x.writes[p := w];
      && Expiring(writes, slot) == Expiring(x.writes, slot)
      && Outstanding(writes, slot) == (if SlotOf(w) == slot then Outstanding(x.writes, slot) + {p} else Outstanding(x.writes, slot))
      && p !in Outstanding(x.writes, slot)
  {
  }

  lemma AddExpiryBalance(x: Txn, p: int, w: Entry, slot: Slot)
    requires p !in x.writes && w.status == IsExpired
    ensures var writes := x.writes[p := w];
      && Outstanding(writes, slot) == Outstanding(x.writes, slot)
      && Expiring(writes, slot) == (if SlotOf(w) == slot then Expiring(x.writes, slot) + {p} else Expiring(x.writes, slot))
      && p !in Expiring(x.writes, slot)
  {
  }

  lemma OfferShape(s: State, x: Txn, slot: Slot, pick: Option<int>)
    requires Shape(s, x) && (pick.Some? ==> pick.value in s.entries && pick.value !in x.writes && Matches(s.entries[pick.value], slot))
    ensures Shape(s, WithOffer(x, s.entries + x.writes, slot.staff, pick, s.now))
  {
    if pick.Some? {
      var p := pick.value;
      var x' := WithOffer(x, s.entries + x.writes, slot.staff, pick, s.now);
      assert x'.writes[p] == Offer(s.entries[p], slot.staff, s.now);
      assert multiset(x'.offers) == multiset(x.offers) + multiset{p};
      assert p !in x.offers;
      NotIn(x.offers, p);
      forall id | id in x'.writes
        ensures WriteOk(s, x', id)
      {
        if id != p {
          assert WriteOk(s, x, id);
        }
      }
    }
  }

  lemma FreeTxnOk(s: State, slot: Slot, pick: Option<int>, skipped: set<int>)
    requires IsPick(s.entries, skipped, slot, pick)
    ensures TxnOk(s, FreeTxn(s, slot, pick)) && FreeTxn(s, slot, pick).locked !! skipped
  {
    var x := Txn(Some(slot), [], {}, map[], []);
    assert s.entries + x.writes == s.entries;
    OfferShape(s, x, slot, pick);
    var x' := FreeTxn(s, slot, pick);
    forall k
      ensures |Outstanding(x'.writes, k)| <= |Expiring(x'.writes, k)| + (if x'.freeing == Some(k) then 1 else 0)
    {
      assert Outstanding(x.writes, k) == {};
      if pick.Some? {
        AddOfferBalance(x, pick.value, x'.writes[pick.value], k);
      }
    }
  }

  lemma FreeKeepsInv(s: State, t: int, slot: Slot, pick: Option<int>)
    requires Inv(s) && Enabled(s, Free(t, slot, pick))
    ensures Inv(Step(s, Free(t, slot, pick)))
  {
    FreeTxnOk(s, slot, pick, LockedByOthers(s, t));
    NewTxn(s, t, FreeTxn(s, slot, pick), Step(s, Free(t, slot, pick)));
  }

  lemma OthersLock(s: State, t: int, u: int)
    requires u in s.txns && u != t
    ensures s.txns[u].locked <= LockedByOthers(s, t)
  {
    forall id | id in s.txns[u].locked
      ensures id in LockedByOthers(s, t)
    {
      assert u in s.txns && u != t && id in s.txns[u].locked;
    }
  }

  /** Installing a sound transaction whose locks nobody else holds. */
  lemma NewTxn(s: State, t: int, x: Txn, s': State)
    requires Inv(s) && s' == s.(txns := s.txns[t := x])
    requires Shape(s, x) && Balanced(x) && x.locked !! LockedByOthers(s, t)
    ensures Inv(s')
  {
    hide Balanced;
    forall u | u in s'.txns
      ensures TxnOk(s', s'.txns[u])
    {
      assert u != t ==> TxnOk(s, s.txns[u]);
      SameEntries(s, s', s'.txns[u]);
    }
    forall id
      ensures EntryOk(s', id)
    {
      assert EntryOk(s, id);
    }
    forall u, v | u in s'.txns && v in s'.txns && u != v
      ensures s'.txns[u].locked !! s'.txns[v].locked
    {
      if u != t {
        OthersLock(s, t, u);
      }
      if v != t {
        OthersLock(s, t, v);
      }
    }
  }

  lemma SameEntries(s: State, s': State, x: Txn)
    requires s'.entries == s.entries && Shape(s, x) && Balanced(x)
    ensures TxnOk(s', x)
  {
    hide Balanced;
    forall id | id in x.writes
      ensures WriteOk(s', x, id)
    {
      assert WriteOk(s, x, id);
    }
  }

  lemma SweepKeepsInv(s: State, t: int, threshold: int, stale: seq<int>)
    requires Inv(s) && Enabled(s, Sweep(t, threshold, stale))
    ensures Inv(Step(s, Sweep(t, threshold, stale)))
  {
    var x := Txn(None, stale, set id | id in stale, map[], []);
    forall k
      ensures |Outstanding(x.writes, k)| <= |Expiring(x.writes, k)|
    {
      assert Outstanding(x.writes, k) == {};
    }
    NewTxn(s, t, x, Step(s, Sweep(t, threshold, stale)));
  }

  /** Taking the first stale offer of the sweep and buffering its expiry. */
  lemma ExpireShape(s: State, x: Txn)
    requires Shape(s, x) && x.todo != []
    ensures var id := x.todo[0];
      id !in x.writes && Shape(s, x.(todo := x.todo[1..], writes := x.writes[id := Expire(s.entries[id], s.now)]))
  {
    var id := x.todo[0];
    assert id in x.todo;
    assert id in x.writes ==> WriteOk(s, x, id);
    var x' := x.(todo := x.todo[1..], writes := x.writes[id := Expire(s.entries[id], s.now)]);
    assert forall i | i in x'.todo :: i in x.todo && i != id;
    assert id !in x.offers;
    NotIn(x.offers, id);
    forall i | i in x'.writes
      ensures WriteOk(s, x', i)
    {
      if i != id {
        assert WriteOk(s, x, i);
      }
    }
  }

  lemma EscalateBalance(x: Txn, id: int, e: Entry, x1: Txn, pick: Option<int>, w: Entry, x2: Txn)
    requires Balanced(x) && id !in x.writes && e.status == IsExpired && x1.writes == x.writes[id := e]
    requires x1.freeing == x.freeing == x2.freeing
    requires pick == None ==> x2.writes == x1.writes
    requires pick.Some? ==> pick.value !in x1.writes && w.status == IsOffered && SlotOf(w) == SlotOf(e) && x2.writes == x1.writes[pick.value := w]
    ensures Balanced(x2)
  {
    forall k
      ensures |Outstanding(x2.writes, k)| <= |Expiring(x2.writes, k)| + (if x2.freeing == Some(k) then 1 else 0)
    {
      assert |Outstanding(x.writes, k)| <= |Expiring(x.writes, k)| + (if x.freeing == Some(k) then 1 else 0);
      AddExpiryBalance(x, id, e, k);
      if pick.Some? {
        AddOfferBalance(x1, pick.value, w, k);
      }
    }
  }

  lemma EscalateTxnOk(s: State, x: Txn, pick: Option<int>, skipped: set<int>)
    requires TxnOk(s, x) && x.todo != [] && x.locked !! skipped
    requires x.todo[0] in s.entries && IsPick(SweepView(s, x), skipped, SlotOf(s.entries[x.todo[0]]), pick)
    ensures TxnOk(s, EscalateTxn(s, x, pick)) && EscalateTxn(s, x, pick).locked !! skipped
    ensures pick.Some? ==> pick.value !in x.writes && pick.value != x.todo[0] && pick.value in s.entries && s.entries[pick.value].status == IsWaiting
  {
    var id := x.todo[0];
    var e := s.entries[id];
    var expired := Expire(e, s.now);
    var x1 := x.(todo := x.todo[1..], writes := x.writes[id := expired]);
    ExpireShape(s, x);
    if pick.Some? {
      var p := pick.value;
      assert Matches(SweepView(s, x)[p], SlotOf(e));
      assert p in x1.writes ==> WriteOk(s, x1, p);
    }
    OfferShape(s, x1, SlotOf(e), pick);
    var x2 := EscalateTxn(s, x, pick);
    var w := if pick.Some? then x2.writes[pick.value] else expired;
    EscalateBalance(x, id, expired, x1, pick, w, x2);
  }

  lemma EscalateKeepsInv(s: State, t: int, pick: Option<int>)
    requires Inv(s) && Enabled(s, Escalate(t, pick))
    ensures Inv(Step(s, Escalate(t, pick)))
  {
    var x := s.txns[t];
    assert TxnOk(s, x);
    assert x.locked !! LockedByOthers(s, t);
    EscalateTxnOk(s, x, pick, LockedByOthers(s, t));
    NewTxn(s, t, EscalateTxn(s, x, pick), Step(s, Escalate(t, pick)));
  }

  // ---- commit -------------------------------------------------------------

  /** Publishing the writes: offers for a slot change by what was offered minus what expired. */
  lemma CommitCount(s: State, x: Txn, slot: Slot)
    requires forall id | id in x.writes :: WriteOk(s, x, id)
    ensures |Outstanding(s.entries + x.writes, slot)| + |Expiring(x.writes, slot)| ==
            |Outstanding(s.entries, slot)| + |Outstanding(x.writes, slot)|
  {
    var before, gone, offered := Outstanding(s.entries, slot), Expiring(x.writes, slot), Outstanding(x.writes, slot);
    var after := Outstanding(s.entries + x.writes, slot);
    forall id
      ensures (id in after <==> (id in before && id !in gone) || id in offered)
      ensures (id in gone ==> id in before) && (id in offered ==> id !in before)
    {
      CommitMember(s, x, slot, id);
    }
    hide Outstanding, Expiring;
    SplitCount(before, gone, offered, after);
  }

  lemma CommitMember(s: State, x: Txn, slot: Slot, id: int)
    requires id in x.writes ==> WriteOk(s, x, id)
    ensures var before, gone, offered := Outstanding(s.entries, slot), Expiring(x.writes, slot), Outstanding(x.writes, slot);
      && (id in Outstanding(s.entries + x.writes, slot) <==> (id in before && id !in gone) || id in offered)
      && (id in gone ==> id in before) && (id in offered ==> id !in before)
  {
  }

  lemma CommitEntry(s: State, x: Txn, id: int)
    requires EntryOk(s, id) && TxnOk(s, x)
    ensures EntryOk(Publish(s, x), id)
  {
    hide Balanced;
    if id in x.writes {
      assert WriteOk(s, x, id);
    } else {
      NotIn(x.offers, id);
    }
  }

  /** Publishing a sound transaction keeps the committed tables sound; without a freed slot no slot gains offers. */
  lemma PublishOk(s: State, x: Txn)
    requires Inv(s) && TxnOk(s, x)
    ensures forall id :: EntryOk(Publish(s, x), id)
    ensures forall slot :: |Outstanding(Publish(s, x).entries, slot)| <= Publish(s, x).freed[slot]
    ensures x.freeing == None ==> forall slot :: |Outstanding(Publish(s, x).entries, slot)| <= |Outstanding(s.entries, slot)|
  {
    forall id
      ensures EntryOk(Publish(s, x), id)
    {
      assert EntryOk(s, id);
      CommitEntry(s, x, id);
    }
    forall slot
      ensures |Outstanding(Publish(s, x).entries, slot)| <= Publish(s, x).freed[slot]
      ensures x.freeing == None ==> |Outstanding(Publish(s, x).entries, slot)| <= |Outstanding(s.entries, slot)|
    {
      CommitCount(s, x, slot);
      assert |Outstanding(x.writes, slot)| <= |Expiring(x.writes, slot)| + (if x.freeing == Some(slot) then 1 else 0);
      assert |Outstanding(s.entries, slot)| <= s.freed[slot];
    }
  }

  lemma CommitOther(s: State, x: Txn, y: Txn, s': State)
    requires TxnOk(s, x) && TxnOk(s, y) && x.locked !! y.locked && s'.entries == s.entries + x.writes
    ensures TxnOk(s', y)
  {
    hide Balanced;
    forall id | id in y.locked
      ensures id in s'.entries && s'.entries[id] == s.entries[id]
    {
      if id in x.writes {
        assert WriteOk(s, x, id);
      }
    }
    forall id | id in y.writes
      ensures WriteOk(s', y, id)
    {
      assert WriteOk(s, y, id);
    }
  }

  lemma CommitKeepsInv(s: State, t: int)
    requires Inv(s) && Enabled(s, Commit(t))
    ensures Inv(Step(s, Commit(t)))
  {
    var x := s.txns[t];
    var s' := Step(s, Commit(t));
    assert TxnOk(s, x);
    PublishOk(s, x);
    forall id
      ensures EntryOk(s', id)
    {
      assert EntryOk(Publish(s, x), id);
    }
    forall u | u in s'.txns
      ensures TxnOk(s', s'.txns[u])
    {
      assert TxnOk(s, s.txns[u]) && x.locked !! s.txns[u].locked;
      CommitOther(s, x, s.txns[u], s');
    }
  }

  lemma JoinKeepsInv(s: State, wish: Wish, wants: Option<int>)
    requires Inv(s)
    ensures Inv(Step(s, Join(wish, wants)))
  {
    var s' := Step(s, Join(wish, wants));
    assert EntryOk(s, s.nextId);
    forall id
      ensures EntryOk(s', id)
    {
      assert EntryOk(s, id);
    }
    forall t | t in s'.txns
      ensures TxnOk(s', s'.txns[t])
    {
      var x := s.txns[t];
      assert TxnOk(s, x);
      hide Balanced;
      forall id | id in x.writes
        ensures WriteOk(s', x, id)
      {
        assert WriteOk(s, x, id);
      }
    }
    forall slot
      ensures |Outstanding(s'.entries, slot)| <= s'.freed[slot]
    {
      assert Outstanding(s'.entries, slot) == Outstanding(s.entries, slot);
    }
  }

  lemma RollbackKeepsInv(s: State, s': State)
    requires Inv(s) && s'.entries == s.entries && s'.notifications == s.notifications && s'.freed == s.freed && s'.nextId == s.nextId
    requires forall t | t in s'.txns :: t in s.txns && s'.txns[t] == s.txns[t]
    ensures Inv(s')
  {
    forall id
      ensures EntryOk(s', id)
    {
      assert EntryOk(s, id);
    }
    forall t | t in s'.txns
      ensures TxnOk(s', s'.txns[t])
    {
      assert TxnOk(s, s.txns[t]);
      SameEntries(s, s', s.txns[t]);
    }
  }

  lemma StepKeepsInv(s: State, a: Action)
    requires Inv(s)
    ensures Inv(Step(s, a))
  {
    if Enabled(s, a) {
      hide Inv, Enabled;
      match a
      case Join(wish, wants) => JoinKeepsInv(s, wish, wants);
      case Free(t, slot, pick) => FreeKeepsInv(s, t, slot, pick);
      case Sweep(t, threshold, stale) => SweepKeepsInv(s, t, threshold, stale);
      case Escalate(t, pick) => EscalateKeepsInv(s, t, pick);
      case Commit(t) => CommitKeepsInv(s, t);
      case Rollback(t) => RollbackKeepsInv(s, Step(s, a));
      case Tick(to) => RollbackKeepsInv(s, Step(s, a));
    }
  }

  lemma {:induction false} RunKeepsInv(s: State, trace: seq<Action>)
    requires Inv(s)
    ensures Inv(Run(s, trace))
  {
    hide Inv, Step;
    if trace != [] {
      RunKeepsInv(s, trace[..|trace| - 1]);
      StepKeepsInv(Run(s, trace[..|trace| - 1]), trace[|trace| - 1]);
    }
  }

  lemma EmptyInv()
    ensures Inv(EMPTY)
  {
    forall slot
      ensures |Outstanding(EMPTY.entries, slot)| <= EMPTY.freed[slot]
    {
      assert Outstanding(EMPTY.entries, slot) == {};
    }
  }

  // ---- what every interleaving guarantees ---------------------------------

  /** An entry is offered at most once: it has one offer notification once it left the waiting status and
      none before; and what it was offered is a slot it accepts. */
  lemma OfferedAtMostOnce(trace: seq<Action>, id: int)
    ensures var s := Run(EMPTY, trace);
      && s.notifications[id] <= 1
      && (s.notifications[id] == 1 <==> id in s.entries && s.entries[id].status != IsWaiting)
      && (id in s.entries && s.entries[id].status != IsWaiting ==>
          s.entries[id].wants == None || s.entries[id].wants == s.entries[id].offeredFor)
  {
    hide Run;
    EmptyInv();
    RunKeepsInv(EMPTY, trace);
    assert EntryOk(Run(EMPTY, trace), id);
  }

  /** Outstanding offers for a slot never exceed the bookings freed for it. */
  lemma OffersNeverExceedFreed(trace: seq<Action>, slot: Slot)
    ensures var s := Run(EMPTY, trace); |Outstanding(s.entries, slot)| <= s.freed[slot]
  {
    hide Run;
    EmptyInv();
    RunKeepsInv(EMPTY, trace);
  }

  /** A committed sweep never increases the outstanding offers of any slot, however many offers it expired
      and whatever ran between its steps. */
  lemma SweepNeverGrows(trace: seq<Action>, t: int, slot: Slot)
    requires var s := Run(EMPTY, trace); t in s.txns && s.txns[t].todo == [] && s.txns[t].freeing == None
    ensures var s := Run(EMPTY, trace);
      |Outstanding(Step(s, Commit(t)).entries, slot)| <= |Outstanding(s.entries, slot)|
  {
    hide Run;
    EmptyInv();
    RunKeepsInv(EMPTY, trace);
    var s := Run(EMPTY, trace);
    assert TxnOk(s, s.txns[t]);
    PublishOk(s, s.txns[t]);
  }
}
