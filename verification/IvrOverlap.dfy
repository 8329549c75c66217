/** Requests on one call that overlap: each loads the row, and commits later what it changed. Nothing locks the row,
    and a commit writes only the columns that differ from what was loaded. */
module IvrOverlap {
  import opened Domain
  import opened Ivr
  import opened IvrLaws

  /** A press or a sweep between its load and its commit. */
  datatype Pending = Pending(loaded: Session, changed: Session)

  datatype Overlap = Overlap(row: Session, pending: map<int, Pending>)

  datatype Action =
    | LoadPress(request: int, bookings: map<int, int>, env: Env, key: Key)
    | LoadSweep(request: int, now: int)
    | Commit(request: int)

  function Written<T(==)>(loaded: T, changed: T, stored: T): T {
    if changed != loaded then changed else stored
  }

  function Merge(p: Pending, row: Session): Session {
    var a, b := p.loaded, p.changed;
    Session(Written(a.step, b.step, row.step), Written(a.service, b.service, row.service), Written(a.staff, b.staff, row.staff),
            Written(a.candidates, b.candidates, row.candidates), Written(a.slot, b.slot, row.slot),
            Written(a.booking, b.booking, row.booking), Written(a.managed, b.managed, row.managed),
            Written(a.transferTo, b.transferTo, row.transferTo), Written(a.noInput, b.noInput, row.noInput),
            Written(a.invalidKeys, b.invalidKeys, row.invalidKeys), Written(a.expiresAt, b.expiresAt, row.expiresAt))
  }

  /** Nobody in between: the commit stores the whole changed row. Nothing changed: it stores nothing, whatever others
      stored meanwhile. */
  lemma CommitsWhatChanged(p: Pending, row: Session)
    ensures Merge(p, p.loaded) == p.changed
    ensures p.changed == p.loaded ==> Merge(p, row) == row
  {
  }

  function Step(maxSlots: nat, s: Overlap, a: Action): Overlap {
    match a
    case LoadPress(r, bookings, env, key) =>
      s.(pending := s.pending[r := Pending(s.row, Press(maxSlots, s.row, bookings, env, key).session)])
    case LoadSweep(r, now) => s.(pending := s.pending[r := Pending(s.row, SweepOne(s.row, now))])
    case Commit(r) => if r in s.pending then Overlap(Merge(s.pending[r], s.row), s.pending - {r}) else s
  }

  function Run(maxSlots: nat, s: Overlap, trace: seq<Action>): Overlap {
    if trace == [] then s else Step(maxSlots, Run(maxSlots, s, trace[..|trace| - 1]), trace[|trace| - 1])
  }

  // ---- the expiry never moves ---------------------------------------------

  ghost predicate ExpiresAt(s: Overlap, at: int) {
    s.row.expiresAt == at && forall r | r in s.pending :: s.pending[r].loaded.expiresAt == s.pending[r].changed.expiresAt
  }

  lemma StepKeepsExpiry(maxSlots: nat, s: Overlap, a: Action, at: int)
    requires ExpiresAt(s, at)
    ensures ExpiresAt(Step(maxSlots, s, a), at)
  {
    hide Press;
    if a.LoadPress? {
      PressIsFixed(maxSlots, s.row, a.bookings, a.env, a.key);
    }
  }

  /** Whatever overlaps, the expiry set at the start is never moved. */
  lemma {:induction false} ExpiryNeverMoves(maxSlots: nat, s: Overlap, trace: seq<Action>)
    requires ExpiresAt(s, s.row.expiresAt)
    ensures ExpiresAt(Run(maxSlots, s, trace), s.row.expiresAt)
  {
    hide Step;
    if trace != [] {
      var n := |trace| - 1;
      ExpiryNeverMoves(maxSlots, s, trace[..n]);
      StepKeepsExpiry(maxSlots, Run(maxSlots, s, trace[..n]), trace[n], s.row.expiresAt);
    }
  }

  // ---- when a finished call stays finished --------------------------------

  /** The request found the call live, and moves it to another live step. */
  predicate MovesOn(p: Pending) {
    p.changed.step != p.loaded.step && !Terminal(p.changed.step)
  }

  ghost predicate Closed(s: Overlap) {
    Terminal(s.row.step) && forall r | r in s.pending :: !MovesOn(s.pending[r])
  }

  lemma StepKeepsClosed(maxSlots: nat, s: Overlap, a: Action)
    requires Closed(s)
    ensures Closed(Step(maxSlots, s, a))
  {
    hide Press;
    if a.LoadPress? {
      PressIsFixed(maxSlots, s.row, a.bookings, a.env, a.key);
    }
  }

  lemma {:induction false} RunKeepsClosed(maxSlots: nat, s: Overlap, trace: seq<Action>)
    requires Closed(s)
    ensures Closed(Run(maxSlots, s, trace))
  {
    hide Step, Closed;
    if trace != [] {
      var n := |trace| - 1;
      RunKeepsClosed(maxSlots, s, trace[..n]);
      StepKeepsClosed(maxSlots, Run(maxSlots, s, trace[..n]), trace[n]);
    }
  }

  /** A finished call stays finished under everything that may still overlap exactly when no request that loaded it
      while it was live is about to move it to another live step; in particular when no request is pending. */
  lemma FinishedStaysIff(maxSlots: nat, s: Overlap)
    requires Terminal(s.row.step)
    ensures (forall trace :: Terminal(Run(maxSlots, s, trace).row.step)) <==> forall r | r in s.pending :: !MovesOn(s.pending[r])
  {
    if forall r | r in s.pending :: !MovesOn(s.pending[r]) {
      hide Run;
      forall trace
        ensures Terminal(Run(maxSlots, s, trace).row.step)
      {
        RunKeepsClosed(maxSlots, s, trace);
      }
    } else {
      var r :| r in s.pending && MovesOn(s.pending[r]);
      CommitOf(maxSlots, s, r);
    }
  }

  lemma CommitOf(maxSlots: nat, s: Overlap, r: int)
    requires r in s.pending && MovesOn(s.pending[r])
    ensures Run(maxSlots, s, [Commit(r)]).row.step == s.pending[r].changed.step
  {
    assert [Commit(r)][..0] == [];
  }

  /** A press loaded before the expiry and committed after the sweep reopens the call. */
  lemma OverlapReopens(maxSlots: nat, expiresAt: int)
    requires expiresAt > 0
    ensures var two := Pressed(QUIET, Key("2", Some(2)));
      var trace := [LoadPress(1, map[], two.env, two.key), LoadSweep(2, expiresAt), Commit(2), Commit(1)];
      && Run(maxSlots, Overlap(Started(expiresAt), map[]), trace[..3]).row.step == Expired
      && Run(maxSlots, Overlap(Started(expiresAt), map[]), trace).row.step == TransferUnavailable
  {
    var s := Overlap(Started(expiresAt), map[]);
    var two := Pressed(QUIET, Key("2", Some(2)));
    var trace := [LoadPress(1, map[], two.env, two.key), LoadSweep(2, expiresAt), Commit(2), Commit(1)];
    assert trace[..3][..2] == trace[..2] && trace[..2][..1] == trace[..1] && trace[..1][..0] == [];
    var moved, expired := s.row.(step := TransferUnavailable), s.row.(step := Expired);
    assert Run(maxSlots, s, trace[..1]) == Overlap(s.row, map[1 := Pending(s.row, moved)]);
    assert Run(maxSlots, s, trace[..2]) == Overlap(s.row, map[1 := Pending(s.row, moved), 2 := Pending(s.row, expired)]);
    assert Run(maxSlots, s, trace[..3]).row == expired;
    assert Run(maxSlots, s, trace[..3]).pending[1] == Pending(s.row, moved);
  }
}
