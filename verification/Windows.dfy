/** Interval algebra of the availability engine: half-open windows of local
    minutes, their intersection, the subtraction of blocks, and slot packing. */
module Windows {
  datatype Window = Window(start: int, end: int)

  predicate Covers(w: Window, m: int) {
    w.start <= m < w.end
  }

  /** The set of minutes a list of windows denotes. */
  predicate InSome(ws: seq<Window>, m: int) {
    exists i | 0 <= i < |ws| :: Covers(ws[i], m)
  }

  /** The schemas demand `end_time > start_time`. */
  predicate WellFormed(ws: seq<Window>) {
    forall i | 0 <= i < |ws| :: ws[i].start < ws[i].end
  }

  predicate Apart(a: Window, b: Window) {
    a.end <= b.start || b.end <= a.start || a.end <= a.start || b.end <= b.start
  }

  predicate PairwiseApart(ws: seq<Window>) {
    forall i, j | 0 <= i < j < |ws| :: Apart(ws[i], ws[j])
  }

  lemma InSomeConcat(a: seq<Window>, b: seq<Window>, m: int)
    ensures InSome(a + b, m) <==> InSome(a, m) || InSome(b, m)
  {
    if InSome(a, m) {
      var i :| 0 <= i < |a| && Covers(a[i], m);
      assert Covers((a + b)[i], m);
    }
    if InSome(b, m) {
      var i :| 0 <= i < |b| && Covers(b[i], m);
      assert Covers((a + b)[|a| + i], m);
    }
  }

  lemma InSomeSnoc(ws: seq<Window>, w: Window, m: int)
    ensures InSome(ws + [w], m) <==> InSome(ws, m) || Covers(w, m)
  {
    InSomeConcat(ws, [w], m);
    assert InSome([w], m) <==> Covers([w][0], m);
  }

  // ---- intersection -------------------------------------------------------

  function Meet(a: Window, b: Window): Window {
    Window(if a.start > b.start then a.start else b.start,
           if a.end < b.end then a.end else b.end)
  }

  function MeetAll(a: Window, salon: seq<Window>): (r: seq<Window>) {
    if salon == [] then []
    else
      var rest := MeetAll(a, salon[..|salon| - 1]);
      var w := Meet(a, salon[|salon| - 1]);
      if w.start < w.end then rest + [w] else rest
  }

  function Intersect(staff: seq<Window>, salon: seq<Window>): (r: seq<Window>) {
    if staff == [] then []
    else Intersect(staff[..|staff| - 1], salon) + MeetAll(staff[|staff| - 1], salon)
  }

  method IntersectTimeWindows(staff: seq<Window>, salon: seq<Window>) returns (overlaps: seq<Window>)
    ensures overlaps == Intersect(staff, salon)
  {
    overlaps := [];
    for i := 0 to |staff|
      invariant overlaps == Intersect(staff[..i], salon)
    {
      ghost var before := overlaps;
      for j := 0 to |salon|
        invariant overlaps == before + MeetAll(staff[i], salon[..j])
      {
        var start := if staff[i].start > salon[j].start then staff[i].start else salon[j].start;
        var end := if staff[i].end < salon[j].end then staff[i].end else salon[j].end;
        assert salon[..j + 1][..j] == salon[..j];
        if start < end {
          overlaps := overlaps + [Window(start, end)];
        }
      }
      assert salon[..|salon|] == salon;
      assert staff[..i + 1][..i] == staff[..i];
    }
    assert staff[..|staff|] == staff;
  }

  lemma {:induction false} MeetAllDenotes(a: Window, salon: seq<Window>, m: int)
    ensures InSome(MeetAll(a, salon), m) <==> Covers(a, m) && InSome(salon, m)
    ensures WellFormed(MeetAll(a, salon))
  {
    if salon != [] {
      hide InSome;
      var init, last := salon[..|salon| - 1], salon[|salon| - 1];
      MeetAllDenotes(a, init, m);
      assert salon == init + [last];
      InSomeSnoc(init, last, m);
      var w := Meet(a, last);
      InSomeSnoc(MeetAll(a, init), w, m);
    }
  }

  /** A minute is in the intersection iff both families cover it. */
  lemma {:induction false} IntersectDenotes(staff: seq<Window>, salon: seq<Window>, m: int)
    ensures InSome(Intersect(staff, salon), m) <==> InSome(staff, m) && InSome(salon, m)
    ensures WellFormed(Intersect(staff, salon))
  {
    if staff != [] {
      hide InSome, MeetAll;
      var init, last := staff[..|staff| - 1], staff[|staff| - 1];
      IntersectDenotes(init, salon, m);
      MeetAllDenotes(last, salon, m);
      assert staff == init + [last];
      InSomeSnoc(init, last, m);
      InSomeConcat(Intersect(init, salon), MeetAll(last, salon), m);
    }
  }

  // ---- subtraction --------------------------------------------------------

  /** What one block leaves of one window: 0, 1 or 2 pieces. */
  function CarveOne(w: Window, b: Window): (r: seq<Window>) {
    if b.end <= w.start || b.start >= w.end then [w]
    else
      (if w.start < b.start then [Window(w.start, b.start)] else []) +
      (if b.end < w.end then [Window(b.end, w.end)] else [])
  }

  function Carve(ws: seq<Window>, b: Window): (r: seq<Window>) {
    if ws == [] then []
    else Carve(ws[..|ws| - 1], b) + CarveOne(ws[|ws| - 1], b)
  }

  function Subtract(base: seq<Window>, blocks: seq<Window>): (r: seq<Window>) {
    if blocks == [] then base
    else Carve(Subtract(base, blocks[..|blocks| - 1]), blocks[|blocks| - 1])
  }

  lemma CarveSnoc(ws: seq<Window>, w: Window, b: Window)
    ensures Carve(ws + [w], b) == Carve(ws, b) + CarveOne(w, b)
  {
    assert (ws + [w])[..|ws + [w]| - 1] == ws;
  }

  lemma SubtractSnoc(base: seq<Window>, blocks: seq<Window>, b: Window)
    ensures Subtract(base, blocks + [b]) == Carve(Subtract(base, blocks), b)
  {
    assert (blocks + [b])[..|blocks + [b]| - 1] == blocks;
  }

  lemma SubtractNothing(base: seq<Window>)
    ensures Subtract(base, []) == base
  {
  }

  /** One pass of the outer loop: `block` is taken out of every window of `result`. */
  method CarveBlock(result: seq<Window>, block: Window) returns (next: seq<Window>)
    ensures next == Carve(result, block)
  {
    hide Carve;
    next := [];
    CarveNothing(block);
    assert result[..0] == [];
    for j := 0 to |result|
      invariant next == Carve(result[..j], block)
    {
      var win := result[j];
      assert result[..j + 1] == result[..j] + [win];
      CarveSnoc(result[..j], win, block);
      if block.end <= win.start || block.start >= win.end {
        next := next + [win];
        continue;
      }
      var pieces := [];
      if win.start < block.start {
        pieces := pieces + [Window(win.start, block.start)];
      }
      if block.end < win.end {
        pieces := pieces + [Window(block.end, win.end)];
      }
      assert pieces == CarveOne(win, block);
      next := next + pieces;
    }
    assert result[..|result|] == result;
  }

  method SubtractTimeWindows(base: seq<Window>, blocks: seq<Window>) returns (result: seq<Window>)
    ensures result == Subtract(base, blocks)
  {
    hide Carve, Subtract;
    result := base;
    SubtractNothing(base);
    assert blocks[..0] == [];
    for i := 0 to |blocks|
      invariant result == Subtract(base, blocks[..i])
    {
      assert blocks[..i + 1] == blocks[..i] + [blocks[i]];
      SubtractSnoc(base, blocks[..i], blocks[i]);
      result := CarveBlock(result, blocks[i]);
    }
    assert blocks[..|blocks|] == blocks;
  }

  lemma CarveOneDenotes(w: Window, b: Window, m: int)
    ensures InSome(CarveOne(w, b), m) <==> Covers(w, m) && !Covers(b, m)
  {
    var r := CarveOne(w, b);
    if Covers(w, m) && !Covers(b, m) {
      assert exists i | 0 <= i < |r| :: Covers(r[i], m) by {
        if m < b.start || |r| == 1 {
          assert Covers(r[0], m);
        } else {
          assert Covers(r[1], m);
        }
      }
    }
  }

  lemma {:induction false} CarveDenotes(ws: seq<Window>, b: Window, m: int)
    ensures InSome(Carve(ws, b), m) <==> InSome(ws, m) && !Covers(b, m)
  {
    if ws != [] {
      hide InSome, CarveOne;
      var init, last := ws[..|ws| - 1], ws[|ws| - 1];
      CarveDenotes(init, b, m);
      CarveOneDenotes(last, b, m);
      assert ws == init + [last];
      InSomeSnoc(init, last, m);
      InSomeConcat(Carve(init, b), CarveOne(last, b), m);
    }
  }

  /** A minute survives iff some base window covers it and no block does;
      this needs neither side to be well formed. */
  lemma {:induction false} SubtractDenotes(base: seq<Window>, blocks: seq<Window>, m: int)
    ensures InSome(Subtract(base, blocks), m) <==> InSome(base, m) && !InSome(blocks, m)
  {
    if blocks != [] {
      var init, last := blocks[..|blocks| - 1], blocks[|blocks| - 1];
      hide Carve, Subtract, InSome;
      SubtractDenotes(base, init, m);
      CarveDenotes(Subtract(base, init), last, m);
      assert blocks == init + [last];
      SubtractSnoc(base, init, last);
      InSomeSnoc(init, last, m);
    }
  }

  // ---- the order of blocks ------------------------------------------------

  lemma ConcatAssociative<T>(a: seq<T>, b: seq<T>, c: seq<T>)
    ensures (a + b) + c == a + (b + c)
  {
  }

  lemma {:induction false} CarveConcat(x: seq<Window>, y: seq<Window>, b: Window)
    ensures Carve(x + y, b) == Carve(x, b) + Carve(y, b)
  {
    if y == [] {
      assert x + y == x;
    } else {
      var init, last := y[..|y| - 1], y[|y| - 1];
      assert y == init + [last];
      calc {
        Carve(x + y, b);
        { ConcatAssociative(x, init, [last]); }
        Carve((x + init) + [last], b);
        { CarveSnoc(x + init, last, b); }
        Carve(x + init, b) + CarveOne(last, b);
        { CarveConcat(x, init, b); }
        (Carve(x, b) + Carve(init, b)) + CarveOne(last, b);
        { ConcatAssociative(Carve(x, b), Carve(init, b), CarveOne(last, b)); }
        Carve(x, b) + (Carve(init, b) + CarveOne(last, b));
      }
    }
  }

  lemma CarveSingle(w: Window, b: Window)
    ensures Carve([w], b) == CarveOne(w, b)
  {
    assert [w][..0] == [];
  }

  lemma CarvePair(v: Window, w: Window, b: Window)
    ensures Carve([v, w], b) == CarveOne(v, b) + CarveOne(w, b)
  {
    assert [v, w][..1] == [v];
    CarveSingle(v, b);
  }

  /** `Carve(CarveOne(w, a), b)`, written out. */
  lemma CarveTwice(w: Window, a: Window, b: Window)
    ensures Carve(CarveOne(w, a), b) ==
      if a.end <= w.start || a.start >= w.end then CarveOne(w, b)
      else
        (if w.start < a.start then CarveOne(Window(w.start, a.start), b) else []) +
        (if a.end < w.end then CarveOne(Window(a.end, w.end), b) else [])
  {
    hide Carve;
    var left, right := Window(w.start, a.start), Window(a.end, w.end);
    if a.end <= w.start || a.start >= w.end {
      CarveSingle(w, b);
    } else if w.start < a.start && a.end < w.end {
      assert CarveOne(w, a) == [left, right];
      hide CarveOne;
      CarvePair(left, right, b);
    } else if w.start < a.start {
      assert CarveOne(w, a) == [left];
      hide CarveOne;
      CarveSingle(left, b);
    } else if a.end < w.end {
      assert CarveOne(w, a) == [right];
      hide CarveOne;
      CarveSingle(right, b);
    } else {
      assert CarveOne(w, a) == [];
      CarveNothing(b);
    }
  }

  lemma CarveNothing(b: Window)
    ensures Carve([], b) == []
  {
  }

  /** The piece of `w` before `a` starts, and the piece after minute `cut`. */
  function Left(w: Window, a: Window): seq<Window> {
    if w.start < a.start then [Window(w.start, a.start)] else []
  }

  function Right(w: Window, cut: int): seq<Window> {
    if cut < w.end then [Window(cut, w.end)] else []
  }

  /** Both blocks bite `w` and touch each other: one gap remains. */
  lemma CarveTouching(w: Window, a: Window, b: Window)
    requires a.start < a.end && b.start < b.end && a.start <= b.start <= a.end
    requires w.start < a.end && w.start < b.end && a.start < w.end && b.start < w.end
    ensures var cut := if a.end < b.end then b.end else a.end;
      Carve(CarveOne(w, a), b) == Left(w, a) + Right(w, cut)
  {
    var cut := if a.end < b.end then b.end else a.end;
    var left := if w.start < a.start then CarveOne(Window(w.start, a.start), b) else [];
    var right := if a.end < w.end then CarveOne(Window(a.end, w.end), b) else [];
    assert left == Left(w, a);
    assert right == Right(w, cut);
    CarveTwice(w, a, b);
    assert Carve(CarveOne(w, a), b) == left + right;
  }

  lemma CarveTouching'(w: Window, a: Window, b: Window)
    requires a.start < a.end && b.start < b.end && a.start <= b.start <= a.end
    requires w.start < a.end && w.start < b.end && a.start < w.end && b.start < w.end
    ensures var cut := if a.end < b.end then b.end else a.end;
      Carve(CarveOne(w, b), a) == Left(w, a) + Right(w, cut)
  {
    var cut := if a.end < b.end then b.end else a.end;
    var left := if w.start < b.start then CarveOne(Window(w.start, b.start), a) else [];
    var right := if b.end < w.end then CarveOne(Window(b.end, w.end), a) else [];
    assert left == Left(w, a);
    assert right == Right(w, cut);
    CarveTwice(w, b, a);
    assert Carve(CarveOne(w, b), a) == left + right;
  }

  /** Both blocks bite `w` and leave a piece between them. */
  lemma CarveSplit(w: Window, a: Window, b: Window)
    requires a.start < a.end < b.start < b.end
    requires w.start < a.end && b.start < w.end
    ensures Carve(CarveOne(w, a), b) == Left(w, a) + ([Window(a.end, b.start)] + Right(w, b.end))
  {
    CarveTwice(w, a, b);
  }

  lemma CarveSplit'(w: Window, a: Window, b: Window)
    requires a.start < a.end < b.start < b.end
    requires w.start < a.end && b.start < w.end
    ensures Carve(CarveOne(w, b), a) == Left(w, a) + ([Window(a.end, b.start)] + Right(w, b.end))
  {
    CarveTwice(w, b, a);
    ConcatAssociative(Left(w, a), [Window(a.end, b.start)], Right(w, b.end));
  }

  /** `a` does not touch `w`, nor then any piece of `w`. */
  lemma CarveMiss(w: Window, a: Window, b: Window)
    requires a.start < a.end && b.start < b.end
    requires a.end <= w.start || a.start >= w.end
    ensures Carve(CarveOne(w, a), b) == Carve(CarveOne(w, b), a)
  {
    CarveTwice(w, a, b);
    CarveTwice(w, b, a);
    hide Carve;
    if !(b.end <= w.start || b.start >= w.end) {
      if w.start < b.start {
        assert CarveOne(Window(w.start, b.start), a) == [Window(w.start, b.start)];
      }
      if b.end < w.end {
        assert CarveOne(Window(b.end, w.end), a) == [Window(b.end, w.end)];
      }
    }
  }

  lemma CarveOneCommutesOrdered(w: Window, a: Window, b: Window)
    requires a.start < a.end && b.start < b.end && a.start <= b.start
    ensures Carve(CarveOne(w, a), b) == Carve(CarveOne(w, b), a)
  {
    hide Carve, CarveOne, Left, Right;
    if a.end <= w.start || a.start >= w.end {
      CarveMiss(w, a, b);
    } else if b.end <= w.start || b.start >= w.end {
      CarveMiss(w, b, a);
    } else if a.end < b.start {
      CarveSplit(w, a, b);
      CarveSplit'(w, a, b);
    } else {
      CarveTouching(w, a, b);
      CarveTouching'(w, a, b);
    }
  }

  lemma CarveOneCommutes(w: Window, a: Window, b: Window)
    requires a.start < a.end && b.start < b.end
    ensures Carve(CarveOne(w, a), b) == Carve(CarveOne(w, b), a)
  {
    if a.start <= b.start {
      CarveOneCommutesOrdered(w, a, b);
    } else {
      CarveOneCommutesOrdered(w, b, a);
    }
  }

  lemma {:induction false} CarveCommutes(ws: seq<Window>, a: Window, b: Window)
    requires a.start < a.end && b.start < b.end
    ensures Carve(Carve(ws, a), b) == Carve(Carve(ws, b), a)
  {
    if ws != [] {
      var init, last := ws[..|ws| - 1], ws[|ws| - 1];
      CarveCommutes(init, a, b);
      CarveOneCommutes(last, a, b);
      CarveConcat(Carve(init, a), CarveOne(last, a), b);
      CarveConcat(Carve(init, b), CarveOne(last, b), a);
    }
  }

  lemma {:induction false} PullOut(base: seq<Window>, blocks: seq<Window>, i: nat)
    requires WellFormed(blocks) && i < |blocks|
    ensures Subtract(base, blocks) == Carve(Subtract(base, blocks[..i] + blocks[i + 1..]), blocks[i])
  {
    hide Carve, Subtract;
    var n := |blocks| - 1;
    var init, last, b := blocks[..n], blocks[n], blocks[i];
    assert blocks == init + [last];
    SubtractSnoc(base, init, last);
    if i == n {
      assert blocks[..i] + blocks[i + 1..] == init;
    } else {
      var fewer := init[..i] + init[i + 1..];
      assert init[i] == b && blocks[..i] + blocks[i + 1..] == fewer + [last];
      PullOut(base, init, i);
      SubtractSnoc(base, fewer, last);
      CarveCommutes(Subtract(base, fewer), b, last);
    }
  }

  lemma RemoveAt<T>(s: seq<T>, i: nat)
    requires i < |s|
    ensures multiset(s[..i] + s[i + 1..]) == multiset(s) - multiset{s[i]}
  {
    assert s == s[..i] + ([s[i]] + s[i + 1..]);
  }

  lemma SamePermutation(xs: seq<Window>, i: nat, init: seq<Window>)
    requires i < |xs| && multiset(xs) == multiset(init + [xs[i]]) && WellFormed(xs)
    ensures multiset(xs[..i] + xs[i + 1..]) == multiset(init) && WellFormed(xs[..i] + xs[i + 1..])
  {
    RemoveAt(xs, i);
  }

  lemma Position<T>(xs: seq<T>, ys: seq<T>, x: T) returns (i: nat)
    requires multiset(xs) == multiset(ys) && x in ys
    ensures i < |xs| && xs[i] == x
  {
    assert x in multiset(xs);
    i :| 0 <= i < |xs| && xs[i] == x;
  }

  /** The window list, and so every slot cut from it, does not depend on the
      order in which the database returns the blocks. */
  lemma {:induction false} BlockOrderIrrelevant(base: seq<Window>, xs: seq<Window>, ys: seq<Window>)
    requires WellFormed(xs) && multiset(xs) == multiset(ys)
    ensures Subtract(base, xs) == Subtract(base, ys)
  {
    if ys == [] {
      assert |multiset(xs)| == |multiset(ys)|;
    } else {
      var n := |ys| - 1;
      var init, last := ys[..n], ys[n];
      assert ys == init + [last];
      var i := Position(xs, ys, last);
      var rest := xs[..i] + xs[i + 1..];
      SamePermutation(xs, i, init);
      PullOut(base, xs, i);
      SubtractSnoc(base, init, last);
      BlockOrderIrrelevant(base, rest, init);
    }
  }

  /** Well-formed blocks are needed: an inverted block yields overlapping windows. */
  lemma InvertedBlockOverlaps()
    ensures Subtract([Window(540, 1020)], [Window(840, 720)]) == [Window(540, 840), Window(720, 1020)]
    ensures !PairwiseApart(Subtract([Window(540, 1020)], [Window(840, 720)]))
  {
    var base, b := [Window(540, 1020)], Window(840, 720);
    assert [b][..0] == [];
    assert Subtract(base, [b]) == Carve(base, b);
    CarveSingle(base[0], b);
    var r := [Window(540, 840), Window(720, 1020)];
    assert !Apart(r[0], r[1]);
  }

  /** ... and the number of windows then depends on the order of the blocks. */
  lemma InvertedBlockOrderMatters()
    ensures |Subtract([Window(540, 1020)], [Window(840, 720), Window(750, 800)])| == 4
    ensures |Subtract([Window(540, 1020)], [Window(750, 800), Window(840, 720)])| == 2
  {
    hide Carve, Subtract;
    var w, inverted, block := Window(540, 1020), Window(840, 720), Window(750, 800);
    CutPieces(w, inverted, block, Window(540, 840), Window(720, 1020));
    CutPieces(w, block, inverted, Window(540, 750), Window(800, 1020));
  }

  /** A block that splits a window leaves its two pieces to the next block. */
  lemma CutPieces(w: Window, a: Window, b: Window, left: Window, right: Window)
    requires a.end > w.start && a.start < w.end && w.start < a.start && a.end < w.end
    requires left == Window(w.start, a.start) && right == Window(a.end, w.end)
    ensures |Subtract([w], [a, b])| == |CarveOne(left, b)| + |CarveOne(right, b)|
  {
    hide Carve, Subtract;
    SubtractTwo([w], a, b);
    CarveSingle(w, a);
    assert CarveOne(w, a) == [left, right];
    hide CarveOne;
    CarvePair(left, right, b);
  }

  lemma SubtractTwo(base: seq<Window>, a: Window, b: Window)
    ensures Subtract(base, [a, b]) == Carve(Carve(base, a), b)
  {
    hide Carve;
    assert [a, b] == [a] + [b] && [a] == [] + [a];
    SubtractSnoc(base, [a], b);
    SubtractSnoc(base, [], a);
    SubtractNothing(base);
  }

  // ---- disjointness -------------------------------------------------------

  /** `p` is a part of `w`. */
  predicate Within(p: Window, w: Window) {
    w.start <= p.start && p.end <= w.end
  }

  predicate AllApart(xs: seq<Window>, w: Window) {
    forall i | 0 <= i < |xs| :: Apart(xs[i], w)
  }

  lemma {:induction false} CarveKeepsApart(ws: seq<Window>, b: Window, w: Window)
    requires AllApart(ws, w) && b.start < b.end
    ensures AllApart(Carve(ws, b), w)
  {
    if ws != [] {
      var init, last := ws[..|ws| - 1], ws[|ws| - 1];
      assert AllApart(init, w);
      CarveKeepsApart(init, b, w);
      assert Apart(last, w);
    }
  }

  lemma {:induction false} CarvePairwiseApart(ws: seq<Window>, b: Window)
    requires PairwiseApart(ws) && b.start < b.end
    ensures PairwiseApart(Carve(ws, b))
  {
    if ws != [] {
      var init, last := ws[..|ws| - 1], ws[|ws| - 1];
      CarvePairwiseApart(init, b);
      assert AllApart(init, last);
      CarveKeepsApart(init, b, last);
      var xs, ys := Carve(init, b), CarveOne(last, b);
      assert forall i | 0 <= i < |xs| :: Apart(xs[i], last);
      assert PairwiseApart(ys);
      assert forall i, j | 0 <= i < |xs| && 0 <= j < |ys| :: Apart(xs[i], ys[j]);
    }
  }

  lemma {:induction false} SubtractPairwiseApart(base: seq<Window>, blocks: seq<Window>)
    requires PairwiseApart(base) && WellFormed(blocks)
    ensures PairwiseApart(Subtract(base, blocks))
  {
    if blocks != [] {
      SubtractPairwiseApart(base, blocks[..|blocks| - 1]);
      CarvePairwiseApart(Subtract(base, blocks[..|blocks| - 1]), blocks[|blocks| - 1]);
    }
  }

  lemma {:induction false} MeetAllApart(a: Window, salon: seq<Window>)
    requires PairwiseApart(salon)
    ensures PairwiseApart(MeetAll(a, salon))
    ensures forall p | p in MeetAll(a, salon) :: p.start < p.end && Within(p, a) && exists w | w in salon :: Within(p, w)
  {
    if salon != [] {
      var init, last := salon[..|salon| - 1], salon[|salon| - 1];
      MeetAllApart(a, init);
      var rest := MeetAll(a, init);
      forall i | 0 <= i < |rest|
        ensures Apart(rest[i], Meet(a, last))
      {
        assert rest[i] in rest;
        var w :| w in init && Within(rest[i], w);
        var k :| 0 <= k < |init| && init[k] == w;
        assert Apart(salon[k], salon[|salon| - 1]);
      }
      assert Within(Meet(a, last), last) && last in salon;
    }
  }

  /** Pairwise-disjoint schedules intersect to pairwise-disjoint windows. */
  lemma {:induction false} IntersectPairwiseApart(staff: seq<Window>, salon: seq<Window>)
    requires PairwiseApart(staff) && PairwiseApart(salon)
    ensures PairwiseApart(Intersect(staff, salon))
    ensures forall p | p in Intersect(staff, salon) :: p.start < p.end && exists w | w in staff :: Within(p, w)
  {
    if staff != [] {
      var init, last := staff[..|staff| - 1], staff[|staff| - 1];
      IntersectPairwiseApart(init, salon);
      MeetAllApart(last, salon);
      var xs, ys := Intersect(init, salon), MeetAll(last, salon);
      forall i, j | 0 <= i < |xs| && 0 <= j < |ys|
        ensures Apart(xs[i], ys[j])
      {
        assert xs[i] in xs;
        var w :| w in init && Within(xs[i], w);
        var k :| 0 <= k < |init| && init[k] == w;
        assert Apart(staff[k], staff[|staff| - 1]);
      }
    }
  }

  // ---- slots --------------------------------------------------------------

  /** `s` is a slot start that fits whole into `w` on the grid beginning at `w.start`. */
  ghost predicate GridSlot(w: Window, duration: int, s: int) {
    exists k: nat :: s == w.start + k * duration && s + duration <= w.end
  }

  method SlotsInWindow(midnight: int, w: Window, duration: int) returns (slots: seq<int>)
    requires duration >= 1
    ensures |slots| == if w.end <= w.start then 0 else (w.end - w.start) / duration
    ensures forall k | 0 <= k < |slots| :: slots[k] == midnight + w.start + k * duration
    ensures forall s :: s in slots <==> GridSlot(w, duration, s - midnight)
  {
    slots := [];
    var current := w.start;
    while current + duration <= w.end
      invariant current == w.start + |slots| * duration
      invariant forall k | 0 <= k < |slots| :: slots[k] == midnight + w.start + k * duration
      invariant |slots| > 0 ==> current <= w.end
      decreases w.end - current
    {
      slots := slots + [midnight + current];
      assert (|slots| - 1) * duration + duration == |slots| * duration;
      current := current + duration;
    }
    CountIsQuotient(w, duration, |slots|);
    GridMembers(midnight, w, duration, slots);
  }

  lemma CountIsQuotient(w: Window, duration: int, n: nat)
    requires duration >= 1
    requires w.start + n * duration + duration > w.end
    requires n > 0 ==> w.start + n * duration <= w.end
    ensures n == if w.end <= w.start then 0 else (w.end - w.start) / duration
  {
    var len := w.end - w.start;
    if n > 0 {
      assert n * duration >= 1 by { MulMonotone(1, n, duration); }
    }
    if len > 0 {
      var q := len / duration;
      assert q * duration <= len < q * duration + duration;
      if q < n {
        MulMonotone(q + 1, n, duration);
      } else if n < q {
        MulMonotone(n + 1, q, duration);
      }
    }
  }

  lemma MulMonotone(a: int, b: int, d: int)
    requires a <= b && d >= 0
    ensures a * d <= b * d
  {
    assert (b - a) * d >= 0;
  }

  lemma GridMembers(midnight: int, w: Window, duration: int, slots: seq<int>)
    requires duration >= 1
    requires forall k | 0 <= k < |slots| :: slots[k] == midnight + w.start + k * duration
    requires w.start + |slots| * duration + duration > w.end
    requires |slots| > 0 ==> w.start + |slots| * duration <= w.end
    ensures forall s :: s in slots <==> GridSlot(w, duration, s - midnight)
  {
    forall s
      ensures s in slots <==> GridSlot(w, duration, s - midnight)
    {
      if s in slots {
        var k :| 0 <= k < |slots| && slots[k] == s;
        MulMonotone(k + 1, |slots|, duration);
        assert (k + 1) * duration == k * duration + duration;
        assert s - midnight == w.start + k * duration;
      }
      if GridSlot(w, duration, s - midnight) {
        var k: nat :| s - midnight == w.start + k * duration && s - midnight + duration <= w.end;
        if k >= |slots| {
          MulMonotone(|slots|, k, duration);
        }
        assert slots[k] == s;
      }
    }
  }

  /** Two slots cut from the same window, or from windows that are apart, never overlap. */
  lemma SlotsApart(v: Window, w: Window, duration: int, s: int, t: int)
    requires duration >= 1 && (v == w || Apart(v, w))
    requires GridSlot(v, duration, s) && GridSlot(w, duration, t) && s != t
    ensures s + duration <= t || t + duration <= s
  {
    var i: nat :| s == v.start + i * duration && s + duration <= v.end;
    var j: nat :| t == w.start + j * duration && t + duration <= w.end;
    MulMonotone(0, i, duration);
    MulMonotone(0, j, duration);
    if v == w {
      if i < j {
        MulMonotone(i + 1, j, duration);
        assert (i + 1) * duration == i * duration + duration;
      } else {
        assert i != j;
        MulMonotone(j + 1, i, duration);
        assert (j + 1) * duration == j * duration + duration;
      }
    }
  }

  /** The whole of a grid slot lies in its window. */
  lemma GridSlotInside(w: Window, duration: int, s: int)
    requires duration >= 1 && GridSlot(w, duration, s)
    ensures w.start <= s && s + duration <= w.end
  {
    var k: nat :| s == w.start + k * duration && s + duration <= w.end;
    MulMonotone(0, k, duration);
  }
}
