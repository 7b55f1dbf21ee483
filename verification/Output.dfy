/** The last horizontal pass of a tile: it halves, clips to the output's range, and stores the tile's own
    part of each row in the output picture instead of in place. */
module Output {
  import opened Lifting
  import opened LiftingLaws
  import opened Lanes
  import opened Planes
  import opened Pyramid
  import opened LeGallKernels

  /** A sample of the output, of the given number of bits. */
  function Shown(bits: nat, v: int): (r: int)
    requires bits > 0
    ensures 0 <= r < Pow2(bits)
  {
    var raised := v + Pow2(bits - 1);
    var floored := if raised > 0 then raised else 0;
    if floored < Pow2(bits) - 1 then floored else Pow2(bits) - 1
  }

  /** The part of a tile's rows that goes to the output: w samples in the row, n of them from the first on. */
  datatype Slot = Slot(w: nat, first: nat, n: nat, base: nat) {
    predicate Valid() {
      w % 2 == 0 && w >= 6 && 0 < n && first + n <= w
    }

    /** The samples that are stored. The last five are not tested against the part's left end, and the last
        block but one tests its two samples by the position of the second. */
    predicate Takes(x: int) {
      0 <= x < w && (first <= x || x >= w - 5) && (if x == w - 5 then w - 4 else x) < first + n
    }

    /** Row sample x has a cell of its own. */
    function Cell(x: int): int {
      base + x - first
    }

    /** The output has a cell for every sample that is stored. */
    predicate Room(length: nat) {
      base + n <= length && first + 5 <= w + base
    }

    predicate Covers(x: int) {
      first <= x < first + n
    }
  }

  /** Row samples before d that the output takes are in it, and nothing else has changed. */
  ghost predicate ShownUpTo(now: seq<int>, before: seq<int>, g: Slot, bits: nat, t: seq<int>, d: int)
    requires bits > 0 && d <= |t|
  {
    && |now| == |before|
    && forall i :: 0 <= i < |now| ==>
         now[i] == ShownAt(before[i], g, bits, t, d, i - g.base + g.first)
  }

  function ShownAt(was: int, g: Slot, bits: nat, t: seq<int>, d: int, x: int): int
    requires bits > 0 && d <= |t|
  {
    if g.Takes(x) && x < d then Shown(bits, Half(LeGall53, t[x])) else was
  }

  /** The cell holds the sample v: raised by half of the range, or the end of the range it lies beyond. */
  predicate Holds(bits: nat, cell: int, v: int)
    requires bits > 0
  {
    && (v < 0 - Pow2(bits - 1) ==> cell == 0)
    && (0 - Pow2(bits - 1) <= v < Pow2(bits - 1) ==> cell == v + Pow2(bits - 1))
    && (v >= Pow2(bits - 1) ==> cell == Pow2(bits) - 1)
  }

  ghost predicate HoldsHalf(bits: nat, cell: int, x: int)
    requires bits > 0
  {
    exists v :: IsHalf(LeGall53, x, v) && Holds(bits, cell, v)
  }

  /** What the pass over the line c leaves of the output: the halved samples of its synthesis t that are taken, each
      in its cell, and the rest as it was. */
  ghost predicate RowHeld(now: seq<int>, before: seq<int>, g: Slot, bits: nat, c: seq<int>, t: seq<int>)
    requires bits > 0 && LineOk(LeGall53, |c|) && g.w <= |c|
  {
    && Lifted(LeGall53, c, t) && |now| == |before|
    && forall i :: 0 <= i < |now| ==>
         var x := i - g.base + g.first;
         if g.Takes(x) then HoldsHalf(bits, now[i], t[x]) else now[i] == before[i]
  }

  lemma ShownExactly(bits: nat, cell: int, v: int)
    requires bits > 0
    ensures Holds(bits, cell, v) <==> cell == Shown(bits, v)
  {
    assert Pow2(bits) == 2 * Pow2(bits - 1);
    hide Pow2;
  }

  lemma ShownIsHeld(bits: nat, x: int)
    requires bits > 0
    ensures HoldsHalf(bits, Shown(bits, Half(LeGall53, x)), x)
  {
    hide Shown, Holds;
    ShownExactly(bits, Shown(bits, Half(LeGall53, x)), Half(LeGall53, x));
    assert IsHalf(LeGall53, x, Half(LeGall53, x));
  }

  lemma RowIsHeld(now: seq<int>, before: seq<int>, g: Slot, bits: nat, c: seq<int>)
    requires bits > 0 && LineOk(LeGall53, |c|) && g.w == |c|
    requires ShownUpTo(now, before, g, bits, Synth(LeGall53, c), g.w)
    ensures RowHeld(now, before, g, bits, c, Synth(LeGall53, c))
  {
    hide Synth, Shown, HoldsHalf, Half, Lifted;
    SynthesisExactly(LeGall53, c, Synth(LeGall53, c));
    forall x: int ensures HoldsHalf(bits, Shown(bits, Half(LeGall53, x)), x) {
      ShownIsHeld(bits, x);
    }
  }

  method Show(out: array<int>, g: Slot, bits: nat, wanted: bool, ghost before: seq<int>, ghost t: seq<int>, x: nat,
              v: int)
    requires bits > 0 && g.Valid() && |t| == g.w && x < g.w && v == t[x] && g.Room(out.Length)
    requires wanted <==> g.Takes(x)
    requires ShownUpTo(out[..], before, g, bits, t, x)
    modifies out
    ensures ShownUpTo(out[..], before, g, bits, t, x + 1)
  {
    hide Shown;
    if wanted {
      out[g.Cell(x)] := Shown(bits, Half(LeGall53, v));
    }
  }

  /** Even sample x and the odd one before it. */
  method ShowPair(out: array<int>, g: Slot, bits: nat, ghost before: seq<int>, ghost c0: seq<int>,
                  x: nat, wantOdd: bool, wantEven: bool, xm2: int, dm1: int, d: int, dp1: int) returns (cur: int)
    requires bits > 0 && g.Valid() && |c0| == g.w && g.Room(out.Length) && 2 <= x < g.w && x % 2 == 0
    requires wantOdd <==> g.Takes(x - 1)
    requires wantEven <==> g.Takes(x)
    requires ShownUpTo(out[..], before, g, bits, Synth(LeGall53, c0), x - 1)
    requires xm2 == Synth(LeGall53, c0)[x - 2] && dm1 == c0[x - 1] && d == c0[x] && dp1 == c0[x + 1]
    modifies out
    ensures ShownUpTo(out[..], before, g, bits, Synth(LeGall53, c0), x + 1) && cur == Synth(LeGall53, c0)[x]
  {
    hide Synth, Shown, ShownUpTo;
    EvenSample(c0, x);
    OddSample(c0, x - 1);
    cur := d - (dm1 + dp1 + 2) / 4;
    var xm1 := dm1 + (xm2 + cur + 1) / 2;
    Show(out, g, bits, wantOdd, before, Synth(LeGall53, c0), x - 1, xm1);
    Show(out, g, bits, wantEven, before, Synth(LeGall53, c0), x, cur);
  }

  /** The streaming pass over one row. */
  method FinalRow(l: Lane, out: array<int>, g: Slot, bits: nat)
    requires l.Valid() && g.Valid() && l.n == g.w && bits > 0 && g.Room(out.Length) && out != l.mem
    modifies out
    ensures ShownUpTo(out[..], old(out[..]), g, bits, Synth(LeGall53, l.Contents()), g.w)
    ensures exists t :: RowHeld(out[..], old(out[..]), g, bits, l.Contents(), t)
  {
    hide Synth, ShownUpTo, RowHeld, l.Addr, l.Get;
    ghost var c0 := l.Contents();
    ghost var before := out[..];
    NothingShown(before, g, bits, Synth(LeGall53, c0));
    var x := 0;
    var d, dp1, dp2 := l.Get(0), l.Get(1), l.Get(2);
    var dm1 := dp1;
    EvenSample(c0, 0);
    var cur := d - (dm1 + dp1 + 2) / 4;
    Show(out, g, bits, 0 >= g.first, before, Synth(LeGall53, c0), 0, cur);
    var xm2 := cur;
    dm1, d := dp1, dp2;
    dp1, dp2 := l.Get(3), l.Get(4);
    x := 2;
    while x < g.w - 4
      invariant 2 <= x <= g.w - 4 && x % 2 == 0
      invariant ShownUpTo(out[..], before, g, bits, Synth(LeGall53, c0), x - 1)
      invariant xm2 == Synth(LeGall53, c0)[x - 2]
      invariant dm1 == c0[x - 1] && d == c0[x] && dp1 == c0[x + 1] && dp2 == c0[x + 2]
    {
      cur := ShowPair(out, g, bits, before, c0, x, x - 1 >= g.first && x - 1 < g.first + g.n,
                      x >= g.first && x < g.first + g.n, xm2, dm1, d, dp1);
      xm2, dm1, d := cur, dp1, dp2;
      dp1, dp2 := l.Get(x + 3), l.Get(x + 4);
      x := x + 2;
    }
    cur := ShowPair(out, g, bits, before, c0, x, x < g.first + g.n, x < g.first + g.n, xm2, dm1, d, dp1);
    xm2, dm1, d := cur, dp1, dp2;
    dp1 := l.Get(x + 3);
    FinalPair(out, g, bits, before, c0, x + 2, xm2, dm1, d, dp1);
    RowIsHeld(out[..], before, g, bits, c0);
  }

  /** The last three samples. */
  method FinalPair(out: array<int>, g: Slot, bits: nat, ghost before: seq<int>, ghost c0: seq<int>,
                   x: nat, xm2: int, dm1: int, d: int, dp1: int)
    requires bits > 0 && g.Valid() && |c0| == g.w && g.Room(out.Length) && x == g.w - 2
    requires ShownUpTo(out[..], before, g, bits, Synth(LeGall53, c0), x - 1)
    requires xm2 == Synth(LeGall53, c0)[x - 2] && dm1 == c0[x - 1] && d == c0[x] && dp1 == c0[x + 1]
    modifies out
    ensures ShownUpTo(out[..], before, g, bits, Synth(LeGall53, c0), g.w)
  {
    hide Synth, ShownUpTo;
    var cur := ShowPair(out, g, bits, before, c0, x, x - 1 < g.first + g.n, x < g.first + g.n, xm2, dm1, d, dp1);
    OddSample(c0, x + 1);
    var xm1 := dp1 + (cur + cur + 1) / 2;
    Show(out, g, bits, x + 1 < g.first + g.n, before, Synth(LeGall53, c0), x + 1, xm1);
  }

  lemma NothingShown(before: seq<int>, g: Slot, bits: nat, t: seq<int>)
    requires bits > 0 && g.Valid() && |t| == g.w
    ensures ShownUpTo(before, before, g, bits, t, 0)
  {}

  // ----- a tile's rectangle of the output picture

  /** Rows and columns of the tile that go to the output, and where they go. */
  datatype Part = Part(y: nat, x: nat, h: nat, w: nat, toY: nat, toX: nat) {
    predicate Covers(i: int, j: int) {
      toY <= i < toY + h && toX <= j < toX + w
    }
  }

  predicate PartOk(g: Part, c: Canvas, pic: Canvas) {
    && Slot(c.w, g.x, g.w, 0).Valid() && g.x + 5 <= c.w && g.y + g.h <= c.h
    && g.toY + g.h <= pic.h && g.toX + g.w <= pic.w
  }

  predicate Missed(g: Part, w: nat, x: int) {
    x == w - 5 && g.x + g.w == w - 4
  }

  /** The samples stored are those of the part exactly when it begins five samples before its row's end or more,
      and does not end four before. */
  lemma StoredWhole(g: Slot)
    requires g.Valid()
    ensures (forall x :: g.Takes(x) <==> g.Covers(x)) <==> g.first + 5 <= g.w && g.first + g.n != g.w - 4
  {
    if g.first + 5 > g.w {
      assert g.Takes(g.w - 5) && !g.Covers(g.w - 5);
    } else if g.first + g.n == g.w - 4 {
      assert g.Covers(g.w - 5) && !g.Takes(g.w - 5);
    }
  }

  lemma TakesPart(g: Part, w: nat, base: nat, x: int)
    requires Slot(w, g.x, g.w, base).Valid() && g.x + 5 <= w
    ensures Slot(w, g.x, g.w, base).Takes(x) <==> g.x <= x < g.x + g.w && !Missed(g, w, x)
  {}

  /** The output picture when the tile's plane r, of width w, has been stored up to row d. */
  function PictureAt(before: Plane, r: Plane, g: Part, w: nat, bits: nat, d: int, i: nat, j: nat): int
    requires bits > 0 && i < |before| && j < |before[i]|
    requires Rect(r, |r|, w) && g.y + g.h <= |r| && g.x + g.w <= w
  {
    var y, x := i - g.toY + g.y, j - g.toX + g.x;
    if g.Covers(i, j) && y < d && !Missed(g, w, x) then Shown(bits, r[y][x]) else before[i][j]
  }

  ghost predicate Pictured(now: Plane, before: Plane, h: nat, w: nat, r: Plane, g: Part, tw: nat, bits: nat, d: int)
    requires bits > 0 && Rect(now, h, w) && Rect(before, h, w)
    requires Rect(r, |r|, tw) && g.y + g.h <= |r| && g.x + g.w <= tw
  {
    forall i, j :: 0 <= i < h && 0 <= j < w ==> now[i][j] == PictureAt(before, r, g, tw, bits, d, i, j)
  }

  lemma RowValue(p: Plane, h: nat, w: nat, y: nat, x: nat)
    requires Rect(p, h, w) && LevelOk(LeGall53, h, w, 1) && y < h && x < w
    ensures |Row(p, h, w, y, 1)| == w
    ensures HPass(LeGall53, Synthesis, p, h, w, 1)[y][x] == Half(LeGall53, Synth(LeGall53, Row(p, h, w, y, 1))[x])
  {
    hide Synth;
    PassAt(LeGall53, true, Row(p, h, w, y, 1), x);
  }

  /** The output picture when row y of the tile is stored besides what was there. */
  function RowStoredAt(was: int, r: Plane, g: Part, w: nat, bits: nat, y: int, i: nat, j: nat): int
    requires bits > 0 && Rect(r, |r|, w) && g.y + g.h <= |r| && g.x + g.w <= w && g.y <= y < g.y + g.h
  {
    var x := j - g.toX + g.x;
    if i == g.toY + y - g.y && g.toX <= j < g.toX + g.w && !Missed(g, w, x) then Shown(bits, r[y][x]) else was
  }

  ghost predicate RowStored(now: Plane, before: Plane, h: nat, w: nat, r: Plane, g: Part, tw: nat, bits: nat, y: int)
    requires bits > 0 && Rect(now, h, w) && Rect(before, h, w)
    requires Rect(r, |r|, tw) && g.y + g.h <= |r| && g.x + g.w <= tw && g.y <= y < g.y + g.h
  {
    forall i, j :: 0 <= i < h && 0 <= j < w ==> now[i][j] == RowStoredAt(before[i][j], r, g, tw, bits, y, i, j)
  }

  lemma SlotIsRow(pic: Canvas, g: Part, p: Plane, h: nat, w: nat, bits: nat, y: nat, i: nat, j: nat, was: int)
    requires bits > 0 && Rect(p, h, w) && LevelOk(LeGall53, h, w, 1)
    requires g.y + g.h <= h && g.x + g.w <= w && g.y <= y < g.y + g.h && j < pic.stride && g.toX + g.w <= pic.stride
    requires Slot(w, g.x, g.w, 0).Valid() && g.x + 5 <= w
    ensures var base := pic.Cell(g.toY + y - g.y, g.toX);
            var s := Slot(w, g.x, g.w, base);
            && |Row(p, h, w, y, 1)| == w
            && ShownAt(was, s, bits, Synth(LeGall53, Row(p, h, w, y, 1)), w, pic.Cell(i, j) - base + g.x)
               == RowStoredAt(was, HPass(LeGall53, Synthesis, p, h, w, 1), g, w, bits, y, i, j)
  {
    hide Synth, Shown, HPass, pic.Cell, Slot.Takes, Missed;
    var base := pic.Cell(g.toY + y - g.y, g.toX);
    TakesPart(g, w, base, pic.Cell(i, j) - base + g.x);
    CellOffset(pic, i, j, g.toY + y - g.y, g.toX, g.w);
    if i == g.toY + y - g.y && g.toX <= j < g.toX + g.w {
      RowValue(p, h, w, y, j - g.toX + g.x);
    }
  }

  method StoreRow(c: Canvas, pic: Canvas, g: Part, bits: nat, y: nat)
    requires c.Valid() && pic.Valid() && c.mem != pic.mem && bits > 0 && PartOk(g, c, pic)
    requires LevelOk(LeGall53, c.h, c.w, 1) && g.y <= y < g.y + g.h
    modifies pic.mem
    ensures RowStored(pic.Snapshot(), old(pic.Snapshot()), pic.h, pic.w,
                      HPass(LeGall53, Synthesis, c.Snapshot(), c.h, c.w, 1), g, c.w, bits, y)
  {
    hide Synth, ShownAt, RowStoredAt, Row, Lane.Addr, Lane.Valid, c.Valid, HPass, c.Cell, LineOk, Divides;
    ghost var before, mem0 := pic.Snapshot(), pic.mem[..];
    ghost var p := c.Snapshot();
    LevelUnits(c.h, c.w);
    var s := Slot(c.w, g.x, g.w, pic.Cell(g.toY + y - g.y, g.toX));
    RowLaneContents(c, y, 1);
    InsideRow(pic, g, y);
    FinalRow(c.RowLane(y, 1), pic.mem, s, bits);
    forall i: nat, j: nat | i < pic.h && j < pic.w
      ensures pic.Snapshot()[i][j]
           == RowStoredAt(before[i][j], HPass(LeGall53, Synthesis, p, c.h, c.w, 1), g, c.w, bits, y, i, j)
    {
      pic.CellInside(i, j);
      SlotIsRow(pic, g, p, c.h, c.w, bits, y, i, j, before[i][j]);
      assert pic.mem[..][pic.Cell(i, j)]
             == ShownAt(mem0[pic.Cell(i, j)], s, bits, Synth(LeGall53, Row(p, c.h, c.w, y, 1)), c.w,
                                                    pic.Cell(i, j) - s.base + s.first);
    }
  }

  lemma LevelUnits(h: nat, w: nat)
    ensures Divides(1, h) && Divides(1, w) && h / 1 == h && w / 1 == w
  {}

  lemma InsideRow(pic: Canvas, g: Part, y: nat)
    requires pic.Valid() && g.toY + g.h <= pic.h && 0 < g.w && g.toX + g.w <= pic.w && g.y <= y < g.y + g.h
    ensures pic.Cell(g.toY + y - g.y, g.toX) + g.w <= pic.mem.Length && pic.w <= pic.stride
  {
    pic.CellInside(g.toY + y - g.y, g.toX + g.w - 1);
  }

  lemma RowAdvance(before: Plane, now: Plane, next: Plane, h: nat, w: nat, r: Plane, g: Part, tw: nat, bits: nat,
                   y: int)
    requires bits > 0 && Rect(before, h, w) && Rect(now, h, w) && Rect(next, h, w)
    requires Rect(r, |r|, tw) && g.y + g.h <= |r| && g.x + g.w <= tw && g.y <= y < g.y + g.h
    requires Pictured(now, before, h, w, r, g, tw, bits, y) && RowStored(next, now, h, w, r, g, tw, bits, y)
    ensures Pictured(next, before, h, w, r, g, tw, bits, y + 1)
  {
    hide Missed, Shown;
  }

  /** The last pass of a tile whose plane has had its last vertical one. */
  method FinalPass(c: Canvas, pic: Canvas, g: Part, bits: nat)
    requires c.Valid() && pic.Valid() && c.mem != pic.mem && bits > 0 && PartOk(g, c, pic)
    requires LevelOk(LeGall53, c.h, c.w, 1)
    modifies pic.mem
    ensures Pictured(pic.Snapshot(), old(pic.Snapshot()), pic.h, pic.w,
                     HPass(LeGall53, Synthesis, c.Snapshot(), c.h, c.w, 1), g, c.w, bits, g.y + g.h)
  {
    hide HPass, c.Valid, c.Snapshot, RowStored, LevelOk, Missed, Shown;
    ghost var before := pic.Snapshot();
    ghost var p := c.Snapshot();
    var y := g.y;
    while y < c.h && y < g.y + g.h
      invariant g.y <= y <= g.y + g.h && c.Snapshot() == p
      invariant Pictured(pic.Snapshot(), before, pic.h, pic.w, HPass(LeGall53, Synthesis, p, c.h, c.w, 1), g, c.w, bits,
                         y)
    {
      ghost var now := pic.Snapshot();
      StoreRow(c, pic, g, bits, y);
      RowAdvance(before, now, pic.Snapshot(), pic.h, pic.w, HPass(LeGall53, Synthesis, p, c.h, c.w, 1), g, c.w, bits,
                 y);
      y := y + 1;
    }
  }

  /** A job's transforms: the levels in place but for the last horizontal pass. */
  method DecodeTile(c: Canvas, pic: Canvas, g: Part, bits: nat, depth: nat)
    requires c.Valid() && pic.Valid() && c.mem != pic.mem && bits > 0 && PartOk(g, c, pic)
    requires depth > 0 && LevelsOk(LeGall53, c.h, c.w, depth) && Deep(LeGall53, c, depth)
    modifies c.mem, pic.mem
    ensures Pictured(pic.Snapshot(), old(pic.Snapshot()), pic.h, pic.w,
                     Reconstruct(LeGall53, old(c.Snapshot()), c.h, c.w, depth), g, c.w, bits, g.y + g.h)
  {
    hide Deep, LevelsOk, LevelOk, ShapeOk, c.Valid, c.Snapshot, VPass, HPass, Pow2, Pictured, PartOk, Reconstruct;
    InvertDownTo(LeGall53, c, depth, 1);
    OneLevelLeft(c);
    ghost var q := c.Snapshot();
    VInPlace(LeGall53, c, 1);
    LastLevel(q, c.h, c.w);
    FinalPass(c, pic, g, bits);
  }

  lemma OneLevelLeft(c: Canvas)
    requires LevelsOk(LeGall53, c.h, c.w, 1) && Deep(LeGall53, c, 1)
    ensures LevelOk(LeGall53, c.h, c.w, 1) && LongEnough(LeGall53, false, c.h / 1)
  {}

  lemma LastLevel(q: Plane, h: nat, w: nat)
    requires Rect(q, h, w) && LevelsOk(LeGall53, h, w, 1) && LevelOk(LeGall53, h, w, 1)
    ensures Reconstruct(LeGall53, q, h, w, 1)
         == HPass(LeGall53, Synthesis, VPass(LeGall53, Synthesis, q, h, w, 1), h, w, 1)
  {
    hide VPass, HPass;
  }
}
