/** A job's transforms with the vectorised passes of the last two levels: where they leave what the scalar ones do. */
module VectorTiles {
  import opened Lifting
  import opened Lanes
  import opened Planes
  import opened Pyramid
  import opened VectorRows
  import VectorColumns
  import VectorOutput
  import Output

  // ----- the rows of a level

  /** Rows of the finest two levels that hold whole blocks of eight samples of their lattice. */
  predicate WholeRows(w: nat, s: nat) {
    (s == 1 || s == 2) && w % (8 * s) == 0 && w > 0
  }

  predicate Blocks(l: Lane, s: nat) {
    (s == 1 && Dense(l)) || (s == 2 && Spaced(l))
  }

  lemma WholeBlocks(w: nat, s: nat)
    requires WholeRows(w, s)
    ensures Divides(s, w) && w / s % 8 == 0 && w / s >= 8 && w / s * s == w && LineOk(LeGall53, w / s)
  {
    if s == 2 {
      var q := w / 16;
      assert w == 16 * q;
    }
  }

  lemma BlocksInRow(c: Canvas, y: nat, s: nat)
    requires c.Valid() && WholeRows(c.w, s) && y < c.h
    ensures Divides(s, c.w) && c.RowLane(y, s).Valid()
    ensures Blocks(c.RowLane(y, s), s)
  {
    WholeBlocks(c.w, s);
    hide WholeRows, c.Cell, Divides, LineOk;
    c.CellInside(y, c.w - 1);
    RowLaneContents(c, y, s);
    CellIs(c, y, c.w - 1);
  }

  lemma CellIs(c: Canvas, y: nat, x: nat)
    ensures c.Cell(y, x) == y * c.stride + x
  {}

  /** One row of a level, as Pyramid.RowStep leaves it. */
  method RowStep(c: Canvas, s: nat, y: nat)
    requires c.Valid() && LevelOk(LeGall53, c.h, c.w, s) && WholeRows(c.w, s) && y < c.h && y % s == 0
    modifies c.mem
    ensures RowAdded(LeGall53, old(c.Snapshot()), c.Snapshot(), c.h, c.w, s, y)
  {
    hide Line, LineOk, c.Valid, c.Snapshot, c.Cell, Lane.Addr, Lane.Valid, Lane.On, Blocks, WholeRows;
    ghost var p := c.Snapshot();
    var l := c.RowLane(y, s);
    BlocksInRow(c, y, s);
    RowLaneContents(c, y, s);
    SynthRow(l, s);
    RowLaneContents(c, y, s);
    forall y': nat, x: nat | y' < c.h && x < c.w
      ensures c.At(y', x) == if y' == y then HAt(LeGall53, Synthesis, p, c.h, c.w, s, y, x) else p[y'][x]
    {
      c.OnRow(y, s, y', x);
      c.CellInside(y', x);
      if y' == y && x % s == 0 {
        LatticeIndex(s, x, c.w);
        assert c.At(y, x) == Row(c.Snapshot(), c.h, c.w, y, s)[x / s];
      }
    }
  }

  method SynthRow(l: Lane, s: nat)
    requires l.Valid() && LineOk(LeGall53, l.n) && Blocks(l, s)
    modifies l.mem
    ensures l.Contents() == Line(LeGall53, Synthesis, true, old(l.Contents()))
    ensures forall i :: 0 <= i < l.mem.Length && !l.On(i) ==> l.mem[i] == old(l.mem[i])
  {
    hide Pass, l.On;
    if s == 1 {
      SynthRow1(l);
    } else {
      SynthRow2(l);
    }
  }

  /** The horizontal transform of one of the two levels, in place. */
  method HInPlaceVectors(c: Canvas, s: nat)
    requires c.Valid() && LevelOk(LeGall53, c.h, c.w, s) && WholeRows(c.w, s)
    modifies c.mem
    ensures c.Snapshot() == HPass(LeGall53, Synthesis, old(c.Snapshot()), c.h, c.w, s)
  {
    hide LineOk, c.Valid, c.Snapshot, c.At, HPass, HAt, RowAdded, WholeRows;
    ghost var p := c.Snapshot();
    ghost var q := HPass(LeGall53, Synthesis, p, c.h, c.w, s);
    var y := 0;
    while y < c.h
      invariant y % s == 0
      invariant RowsDone(c.Snapshot(), p, q, c.h, c.w, y)
    {
      ghost var now := c.Snapshot();
      RowStep(c, s, y);
      RowAdvance(LeGall53, now, c.Snapshot(), p, c.h, c.w, s, y);
      y := y + s;
    }
    SamePlane(c.Snapshot(), q, c.h, c.w);
  }

  // ----- the levels

  /** Buffers that the passes for the last two levels, or for the last, can take. */
  predicate Suited(c: Canvas, depth: nat) {
    c.stride % 4 == 0 && WholeRows(c.w, 1) && (depth > 1 ==> WholeRows(c.w, 2))
  }

  /** Longer spacings are left to the scalar passes. */
  method LevelPass(c: Canvas, depth: nat)
    requires c.Valid() && Suited(c, depth) && depth > 0 && LevelsOk(LeGall53, c.h, c.w, depth)
             && Deep(LeGall53, c, depth)
    modifies c.mem
    ensures LevelOk(LeGall53, c.h, c.w, Pow2(depth - 1))
    ensures c.Snapshot() == SynthLevel(LeGall53, old(c.Snapshot()), c.h, c.w, Pow2(depth - 1))
  {
    hide Deep, LevelOk, ShapeOk, c.Valid, c.Snapshot, VPass, HPass, Pow2, WholeRows, VectorColumns.Shape;
    DeepLevel(LeGall53, c, depth);
    var s := Pow2(depth - 1);
    LongLines(LeGall53, c, s);
    if s == 1 || s == 2 {
      SpacingOne(depth);
      TwoSteps(c, s);
      VectorColumns.VInPlaceVectors(c, s);
      HInPlaceVectors(c, s);
    } else {
      VInPlace(LeGall53, c, s);
      HInPlace(LeGall53, c, s);
    }
  }

  lemma TwoSteps(c: Canvas, s: nat)
    requires c.Valid() && Suited(c, s) && LevelOk(LeGall53, c.h, c.w, s) && (s == 1 || s == 2)
    ensures VectorColumns.Shape(c, s) && WholeRows(c.w, s)
  {}

  lemma SpacingOne(depth: nat)
    requires depth > 0
    ensures Pow2(depth - 1) == 1 <==> depth == 1
  {}

  /** The levels down to the last one. */
  method InvertDownToOne(c: Canvas, depth: nat)
    requires c.Valid() && Suited(c, depth) && depth > 0 && LevelsOk(LeGall53, c.h, c.w, depth)
             && Deep(LeGall53, c, depth)
    modifies c.mem
    ensures Deep(LeGall53, c, 1) && LevelsOk(LeGall53, c.h, c.w, 1)
    ensures Reconstruct(LeGall53, c.Snapshot(), c.h, c.w, 1)
         == Reconstruct(LeGall53, old(c.Snapshot()), c.h, c.w, depth)
  {
    hide Deep, LevelOk, ShapeOk, c.Valid, c.Snapshot, SynthLevel, Pow2, Suited;
    ghost var p := c.Snapshot();
    var l := depth;
    while l > 1
      invariant 1 <= l <= depth && Deep(LeGall53, c, l) && LevelsOk(LeGall53, c.h, c.w, l)
      invariant Reconstruct(LeGall53, c.Snapshot(), c.h, c.w, l) == Reconstruct(LeGall53, p, c.h, c.w, depth)
    {
      SuitedToo(c, depth, l);
      DeepLevel(LeGall53, c, l);
      LevelPass(c, l);
      l := l - 1;
    }
  }

  lemma SuitedToo(c: Canvas, depth: nat, l: nat)
    requires Suited(c, depth) && l <= depth
    ensures Suited(c, l)
  {}

  // ----- the last pass

  /** Row y of the tile as a part of the output's memory. */
  function SlotOf(g: Output.Part, w: nat): Output.Slot {
    Output.Slot(w, g.x, g.w, 0)
  }

  /** The blocks that begin in the part lie in the tile and in the output's rows. */
  predicate PartOk(g: Output.Part, c: Canvas, pic: Canvas) {
    && VectorOutput.Valid(SlotOf(g, c.w)) && g.y + g.h <= c.h && g.toY + g.h <= pic.h
    && g.toX + VectorOutput.BlocksUp(g.x + g.w) - g.x <= pic.w
  }

  /** The shift before the pack keeps every sample in 32 bits. */
  ghost predicate InRange(bits: nat, r: Plane) {
    0 < bits <= 16 && forall y, x :: 0 <= y < |r| && 0 <= x < |r[y]| ==> FitsShifted(bits, r[y][x])
  }

  predicate FitsShifted(bits: nat, v: int)
    requires 0 < bits <= 16
  {
    -0x8000_0000 <= (v + Pow2(bits - 1)) * Pow2(16 - bits) < 0x8000_0000
  }

  /** The output when the tile's plane r has been stored up to row d, by whole blocks. */
  function PictureAt(was: int, r: Plane, g: Output.Part, w: nat, bits: nat, d: int, i: nat, j: nat): int
    requires bits > 0 && Rect(r, |r|, w) && g.y + g.h <= |r|
  {
    var y, x := i - g.toY + g.y, j - g.toX + g.x;
    if g.toY <= i < g.toY + g.h && y < d && VectorOutput.Takes(SlotOf(g, w), x)
    then Output.Shown(bits, r[y][x]) else was
  }

  ghost predicate Pictured(now: Plane, before: Plane, h: nat, w: nat, r: Plane, g: Output.Part, tw: nat, bits: nat,
                           d: int)
    requires bits > 0 && Rect(now, h, w) && Rect(before, h, w) && Rect(r, |r|, tw) && g.y + g.h <= |r|
  {
    forall i: nat, j: nat :: i < h && j < w ==> now[i][j] == PictureAt(before[i][j], r, g, tw, bits, d, i, j)
  }

  /** Row y is stored besides what was there. */
  function RowStoredAt(was: int, r: Plane, g: Output.Part, w: nat, bits: nat, y: int, i: nat, j: nat): int
    requires bits > 0 && Rect(r, |r|, w) && g.y + g.h <= |r| && g.y <= y < g.y + g.h
  {
    var x := j - g.toX + g.x;
    if i == g.toY + y - g.y && VectorOutput.Takes(SlotOf(g, w), x) then Output.Shown(bits, r[y][x]) else was
  }

  ghost predicate RowStored(now: Plane, before: Plane, h: nat, w: nat, r: Plane, g: Output.Part, tw: nat, bits: nat,
                            y: int)
    requires bits > 0 && Rect(now, h, w) && Rect(before, h, w) && Rect(r, |r|, tw)
    requires g.y + g.h <= |r| && g.y <= y < g.y + g.h
  {
    forall i: nat, j: nat :: i < h && j < w ==> now[i][j] == RowStoredAt(before[i][j], r, g, tw, bits, y, i, j)
  }

  lemma AdvanceRow(before: Plane, now: Plane, next: Plane, h: nat, w: nat, r: Plane, g: Output.Part, tw: nat,
                   bits: nat, y: int)
    requires bits > 0 && Rect(before, h, w) && Rect(now, h, w) && Rect(next, h, w) && Rect(r, |r|, tw)
    requires g.y + g.h <= |r| && g.y <= y < g.y + g.h
    requires Pictured(now, before, h, w, r, g, tw, bits, y) && RowStored(next, now, h, w, r, g, tw, bits, y)
    ensures Pictured(next, before, h, w, r, g, tw, bits, y + 1)
  {
    hide VectorOutput.Takes, Output.Shown, SlotOf;
  }

  lemma NoRow(before: Plane, h: nat, w: nat, r: Plane, g: Output.Part, tw: nat, bits: nat)
    requires bits > 0 && Rect(before, h, w) && Rect(r, |r|, tw) && g.y + g.h <= |r|
    ensures Pictured(before, before, h, w, r, g, tw, bits, g.y)
  {
    hide VectorOutput.Takes, Output.Shown, SlotOf;
  }

  /** Which cells of the output a row's blocks take. */
  lemma BlockCells(pic: Canvas, g: Output.Part, w: nat, row: nat, i: nat, j: nat)
    requires VectorOutput.Valid(SlotOf(g, w)) && j < pic.w <= pic.stride
    requires g.toX + VectorOutput.BlocksUp(g.x + g.w) - g.x <= pic.w
    ensures var x := pic.Cell(i, j) - pic.Cell(row, g.toX) + g.x;
            && (VectorOutput.Takes(SlotOf(g, w), x) <==> i == row && VectorOutput.Takes(SlotOf(g, w), j - g.toX + g.x))
            && (i == row ==> x == j - g.toX + g.x)
  {
    var a, b := VectorOutput.BlocksUp(g.x), VectorOutput.BlocksUp(g.x + g.w);
    VectorOutput.Aligned(g.x);
    VectorOutput.Aligned(g.x + g.w);
    BlocksEnd(g.x + g.w, w);
    CellOffset(pic, i, j, row, g.toX + a - g.x, b - a);
    CellIs(pic, row, g.toX);
    CellIs(pic, row, g.toX + a - g.x);
    CellIs(pic, i, j);
    hide VectorOutput.BlocksUp, pic.Cell;
  }

  lemma BlocksEnd(x: nat, w: nat)
    requires x <= w && w % 8 == 0
    ensures VectorOutput.BlocksUp(x) <= w
  {}

  /** A row that fits the shift as a line of the plane. */
  lemma LineInRange(p: Plane, h: nat, w: nat, bits: nat, y: nat)
    requires Rect(p, h, w) && LevelOk(LeGall53, h, w, 1) && y < h
             && InRange(bits, HPass(LeGall53, Synthesis, p, h, w, 1))
    ensures VectorOutput.InRange(bits, Synth(LeGall53, Row(p, h, w, y, 1)))
  {
    hide Synth, HPass;
    var t := Synth(LeGall53, Row(p, h, w, y, 1));
    forall x: nat | x < |t| ensures FitsShifted(bits, Half(LeGall53, t[x])) {
      Output.RowValue(p, h, w, y, x);
      assert FitsShifted(bits, HPass(LeGall53, Synthesis, p, h, w, 1)[y][x]);
    }
  }

  /** The row's slot in the output's memory. */
  lemma SlotFits(c: Canvas, pic: Canvas, g: Output.Part, y: nat)
    requires c.Valid() && pic.Valid() && PartOk(g, c, pic) && g.y <= y < g.y + g.h
    ensures var s := Output.Slot(c.w, g.x, g.w, pic.Cell(g.toY + y - g.y, g.toX));
            VectorOutput.Valid(s) && VectorOutput.Room(s, pic.mem.Length)
    ensures WholeRows(c.w, 1) && pic.w <= pic.stride
  {
    var row, last := g.toY + y - g.y, g.toX + VectorOutput.BlocksUp(g.x + g.w) - g.x - 1;
    VectorOutput.Aligned(g.x + g.w);
    hide VectorOutput.BlocksUp;
    pic.CellInside(row, last);
    CellIs(pic, row, g.toX);
    CellIs(pic, row, last);
  }

  lemma CellStored(pic: Canvas, g: Output.Part, p: Plane, h: nat, w: nat, bits: nat, y: nat, i: nat, j: nat, was: int)
    requires bits > 0 && Rect(p, h, w) && LevelOk(LeGall53, h, w, 1) && VectorOutput.Valid(SlotOf(g, w))
    requires g.y + g.h <= h && g.y <= y < g.y + g.h && j < pic.w <= pic.stride
    requires g.toX + VectorOutput.BlocksUp(g.x + g.w) - g.x <= pic.w
    ensures var base := pic.Cell(g.toY + y - g.y, g.toX);
            && |Row(p, h, w, y, 1)| == w
            && VectorOutput.ShownAt(was, Output.Slot(w, g.x, g.w, base), bits, Synth(LeGall53, Row(p, h, w, y, 1)), w,
                                    pic.Cell(i, j) - base + g.x)
               == RowStoredAt(was, HPass(LeGall53, Synthesis, p, h, w, 1), g, w, bits, y, i, j)
  {
    var row := g.toY + y - g.y;
    BlockCells(pic, g, w, row, i, j);
    TakesWithin(g, w, pic.Cell(row, g.toX), pic.Cell(i, j) - pic.Cell(row, g.toX) + g.x);
    hide Synth, Output.Shown, HPass, pic.Cell, VectorOutput.Takes, SlotOf;
    if i == row && VectorOutput.Takes(SlotOf(g, w), j - g.toX + g.x) {
      TakesWithin(g, w, pic.Cell(row, g.toX), j - g.toX + g.x);
      Output.RowValue(p, h, w, y, j - g.toX + g.x);
    }
  }

  /** What is taken does not depend on where the row lies in memory. */
  lemma TakesWithin(g: Output.Part, w: nat, base: nat, x: int)
    ensures VectorOutput.Takes(Output.Slot(w, g.x, g.w, base), x) <==> VectorOutput.Takes(SlotOf(g, w), x)
    ensures VectorOutput.Takes(SlotOf(g, w), x) ==> 0 <= x < w
  {}

  method StoreRow(c: Canvas, pic: Canvas, g: Output.Part, bits: nat, y: nat)
    requires c.Valid() && pic.Valid() && c.mem != pic.mem && PartOk(g, c, pic) && LevelOk(LeGall53, c.h, c.w, 1)
    requires 0 < bits <= 16 && g.y <= y < g.y + g.h
    requires InRange(bits, HPass(LeGall53, Synthesis, c.Snapshot(), c.h, c.w, 1))
    modifies pic.mem
    ensures RowStored(pic.Snapshot(), old(pic.Snapshot()), pic.h, pic.w,
                      HPass(LeGall53, Synthesis, c.Snapshot(), c.h, c.w, 1), g, c.w, bits, y)
  {
    hide Synth, VectorOutput.ShownAt, RowStoredAt, Row, Lane.Addr, Lane.Valid, c.Valid, HPass, c.Cell, LineOk, Divides;
    hide VectorOutput.InRange, VectorOutput.Valid, VectorOutput.Room, WholeRows, InRange, VectorOutput.BlocksUp;
    ghost var before, mem0 := pic.Snapshot(), pic.mem[..];
    ghost var p := c.Snapshot();
    LineInRange(p, c.h, c.w, bits, y);
    SlotFits(c, pic, g, y);
    BlocksInRow(c, y, 1);
    RowLaneContents(c, y, 1);
    var s := Output.Slot(c.w, g.x, g.w, pic.Cell(g.toY + y - g.y, g.toX));
    VectorOutput.FinalRow(c.RowLane(y, 1), pic.mem, s, bits);
    forall i: nat, j: nat | i < pic.h && j < pic.w
      ensures pic.Snapshot()[i][j]
           == RowStoredAt(before[i][j], HPass(LeGall53, Synthesis, p, c.h, c.w, 1), g, c.w, bits, y, i, j)
    {
      pic.CellInside(i, j);
      CellStored(pic, g, p, c.h, c.w, bits, y, i, j, before[i][j]);
      assert pic.mem[..][pic.Cell(i, j)]
             == VectorOutput.ShownAt(mem0[pic.Cell(i, j)], s, bits, Synth(LeGall53, Row(p, c.h, c.w, y, 1)), c.w,
                                     pic.Cell(i, j) - s.base + s.first);
    }
  }

  /** The last pass of a tile whose plane has had its last vertical one. */
  method FinalPass(c: Canvas, pic: Canvas, g: Output.Part, bits: nat)
    requires c.Valid() && pic.Valid() && c.mem != pic.mem && PartOk(g, c, pic) && LevelOk(LeGall53, c.h, c.w, 1)
    requires 0 < bits <= 16 && InRange(bits, HPass(LeGall53, Synthesis, c.Snapshot(), c.h, c.w, 1))
    modifies pic.mem
    ensures Pictured(pic.Snapshot(), old(pic.Snapshot()), pic.h, pic.w,
                     HPass(LeGall53, Synthesis, c.Snapshot(), c.h, c.w, 1), g, c.w, bits, g.y + g.h)
  {
    hide HPass, c.Valid, c.Snapshot, RowStored, LevelOk, Output.Shown, InRange, PartOk, Pictured;
    ghost var before := pic.Snapshot();
    ghost var p := c.Snapshot();
    PartInside(g, c, pic);
    NoRow(before, pic.h, pic.w, HPass(LeGall53, Synthesis, p, c.h, c.w, 1), g, c.w, bits);
    var y := g.y;
    while y < c.h && y < g.y + g.h
      invariant g.y <= y <= g.y + g.h && c.Snapshot() == p
      invariant Pictured(pic.Snapshot(), before, pic.h, pic.w, HPass(LeGall53, Synthesis, p, c.h, c.w, 1), g, c.w, bits,
                         y)
    {
      ghost var now := pic.Snapshot();
      StoreRow(c, pic, g, bits, y);
      AdvanceRow(before, now, pic.Snapshot(), pic.h, pic.w, HPass(LeGall53, Synthesis, p, c.h, c.w, 1), g, c.w, bits,
                 y);
      y := y + 1;
    }
  }

  lemma PartInside(g: Output.Part, c: Canvas, pic: Canvas)
    requires PartOk(g, c, pic)
    ensures g.y + g.h <= c.h && g.x + g.w <= c.w
  {}

  // ----- a tile

  /** A job's transforms with the vectorised passes: every block that begins in the part is the reconstructed
      plane's. */
  method DecodeTile(c: Canvas, pic: Canvas, g: Output.Part, bits: nat, depth: nat)
    requires c.Valid() && pic.Valid() && c.mem != pic.mem && PartOk(g, c, pic) && Suited(c, depth) && 0 < bits <= 16
    requires depth > 0 && LevelsOk(LeGall53, c.h, c.w, depth) && Deep(LeGall53, c, depth)
    requires InRange(bits, Reconstruct(LeGall53, c.Snapshot(), c.h, c.w, depth))
    modifies c.mem, pic.mem
    ensures Pictured(pic.Snapshot(), old(pic.Snapshot()), pic.h, pic.w,
                     Reconstruct(LeGall53, old(c.Snapshot()), c.h, c.w, depth), g, c.w, bits, g.y + g.h)
  {
    hide Deep, LevelsOk, LevelOk, ShapeOk, c.Valid, c.Snapshot, VPass, HPass, Pow2, Pictured, PartOk, Reconstruct;
    hide InRange, Suited, VectorColumns.Shape;
    InvertDownToOne(c, depth);
    Output.OneLevelLeft(c);
    SuitedToo(c, depth, 1);
    ghost var q := c.Snapshot();
    TwoSteps(c, 1);
    VectorColumns.VInPlaceVectors(c, 1);
    Output.LastLevel(q, c.h, c.w);
    PartInside(g, c, pic);
    FinalPass(c, pic, g, bits);
  }

  /** On parts that begin and end at multiples of eight, the output is the one that the scalar passes leave. */
  lemma SamePicture(now: Plane, before: Plane, h: nat, w: nat, r: Plane, g: Output.Part, tw: nat, bits: nat)
    requires bits > 0 && Rect(now, h, w) && Rect(before, h, w) && Rect(r, |r|, tw) && g.y + g.h <= |r|
    requires VectorOutput.Valid(SlotOf(g, tw)) && g.x % 8 == 0 && (g.x + g.w) % 8 == 0
    ensures Pictured(now, before, h, w, r, g, tw, bits, g.y + g.h)
       <==> Output.Pictured(now, before, h, w, r, g, tw, bits, g.y + g.h)
  {
    forall i: nat, j: nat | i < h && j < w
      ensures PictureAt(before[i][j], r, g, tw, bits, g.y + g.h, i, j)
           == Output.PictureAt(before, r, g, tw, bits, g.y + g.h, i, j)
    {
      SameCell(before, r, g, tw, bits, i, j);
    }
    hide PictureAt, Output.PictureAt;
  }

  lemma SameCell(before: Plane, r: Plane, g: Output.Part, tw: nat, bits: nat, i: nat, j: nat)
    requires bits > 0 && i < |before| && j < |before[i]| && Rect(r, |r|, tw) && g.y + g.h <= |r|
    requires VectorOutput.Valid(SlotOf(g, tw)) && g.x % 8 == 0 && (g.x + g.w) % 8 == 0
    ensures PictureAt(before[i][j], r, g, tw, bits, g.y + g.h, i, j)
         == Output.PictureAt(before, r, g, tw, bits, g.y + g.h, i, j)
  {
    var x := j - g.toX + g.x;
    VectorOutput.SameAsScalar(SlotOf(g, tw), x);
    WideEnough(g, tw);
    Output.TakesPart(g, tw, 0, x);
    hide Output.Shown, VectorOutput.Takes, Output.Slot.Takes;
  }

  lemma WideEnough(g: Output.Part, tw: nat)
    requires VectorOutput.Valid(SlotOf(g, tw))
    ensures SlotOf(g, tw).Valid() && g.x + 5 <= tw && g.x + g.w <= tw
  {
    var q := tw / 8;
    assert tw == 8 * q == 2 * (4 * q);
  }
}
