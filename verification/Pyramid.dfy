/** The inverse transform of a picture buffer in place: every column of a level, then every row, from the
    coarsest level down. */
module Pyramid {
  import opened Lifting
  import opened Lanes
  import opened Planes
  import LeGallKernels
  import DeslauriersKernels

  /** The streaming kernels unroll their ends, so that they need lines of a minimal length. */
  function Shortest(f: Filter, halve: bool): nat {
    match f
    case LeGall53 => if halve then 6 else 2
    case DD97 => 6
    case DD137 => 8
  }

  predicate LongEnough(f: Filter, halve: bool, n: nat) {
    n % 2 == 0 && n >= Shortest(f, halve)
  }

  method SynthLine(f: Filter, halve: bool, l: Lane)
    requires l.Valid() && LongEnough(f, halve, l.n)
    modifies l.mem
    ensures l.Contents() == Line(f, Synthesis, halve, old(l.Contents()))
    ensures forall i :: 0 <= i < l.mem.Length && !l.On(i) ==> l.mem[i] == old(l.mem[i])
  {
    hide Pass, l.On;
    match f
    case LeGall53 =>
      if halve {
        LeGallKernels.SynthRow(l);
      } else {
        LeGallKernels.SynthV(l);
      }
    case DD97 => DeslauriersKernels.Stream97(l, halve);
    case DD137 => DeslauriersKernels.Stream137(l, halve);
  }

  /** A picture buffer: h rows of w samples, stride cells apart. */
  datatype Canvas = Canvas(mem: array<int>, h: nat, w: nat, stride: nat) {
    predicate Valid() {
      0 < w <= stride && h * stride <= mem.Length
    }

    function Cell(y: nat, x: nat): nat {
      y * stride + x
    }

    lemma CellInside(y: nat, x: nat)
      requires Valid() && y < h && x < w
      ensures Cell(y, x) < mem.Length
    {
      Monotone(h - 1, y, stride);
      assert h * stride == (h - 1) * stride + stride;
    }

    function At(y: nat, x: nat): int
      requires Valid() && y < h && x < w
      reads mem
    {
      CellInside(y, x);
      mem[Cell(y, x)]
    }

    ghost function Snapshot(): (p: Plane)
      requires Valid()
      reads mem
      ensures Rect(p, h, w)
      ensures forall y, x :: 0 <= y < h && 0 <= x < w ==> p[y][x] == At(y, x)
    {
      seq(h, y requires 0 <= y < h reads mem requires Valid() =>
        seq(w, x requires 0 <= x < w reads mem requires Valid() => At(y, x)))
    }

    /** Column x of the lattice of spacing s, as a line of memory. */
    function ColumnLane(x: nat, s: nat): Lane
      requires s > 0
    {
      Lane(mem, x, s * stride, h / s)
    }

    function RowLane(y: nat, s: nat): Lane
      requires s > 0
    {
      Lane(mem, y * stride, s, w / s)
    }

    lemma ColumnCell(x: nat, s: nat, k: nat)
      requires Valid() && Divides(s, h) && x < w && k < h / s
      ensures ColumnLane(x, s).Addr(k) == Cell(k * s, x) < mem.Length && k * s < h
    {
      LatticePoint(s, k, h);
      CellInside(k * s, x);
      assert k * (s * stride) == k * s * stride;
    }

    lemma ColumnLaneIsColumn(x: nat, s: nat)
      requires Valid() && Divides(s, h) && x < w
      ensures ColumnLane(x, s).Valid()
    {
      if h / s > 0 {
        ColumnCell(x, s, h / s - 1);
      }
      assert s * stride > 0 by {
        Monotone(s, 1, stride);
      }
    }

    lemma RowCell(y: nat, s: nat, k: nat)
      requires Valid() && Divides(s, w) && y < h && k < w / s
      ensures RowLane(y, s).Addr(k) == Cell(y, k * s) < mem.Length && k * s < w
    {
      LatticePoint(s, k, w);
      CellInside(y, k * s);
    }

    lemma RowLaneIsRow(y: nat, s: nat)
      requires Valid() && Divides(s, w) && y < h
      ensures RowLane(y, s).Valid()
    {
      if w / s > 0 {
        RowCell(y, s, w / s - 1);
      }
    }

    /** The cells of a column's line are those of its samples, and no others. */
    lemma OnColumn(x: nat, s: nat, y: nat, x': nat)
      requires Valid() && Divides(s, h) && x < w && y < h && x' < w
      ensures ColumnLane(x, s).On(Cell(y, x')) <==> x' == x && y % s == 0
    {
      forall k: nat ensures k < h / s && ColumnLane(x, s).Addr(k) == Cell(y, x') ==> x' == x && y % s == 0 {
        OnColumnAt(x, s, y, x', k);
      }
      if x' == x && y % s == 0 {
        LatticeIndex(s, y, h);
        ColumnCell(x, s, y / s);
        assert ColumnLane(x, s).On(Cell(y, x'));
      }
    }

    lemma OnColumnAt(x: nat, s: nat, y: nat, x': nat, k: nat)
      requires w <= stride && s > 0 && x < w && x' < w
      ensures ColumnLane(x, s).Addr(k) == Cell(y, x') ==> x' == x && y % s == 0
    {
      if x + k * (s * stride) == y * stride + x' {
        assert k * (s * stride) == k * s * stride;
        DivUnique(y * stride + x', y, x', stride);
        DivUnique(y * stride + x', k * s, x, stride);
        MultipleDivides(k, s);
      }
    }

    lemma OnRow(y: nat, s: nat, y': nat, x: nat)
      requires Valid() && Divides(s, w) && y < h && y' < h && x < w
      ensures RowLane(y, s).On(Cell(y', x)) <==> y' == y && x % s == 0
    {
      forall k: nat ensures k < w / s && RowLane(y, s).Addr(k) == Cell(y', x) ==> y' == y && x % s == 0 {
        if k < w / s {
          LatticePoint(s, k, w);
          OnRowAt(y, s, y', x, k);
        }
      }
      if y' == y && x % s == 0 {
        LatticeIndex(s, x, w);
        RowCell(y, s, x / s);
        assert RowLane(y, s).On(Cell(y', x));
      }
    }

    lemma OnRowAt(y: nat, s: nat, y': nat, x: nat, k: nat)
      requires w <= stride && s > 0 && x < w && k * s < w
      ensures RowLane(y, s).Addr(k) == Cell(y', x) ==> y' == y && x % s == 0
    {
      if y * stride + k * s == y' * stride + x {
        DivUnique(y' * stride + x, y', x, stride);
        DivUnique(y' * stride + x, y, k * s, stride);
        MultipleDivides(k, s);
      }
    }
  }

  /** The cells of part of a row. */
  lemma CellOffset(pic: Canvas, i: nat, j: nat, row: nat, first: nat, n: nat)
    requires j < pic.stride && first + n <= pic.stride
    ensures 0 <= pic.Cell(i, j) - pic.Cell(row, first) < n <==> i == row && first <= j < first + n
    ensures i == row ==> pic.Cell(i, j) - pic.Cell(row, first) == j - first
  {
    if i > row {
      Later(pic, i, row);
    } else if i < row {
      Later(pic, row, i);
    }
  }

  lemma Later(pic: Canvas, i: nat, row: nat)
    requires i > row
    ensures i * pic.stride >= row * pic.stride + pic.stride
  {
    if pic.stride > 0 {
      Monotone(i, row + 1, pic.stride);
    }
  }

  /** The pass is done on columns, or rows, up to a limit. */
  ghost predicate ColumnsDone(now: Plane, before: Plane, after: Plane, h: nat, w: nat, limit: int)
    requires Rect(now, h, w) && Rect(before, h, w) && Rect(after, h, w)
  {
    forall y, x :: 0 <= y < h && 0 <= x < w ==> now[y][x] == (if x < limit then after else before)[y][x]
  }

  ghost predicate RowsDone(now: Plane, before: Plane, after: Plane, h: nat, w: nat, limit: int)
    requires Rect(now, h, w) && Rect(before, h, w) && Rect(after, h, w)
  {
    forall y, x :: 0 <= y < h && 0 <= x < w ==> now[y][x] == (if y < limit then after else before)[y][x]
  }

  lemma ColumnLaneContents(c: Canvas, x: nat, s: nat)
    requires c.Valid() && Divides(s, c.h) && x < c.w
    ensures c.ColumnLane(x, s).Valid()
    ensures c.ColumnLane(x, s).Contents() == Column(c.Snapshot(), c.h, c.w, x, s)
  {
    c.ColumnLaneIsColumn(x, s);
    var l := c.ColumnLane(x, s);
    hide c.Valid, l.Valid, Lane.Addr, Lane.Valid;
    forall k: nat | k < l.n ensures l.Contents()[k] == Column(c.Snapshot(), c.h, c.w, x, s)[k] {
      c.ColumnCell(x, s, k);
    }
  }

  lemma RowLaneContents(c: Canvas, y: nat, s: nat)
    requires c.Valid() && Divides(s, c.w) && y < c.h
    ensures c.RowLane(y, s).Valid()
    ensures c.RowLane(y, s).Contents() == Row(c.Snapshot(), c.h, c.w, y, s)
  {
    c.RowLaneIsRow(y, s);
    var l := c.RowLane(y, s);
    hide c.Valid, l.Valid, Lane.Addr, Lane.Valid;
    forall k: nat | k < l.n ensures l.Contents()[k] == Row(c.Snapshot(), c.h, c.w, y, s)[k] {
      c.RowCell(y, s, k);
    }
  }

  /** One more column, or row, is done. */
  ghost predicate ColumnAdded(f: Filter, now: Plane, next: Plane, h: nat, w: nat, s: nat, x: nat)
    requires Rect(now, h, w) && Rect(next, h, w) && LevelOk(f, h, w, s)
  {
    forall y, x' :: 0 <= y < h && 0 <= x' < w
      ==> next[y][x'] == (if x' == x then VAt(f, Synthesis, now, h, w, s, y, x') else now[y][x'])
  }

  ghost predicate RowAdded(f: Filter, now: Plane, next: Plane, h: nat, w: nat, s: nat, y: nat)
    requires Rect(now, h, w) && Rect(next, h, w) && LevelOk(f, h, w, s)
  {
    forall y', x :: 0 <= y' < h && 0 <= x < w
      ==> next[y'][x] == (if y' == y then HAt(f, Synthesis, now, h, w, s, y', x) else now[y'][x])
  }

  method ColumnStep(f: Filter, c: Canvas, s: nat, x: nat)
    requires c.Valid() && LevelOk(f, c.h, c.w, s) && x < c.w && x % s == 0 && LongEnough(f, false, c.h / s)
    modifies c.mem
    ensures ColumnAdded(f, old(c.Snapshot()), c.Snapshot(), c.h, c.w, s, x)
  {
    hide Line, LineOk, c.Valid, c.Snapshot, c.Cell, Lane.Addr, Lane.Valid, Lane.On;
    ghost var p := c.Snapshot();
    var l := c.ColumnLane(x, s);
    ColumnLaneContents(c, x, s);
    SynthLine(f, false, l);
    ColumnLaneContents(c, x, s);
    forall y: nat, x': nat | y < c.h && x' < c.w
      ensures c.At(y, x') == if x' == x then VAt(f, Synthesis, p, c.h, c.w, s, y, x) else p[y][x']
    {
      c.OnColumn(x, s, y, x');
      c.CellInside(y, x');
      if x' == x && y % s == 0 {
        LatticeIndex(s, y, c.h);
        assert c.At(y, x) == Column(c.Snapshot(), c.h, c.w, x, s)[y / s];
      }
    }
  }

  method RowStep(f: Filter, c: Canvas, s: nat, y: nat)
    requires c.Valid() && LevelOk(f, c.h, c.w, s) && y < c.h && y % s == 0 && LongEnough(f, true, c.w / s)
    modifies c.mem
    ensures RowAdded(f, old(c.Snapshot()), c.Snapshot(), c.h, c.w, s, y)
  {
    hide Line, LineOk, c.Valid, c.Snapshot, c.Cell, Lane.Addr, Lane.Valid, Lane.On;
    ghost var p := c.Snapshot();
    var l := c.RowLane(y, s);
    RowLaneContents(c, y, s);
    SynthLine(f, true, l);
    RowLaneContents(c, y, s);
    forall y': nat, x: nat | y' < c.h && x < c.w
      ensures c.At(y', x) == if y' == y then HAt(f, Synthesis, p, c.h, c.w, s, y, x) else p[y'][x]
    {
      c.OnRow(y, s, y', x);
      c.CellInside(y', x);
      if y' == y && x % s == 0 {
        LatticeIndex(s, x, c.w);
        assert c.At(y, x) == Row(c.Snapshot(), c.h, c.w, y, s)[x / s];
      }
    }
  }

  /** An unvisited column still gives what the pass makes of it. */
  lemma NextColumn(f: Filter, now: Plane, before: Plane, h: nat, w: nat, s: nat, x: nat, y: nat)
    requires Rect(now, h, w) && Rect(before, h, w) && LevelOk(f, h, w, s) && x < w && y < h
    requires ColumnsDone(now, before, VPass(f, Synthesis, before, h, w, s), h, w, x)
    ensures VAt(f, Synthesis, now, h, w, s, y, x) == VAt(f, Synthesis, before, h, w, s, y, x)
  {
    hide Line, LineOk, VPass;
    forall k: nat | k < h / s ensures Column(now, h, w, x, s)[k] == Column(before, h, w, x, s)[k] {}
    assert Column(now, h, w, x, s) == Column(before, h, w, x, s);
  }

  lemma NextRow(f: Filter, now: Plane, before: Plane, h: nat, w: nat, s: nat, x: nat, y: nat)
    requires Rect(now, h, w) && Rect(before, h, w) && LevelOk(f, h, w, s) && x < w && y < h
    requires RowsDone(now, before, HPass(f, Synthesis, before, h, w, s), h, w, y)
    ensures HAt(f, Synthesis, now, h, w, s, y, x) == HAt(f, Synthesis, before, h, w, s, y, x)
  {
    hide Line, LineOk, HPass;
    forall k: nat | k < w / s ensures Row(now, h, w, y, s)[k] == Row(before, h, w, y, s)[k] {}
    assert Row(now, h, w, y, s) == Row(before, h, w, y, s);
  }

  lemma BetweenLattice(x: nat, s: nat, x': int)
    requires s > 0 && x % s == 0
    ensures (x + s) % s == 0
    ensures x < x' < x + s ==> x' % s != 0
  {
    var k := x / s;
    assert x == k * s;
    DivUnique(x + s, k + 1, 0, s);
    if x < x' < x + s {
      DivUnique(x', k, x' - x, s);
    }
  }

  lemma OffLatticeStays(f: Filter, p: Plane, h: nat, w: nat, s: nat, y: nat, x: nat)
    requires Rect(p, h, w) && LevelOk(f, h, w, s) && y < h && x < w
    ensures !OnLattice(s, y, x) ==>
              VAt(f, Synthesis, p, h, w, s, y, x) == HAt(f, Synthesis, p, h, w, s, y, x) == p[y][x]
  {}

  lemma ColumnAdvance(f: Filter, now: Plane, next: Plane, p: Plane, h: nat, w: nat, s: nat, x: nat)
    requires Rect(now, h, w) && Rect(next, h, w) && Rect(p, h, w) && LevelOk(f, h, w, s) && x < w && x % s == 0
    requires ColumnsDone(now, p, VPass(f, Synthesis, p, h, w, s), h, w, x) && ColumnAdded(f, now, next, h, w, s, x)
    ensures ColumnsDone(next, p, VPass(f, Synthesis, p, h, w, s), h, w, x + s) && (x + s) % s == 0
  {
    hide Line, LineOk, VPass, VAt;
    var q := VPass(f, Synthesis, p, h, w, s);
    BetweenLattice(x, s, x);
    forall y: nat, x': nat | y < h && x' < w ensures next[y][x'] == (if x' < x + s then q else p)[y][x'] {
      NextColumn(f, now, p, h, w, s, x, y);
      BetweenLattice(x, s, x');
      OffLatticeStays(f, p, h, w, s, y, x');
    }
  }

  lemma RowAdvance(f: Filter, now: Plane, next: Plane, p: Plane, h: nat, w: nat, s: nat, y: nat)
    requires Rect(now, h, w) && Rect(next, h, w) && Rect(p, h, w) && LevelOk(f, h, w, s) && y < h && y % s == 0
    requires RowsDone(now, p, HPass(f, Synthesis, p, h, w, s), h, w, y) && RowAdded(f, now, next, h, w, s, y)
    ensures RowsDone(next, p, HPass(f, Synthesis, p, h, w, s), h, w, y + s) && (y + s) % s == 0
  {
    hide Line, LineOk, HPass, HAt;
    var q := HPass(f, Synthesis, p, h, w, s);
    BetweenLattice(y, s, y);
    forall y': nat, x: nat | y' < h && x < w ensures next[y'][x] == (if y' < y + s then q else p)[y'][x] {
      NextRow(f, now, p, h, w, s, x, y);
      BetweenLattice(y, s, y');
      OffLatticeStays(f, p, h, w, s, y', x);
    }
  }

  /** The vertical transform of a level, in place. */
  method VInPlace(f: Filter, c: Canvas, s: nat)
    requires c.Valid() && LevelOk(f, c.h, c.w, s) && LongEnough(f, false, c.h / s)
    modifies c.mem
    ensures c.Snapshot() == VPass(f, Synthesis, old(c.Snapshot()), c.h, c.w, s)
  {
    hide LineOk, LongEnough, c.Valid, c.Snapshot, c.At, VPass, VAt, ColumnAdded;
    ghost var p := c.Snapshot();
    ghost var q := VPass(f, Synthesis, p, c.h, c.w, s);
    var x := 0;
    while x < c.w
      invariant x % s == 0
      invariant ColumnsDone(c.Snapshot(), p, q, c.h, c.w, x)
    {
      ghost var now := c.Snapshot();
      ColumnStep(f, c, s, x);
      ColumnAdvance(f, now, c.Snapshot(), p, c.h, c.w, s, x);
      x := x + s;
    }
    SamePlane(c.Snapshot(), q, c.h, c.w);
  }

  /** The horizontal transform of a level, in place. */
  method HInPlace(f: Filter, c: Canvas, s: nat)
    requires c.Valid() && LevelOk(f, c.h, c.w, s) && LongEnough(f, true, c.w / s)
    modifies c.mem
    ensures c.Snapshot() == HPass(f, Synthesis, old(c.Snapshot()), c.h, c.w, s)
  {
    hide LineOk, LongEnough, c.Valid, c.Snapshot, c.At, HPass, HAt, RowAdded;
    ghost var p := c.Snapshot();
    ghost var q := HPass(f, Synthesis, p, c.h, c.w, s);
    var y := 0;
    while y < c.h
      invariant y % s == 0
      invariant RowsDone(c.Snapshot(), p, q, c.h, c.w, y)
    {
      ghost var now := c.Snapshot();
      RowStep(f, c, s, y);
      RowAdvance(f, now, c.Snapshot(), p, c.h, c.w, s, y);
      y := y + s;
    }
    SamePlane(c.Snapshot(), q, c.h, c.w);
  }

  /** Every level of the buffer has lines the kernels can take. */
  predicate Deep(f: Filter, c: Canvas, depth: nat) {
    depth == 0 || (ShapeOk(f, c.h, c.w, Pow2(depth - 1)) && Deep(f, c, depth - 1))
  }

  predicate ShapeOk(f: Filter, h: nat, w: nat, s: nat) {
    s > 0 && LongEnough(f, false, h / s) && LongEnough(f, true, w / s)
  }

  lemma DeepLevel(f: Filter, c: Canvas, depth: nat)
    requires depth > 0 && Deep(f, c, depth) && LevelsOk(f, c.h, c.w, depth)
    ensures Deep(f, c, depth - 1) && LevelsOk(f, c.h, c.w, depth - 1) && LevelOk(f, c.h, c.w, Pow2(depth - 1))
    ensures ShapeOk(f, c.h, c.w, Pow2(depth - 1))
  {
    hide LevelOk, ShapeOk, Pow2;
  }

  lemma LongLines(f: Filter, c: Canvas, s: nat)
    requires ShapeOk(f, c.h, c.w, s)
    ensures s > 0 && LongEnough(f, false, c.h / s) && LongEnough(f, true, c.w / s)
  {}

  /** The levels down to one, in place: reconstructing what they leave is reconstructing the picture. */
  method InvertDownTo(f: Filter, c: Canvas, depth: nat, left: nat)
    requires c.Valid() && left <= depth && LevelsOk(f, c.h, c.w, depth) && Deep(f, c, depth)
    modifies c.mem
    ensures Deep(f, c, left) && LevelsOk(f, c.h, c.w, left)
    ensures Reconstruct(f, c.Snapshot(), c.h, c.w, left) == Reconstruct(f, old(c.Snapshot()), c.h, c.w, depth)
  {
    hide Deep, LevelOk, ShapeOk, c.Valid, c.Snapshot, c.At, VPass, HPass, Pow2;
    ghost var p := c.Snapshot();
    var l := depth;
    while l > left
      invariant left <= l <= depth && Deep(f, c, l) && LevelsOk(f, c.h, c.w, l)
      invariant Reconstruct(f, c.Snapshot(), c.h, c.w, l) == Reconstruct(f, p, c.h, c.w, depth)
    {
      DeepLevel(f, c, l);
      var s := Pow2(l - 1);
      LongLines(f, c, s);
      VInPlace(f, c, s);
      HInPlace(f, c, s);
      l := l - 1;
    }
  }

  /** The whole pyramid in place: it leaves the reconstructed picture. */
  method Invert(f: Filter, c: Canvas, depth: nat)
    requires c.Valid() && LevelsOk(f, c.h, c.w, depth) && Deep(f, c, depth)
    modifies c.mem
    ensures c.Snapshot() == Reconstruct(f, old(c.Snapshot()), c.h, c.w, depth)
  {
    InvertDownTo(f, c, depth, 0);
  }
}
