/** Where the windows of two jobs meet: the last level needs a sample from across the seam, which only an overlap
    of windows provides. */
module Seams {
  import opened Lifting
  import opened Planes
  import opened JobGrid
  import opened Jobs
  import opened Picture
  import LeGallKernels
  import Tiles

  // ----- planes with one coefficient

  /** The coefficient of a plane that is zero but for 8 at (y0, x0). */
  function SpotAt(y0: int, x0: int, y: int, x: int): int {
    if y == y0 && x == x0 then 8 else 0
  }

  function Spot(h: nat, w: nat, y0: int, x0: int): (p: Plane)
    ensures Rect(p, h, w) && forall y, x :: 0 <= y < h && 0 <= x < w ==> p[y][x] == SpotAt(y0, x0, y, x)
  {
    seq(h, y requires 0 <= y < h => seq(w, x requires 0 <= x < w => SpotAt(y0, x0, y, x)))
  }

  ghost predicate Blank(p: Plane, h: nat, w: nat, s: nat)
    requires Rect(p, h, w) && s > 0
  {
    forall y, x :: 0 <= y < h && 0 <= x < w && OnLattice(s, y, x) ==> p[y][x] == 0
  }

  lemma ZeroLine(s: seq<int>, halve: bool, k: nat)
    requires LineOk(LeGall53, |s|) && k < |s| && forall i :: 0 <= i < |s| ==> s[i] == 0
    ensures Line(LeGall53, Synthesis, halve, s)[k] == 0
  {
    hide Synth;
    PassAt(LeGall53, halve, s, k);
    if k % 2 == 0 {
      LeGallKernels.EvenSample(s, k);
    } else {
      LeGallKernels.OddSample(s, k);
      LeGallKernels.EvenSample(s, k - 1);
      if k + 1 < |s| {
        LeGallKernels.EvenSample(s, k + 1);
      }
    }
  }

  lemma ColumnsLeft(p: Plane, h: nat, w: nat, s: nat)
    requires Rect(p, h, w) && LevelOk(LeGall53, h, w, s) && Blank(p, h, w, s)
    ensures VPass(LeGall53, Synthesis, p, h, w, s) == p
  {
    hide Line, VPass;
    forall y: nat, x: nat | y < h && x < w ensures VAt(LeGall53, Synthesis, p, h, w, s, y, x) == p[y][x] {
      if OnLattice(s, y, x) {
        LatticeIndex(s, y, h);
        var c := Column(p, h, w, x, s);
        forall k: nat | k < |c| ensures c[k] == 0 {
          LatticePoint(s, k, h);
          assert OnLattice(s, k * s, x);
        }
        ZeroLine(c, false, y / s);
      }
    }
    SamePlane(VPass(LeGall53, Synthesis, p, h, w, s), p, h, w);
  }

  lemma RowsLeft(p: Plane, h: nat, w: nat, s: nat)
    requires Rect(p, h, w) && LevelOk(LeGall53, h, w, s) && Blank(p, h, w, s)
    ensures HPass(LeGall53, Synthesis, p, h, w, s) == p
  {
    hide Line, HPass;
    forall y: nat, x: nat | y < h && x < w ensures HAt(LeGall53, Synthesis, p, h, w, s, y, x) == p[y][x] {
      if OnLattice(s, y, x) {
        LatticeIndex(s, x, w);
        var c := Row(p, h, w, y, s);
        forall k: nat | k < |c| ensures c[k] == 0 {
          LatticePoint(s, k, w);
          assert OnLattice(s, y, k * s);
        }
        ZeroLine(c, true, x / s);
      }
    }
    SamePlane(HPass(LeGall53, Synthesis, p, h, w, s), p, h, w);
  }

  /** A level leaves a plane alone that is zero on its lattice. */
  lemma LevelLeft(p: Plane, h: nat, w: nat, s: nat)
    requires Rect(p, h, w) && LevelOk(LeGall53, h, w, s) && Blank(p, h, w, s)
    ensures SynthLevel(LeGall53, p, h, w, s) == p
  {
    ColumnsLeft(p, h, w, s);
    RowsLeft(p, h, w, s);
  }

  lemma EvenIsCoarser(y: nat, s: nat)
    requires s > 0 && y % (2 * s) == 0
    ensures y % 2 == 0
  {
    var q := y / (2 * s);
    assert y == 2 * s * q == 2 * (s * q);
  }

  /** Only the last level reaches a plane that is zero where both coordinates are even. */
  lemma {:induction false} OnlyLastLevel(p: Plane, h: nat, w: nat, depth: nat)
    requires Rect(p, h, w) && depth > 0 && LevelsOk(LeGall53, h, w, depth) && Blank(p, h, w, 2)
    ensures LevelOk(LeGall53, h, w, 1)
    ensures Reconstruct(LeGall53, p, h, w, depth) == SynthLevel(LeGall53, p, h, w, 1)
    decreases depth
  {
    hide SynthLevel, LevelOk;
    if depth > 1 {
      var s := Pow2(depth - 1);
      forall y: nat, x: nat | y < h && x < w && OnLattice(s, y, x) ensures p[y][x] == 0 {
        EvenIsCoarser(y, Pow2(depth - 2));
        EvenIsCoarser(x, Pow2(depth - 2));
        assert OnLattice(2, y, x);
      }
      LevelLeft(p, h, w, s);
      OnlyLastLevel(p, h, w, depth - 1);
    } else {
      assert Pow2(0) == 1;
    }
  }

  lemma ZeroStays(p: Plane, h: nat, w: nat, depth: nat)
    requires Rect(p, h, w) && depth > 0 && LevelsOk(LeGall53, h, w, depth) && Blank(p, h, w, 1)
    ensures Reconstruct(LeGall53, p, h, w, depth) == p
  {
    forall y: nat, x: nat | y < h && x < w && OnLattice(2, y, x) ensures p[y][x] == 0 {
      assert OnLattice(1, y, x);
    }
    OnlyLastLevel(p, h, w, depth);
    LevelLeft(p, h, w, 1);
  }

  // ----- what the last level makes of one coefficient

  lemma EvenHalved(s: seq<int>, k: nat, halve: bool)
    requires LineOk(LeGall53, |s|) && k < |s| && k % 2 == 0
    ensures var e := s[k] - ((if k == 0 then s[1] else s[k - 1]) + s[k + 1] + 2) / 4;
            Line(LeGall53, Synthesis, halve, s)[k] == if halve then (e + 1) / 2 else e
  {
    hide Synth;
    PassAt(LeGall53, halve, s, k);
    LeGallKernels.EvenSample(s, k);
  }

  /** An even sample of the first row, right of the coefficient. */
  lemma RightOfSpot(h: nat, w: nat, x: nat)
    requires LevelOk(LeGall53, h, w, 1) && 2 <= x < w && x % 2 == 0
    ensures SynthLevel(LeGall53, Spot(h, w, 0, x - 1), h, w, 1)[0][x] == -1
  {
    hide Line, VPass, HPass, Spot;
    var p := Spot(h, w, 0, x - 1);
    var q := VPass(LeGall53, Synthesis, p, h, w, 1);
    forall k: nat | k < w ensures q[0][k] == p[0][k] {
      EvenHalved(Column(p, h, w, k, 1), 0, false);
      assert q[0][k] == VAt(LeGall53, Synthesis, p, h, w, 1, 0, k);
    }
    EvenHalved(Row(q, h, w, 0, 1), x, true);
    assert HAt(LeGall53, Synthesis, q, h, w, 1, 0, x) == -1;
  }

  /** An even sample of the first column, below it. */
  lemma BelowSpot(h: nat, w: nat, y: nat)
    requires LevelOk(LeGall53, h, w, 1) && 2 <= y < h && y % 2 == 0
    ensures SynthLevel(LeGall53, Spot(h, w, y - 1, 0), h, w, 1)[y][0] == -1
  {
    hide Line, VPass, HPass, Spot;
    var p := Spot(h, w, y - 1, 0);
    var q := VPass(LeGall53, Synthesis, p, h, w, 1);
    forall k: nat | k < w ensures q[y][k] == if k == 0 then -2 else 0 {
      EvenHalved(Column(p, h, w, k, 1), y, false);
      assert q[y][k] == VAt(LeGall53, Synthesis, p, h, w, 1, y, k);
    }
    EvenHalved(Row(q, h, w, y, 1), 0, true);
    assert HAt(LeGall53, Synthesis, q, h, w, 1, y, 0) == -1;
  }

  /** An even sample of the first row with nothing around it is halved. */
  lemma LoneSample(p: Plane, h: nat, w: nat, x: nat)
    requires Rect(p, h, w) && LevelOk(LeGall53, h, w, 1) && 2 <= x < w && x % 2 == 0
    requires p[0][x - 1] == p[0][x + 1] == p[1][x - 1] == p[1][x] == p[1][x + 1] == 0
    ensures SynthLevel(LeGall53, p, h, w, 1)[0][x] == (p[0][x] + 1) / 2
  {
    hide Line, VPass, HPass;
    var q := VPass(LeGall53, Synthesis, p, h, w, 1);
    forall k: nat | x - 1 <= k <= x + 1 ensures q[0][k] == p[0][k] {
      EvenHalved(Column(p, h, w, k, 1), 0, false);
      assert q[0][k] == VAt(LeGall53, Synthesis, p, h, w, 1, 0, k);
    }
    EvenHalved(Row(q, h, w, 0, 1), x, true);
    assert HAt(LeGall53, Synthesis, q, h, w, 1, 0, x) == (p[0][x] + 1) / 2;
  }

  /** The first sample of an even row takes half of what stands below it in a plane that is zero but there. */
  lemma AboveRow(p: Plane, h: nat, w: nat, y: nat)
    requires Rect(p, h, w) && LevelOk(LeGall53, h, w, 1) && 2 <= y && y + 1 < h && y % 2 == 0
    requires p[y - 1][0] == p[y - 1][1] == p[y][0] == p[y][1] == p[y + 1][1] == 0
    ensures SynthLevel(LeGall53, p, h, w, 1)[y][0] == (1 - (p[y + 1][0] + 2) / 4) / 2
  {
    hide Line, VPass, HPass;
    var q := VPass(LeGall53, Synthesis, p, h, w, 1);
    forall k: nat | k < 2 ensures q[y][k] == if k == 0 then -((p[y + 1][0] + 2) / 4) else 0 {
      EvenHalved(Column(p, h, w, k, 1), y, false);
      assert q[y][k] == VAt(LeGall53, Synthesis, p, h, w, 1, y, k);
    }
    EvenHalved(Row(q, h, w, y, 1), 0, true);
    assert HAt(LeGall53, Synthesis, q, h, w, 1, y, 0) == (1 - (p[y + 1][0] + 2) / 4) / 2;
  }

  // ----- the seams of a grid

  /** A job delivers the whole picture's sample at (i, j). */
  ghost predicate ExactAt(g: Grid, depth: nat, p: Plane, jy: nat, jx: nat, i: nat, j: nat)
    requires g.Valid() && Sliced(g.ay, depth) && Sliced(g.ax, depth) && jy < g.ay.jobs && jx < g.ax.jobs
    requires Rect(p, g.ay.slices * g.ay.size, g.ax.slices * g.ax.size)
  {
    var v, h, o := SpanOf(g.ay, jy, depth), SpanOf(g.ax, jx, depth), PartOf(g, jy, jx);
    var y, x := i - o.toY + o.y, j - o.toX + o.x;
    && v.Valid() && h.Valid()
    && LevelsOk(LeGall53, v.Len(), h.Len(), depth) && LevelsOk(LeGall53, v.side, h.side, depth)
    && 0 <= y < v.Len() && 0 <= x < h.Len() && i < v.side && j < h.side
    && Reconstruct(LeGall53, Tiles.Window(p, v, h), v.Len(), h.Len(), depth)[y][x]
       == Reconstruct(LeGall53, p, v.side, h.side, depth)[i][j]
  }

  /** Whatever the coefficients, every job delivers the whole picture's samples. */
  ghost predicate Seamless(g: Grid, depth: nat)
    requires g.Valid() && Sliced(g.ay, depth) && Sliced(g.ax, depth)
  {
    forall p: Plane, jy: nat, jx: nat, i: nat, j: nat |
      Rect(p, g.ay.slices * g.ay.size, g.ax.slices * g.ax.size) && jy < g.ay.jobs && jx < g.ax.jobs
      && Delivering(g, jy, jx, i, j) :: ExactAt(g, depth, p, jy, jx, i, j)
  }

  predicate Overlapping(a: Axis) {
    a.jobs == 1 || a.overlap > 0
  }

  lemma OverlapsAreSeamless(g: Grid, depth: nat)
    requires g.Valid() && Cut(g.ay, depth) && Cut(g.ax, depth)
    ensures Seamless(g, depth)
  {
    hide Axis.Fits, Axis.Start, Axis.Count, Axis.Own, Axis.PerJob, Covered, LevelsOk, Delivering, SpanOf, PartOf;
    forall p: Plane, jy: nat, jx: nat, i: nat, j: nat |
      && Rect(p, g.ay.slices * g.ay.size, g.ax.slices * g.ax.size) && jy < g.ay.jobs && jx < g.ax.jobs
      && Delivering(g, jy, jx, i, j)
      ensures ExactAt(g, depth, p, jy, jx, i, j)
    {
      InPicture(g, jy, jx, i, j);
      SpanOk(g.ay, jy, depth);
      SpanOk(g.ax, jx, depth);
      SpanDeep(g, jy, jx, depth);
      TilePixel(g, depth, p, jy, jx, i, j);
    }
  }

  lemma InPicture(g: Grid, jy: nat, jx: nat, i: nat, j: nat)
    requires g.Valid() && Covered(g.ay) && Covered(g.ax) && jy < g.ay.jobs && jx < g.ax.jobs
             && Delivering(g, jy, jx, i, j)
    ensures i < g.ay.slices * g.ay.size && j < g.ax.slices * g.ax.size
  {
    hide Axis.Own, Axis.PerJob, OutputSize, Target;
    DeliveredOnce(g.ay, jy, jy, i);
    DeliveredOnce(g.ax, jx, jx, j);
  }

  /** The second job's first sample: an even one, in the picture and in the job's window at its first place. */
  lemma SecondJob(a: Axis, depth: nat)
    requires Sliced(a, depth) && depth > 0 && a.jobs > 1 && a.overlap == 0
    ensures 2 <= Target(a, 1) < a.slices * a.size && Target(a, 1) % 2 == 0
    ensures Delivers(a, 1, Target(a, 1)) && SpanOf(a, 1, depth).from == Target(a, 1)
  {
    Tops(a, 0);
    OutputEnds(a, 1);
    OutputEnds(a, 0);
    Offset(a, 1, depth);
    Tops(a, 1);
    MultipleOfMultiple(a.First(1), a.size, Pow2(depth));
    EvenIsCoarser(Target(a, 1), Pow2(depth - 1));
    hide OutputSize, SpanOf, Axis.PerJob, Axis.Fits;
  }

  lemma FirstJob(a: Axis, depth: nat)
    requires Sliced(a, depth)
    ensures Delivers(a, 0, 0) && SpanOf(a, 0, depth).from == 0 == Target(a, 0)
  {
    OutputEnds(a, 0);
    Offset(a, 0, depth);
    hide OutputSize, SpanOf, Axis.PerJob, Axis.Fits;
  }

  /** A job whose window begins with what it delivers, and begins with another sample than the picture's. */
  lemma Misses(g: Grid, depth: nat, p: Plane, jy: nat, jx: nat, i: nat, j: nat)
    requires g.Valid() && Sliced(g.ay, depth) && Sliced(g.ax, depth) && jy < g.ay.jobs && jx < g.ax.jobs
    requires Rect(p, g.ay.slices * g.ay.size, g.ax.slices * g.ax.size)
    requires var v, h := SpanOf(g.ay, jy, depth), SpanOf(g.ax, jx, depth);
             && v.Valid() && h.Valid() && v.from == i == Target(g.ay, jy) && h.from == j == Target(g.ax, jx)
             && LevelsOk(LeGall53, v.Len(), h.Len(), depth) && LevelsOk(LeGall53, v.side, h.side, depth)
             && i < v.side && j < h.side && Reconstruct(LeGall53, p, v.side, h.side, depth)[i][j]
                != Reconstruct(LeGall53, Tiles.Window(p, v, h), v.Len(), h.Len(), depth)[0][0]
    ensures !ExactAt(g, depth, p, jy, jx, i, j)
  {
    hide LevelsOk, Tiles.Window, Reconstruct, SpanOf, Target;
    Offset(g.ay, jy, depth);
    Offset(g.ax, jx, depth);
  }

  /** Without an overlap of its columns, the seam to the second job shows. */
  lemma ColumnSeam(g: Grid, depth: nat)
    requires g.Valid() && Sliced(g.ay, depth) && Sliced(g.ax, depth) && depth > 0 && g.ax.jobs > 1 && g.ax.overlap == 0
    ensures var x := Target(g.ax, 1);
            && Delivering(g, 0, 1, 0, x) && x > 0
            && !ExactAt(g, depth, Spot(g.ay.slices * g.ay.size, g.ax.slices * g.ax.size, 0, x - 1), 0, 1, 0, x)
  {
    hide Axis.Fits, Axis.Start, Axis.Count, Axis.Own, Axis.PerJob, Covered, LevelsOk, Delivers, OutputSize, Target;
    hide ExactAt, Spot, Reconstruct, Tiles.Window, SpanOf, LevelOk, SynthLevel, Tiles.Span.Aligned, Divides, Pow2;
    FirstJob(g.ay, depth);
    SecondJob(g.ax, depth);
    SpanOk(g.ay, 0, depth);
    SpanOk(g.ax, 1, depth);
    SpanDeep(g, 0, 1, depth);
    var v, h, x := SpanOf(g.ay, 0, depth), SpanOf(g.ax, 1, depth), Target(g.ax, 1);
    hide Tiles.Deep, Sliced;
    SpotShows(v, h, 0, x - 1, 0, x, depth);
    RightOfSpot(v.side, h.side, x);
    Misses(g, depth, Spot(v.side, h.side, 0, x - 1), 0, 1, 0, x);
  }

  lemma RowSeam(g: Grid, depth: nat)
    requires g.Valid() && Sliced(g.ay, depth) && Sliced(g.ax, depth) && depth > 0 && g.ay.jobs > 1 && g.ay.overlap == 0
    ensures var y := Target(g.ay, 1);
            && Delivering(g, 1, 0, y, 0) && y > 0
            && !ExactAt(g, depth, Spot(g.ay.slices * g.ay.size, g.ax.slices * g.ax.size, y - 1, 0), 1, 0, y, 0)
  {
    hide Axis.Fits, Axis.Start, Axis.Count, Axis.Own, Axis.PerJob, Covered, LevelsOk, Delivers, OutputSize, Target;
    hide ExactAt, Spot, Reconstruct, Tiles.Window, SpanOf, LevelOk, SynthLevel, Tiles.Span.Aligned, Divides, Pow2;
    FirstJob(g.ax, depth);
    SecondJob(g.ay, depth);
    SpanOk(g.ay, 1, depth);
    SpanOk(g.ax, 0, depth);
    SpanDeep(g, 1, 0, depth);
    var v, h, y := SpanOf(g.ay, 1, depth), SpanOf(g.ax, 0, depth), Target(g.ay, 1);
    hide Tiles.Deep, Sliced;
    SpotShows(v, h, y - 1, 0, y, 0, depth);
    BelowSpot(v.side, h.side, y);
    Misses(g, depth, Spot(v.side, h.side, y - 1, 0), 1, 0, y, 0);
  }

  /** A coefficient before the window's first sample is not in the window, and leaves it zero. */
  lemma SpotShows(v: Tiles.Span, h: Tiles.Span, y0: int, x0: int, y: nat, x: nat, depth: nat)
    requires Tiles.Deep(v, h, depth) && depth > 0 && (y0 < v.from || x0 < h.from) && (y0 % 2 == 1 || x0 % 2 == 1)
    requires v.from == y && h.from == x
    requires LevelsOk(LeGall53, v.Len(), h.Len(), depth) && LevelsOk(LeGall53, v.side, h.side, depth)
    ensures var p := Spot(v.side, h.side, y0, x0);
            && LevelOk(LeGall53, v.side, h.side, 1)
            && Reconstruct(LeGall53, Tiles.Window(p, v, h), v.Len(), h.Len(), depth)[0][0] == 0
            && Reconstruct(LeGall53, p, v.side, h.side, depth) == SynthLevel(LeGall53, p, v.side, h.side, 1)
  {
    hide LevelsOk, LevelOk, SynthLevel, Spot, Tiles.Window, Tiles.Span.Aligned;
    var p := Spot(v.side, h.side, y0, x0);
    var q := Tiles.Window(p, v, h);
    forall i: nat, j: nat | i < v.Len() && j < h.Len() ensures q[i][j] == 0 {
      WindowAt(p, v, h, i, j);
    }
    ZeroStays(q, v.Len(), h.Len(), depth);
    OnlyLastLevel(p, v.side, h.side, depth);
  }

  /** Every picture is delivered without seams exactly when the windows overlap wherever there are several. */
  lemma SeamlessExactly(g: Grid, depth: nat)
    requires g.Valid() && Sliced(g.ay, depth) && Sliced(g.ax, depth) && depth > 0
    ensures Seamless(g, depth) <==> Overlapping(g.ay) && Overlapping(g.ax)
  {
    hide ExactAt, Sliced, Spot, Delivering, Target;
    if Overlapping(g.ay) && Overlapping(g.ax) {
      OverlapsAreSeamless(g, depth);
    } else if g.ax.jobs > 1 && g.ax.overlap == 0 {
      ColumnSeam(g, depth);
    } else {
      RowSeam(g, depth);
    }
  }

  /** The overlap is 32 over the slice's side: none for slices wider than 32, of which four make a picture. */
  lemma WideSlicesShow(depth: nat)
    requires 0 < depth <= 4
    ensures var g := Grid(Axis(2, 2, 1, 16, 32), Axis(2, 2, 32 / 48, 48, 96));
            && g.Valid() && Sliced(g.ay, depth) && Sliced(g.ax, depth) && !Seamless(g, depth)
            && Delivering(g, 0, 1, 0, 48) && !ExactAt(g, depth, Spot(32, 96, 0, 47), 0, 1, 0, 48)
  {
    assert Pow2(4) == 16 && Pow2(3) == 8 && Pow2(2) == 4;
    var v, h := Axis(2, 2, 1, 16, 32), Axis(2, 2, 0, 48, 96);
    assert h.PerJob() == 1 && v.PerJob() == 1;
    hide ExactAt, Spot, Delivering;
    ColumnSeam(Grid(v, h), depth);
    SeamlessExactly(Grid(v, h), depth);
  }
}
