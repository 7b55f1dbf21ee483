/** Planes of samples and the passes of a transform level: the samples whose coordinates are both
    multiples of s form the lattice of the level, column by column and row by row. */
module Planes {
  import opened Lifting

  type Plane = seq<seq<int>>

  ghost predicate Rect(p: Plane, h: nat, w: nat) {
    |p| == h && forall y :: 0 <= y < h ==> |p[y]| == w
  }

  /** The lattice of spacing s has lines of n samples along a side. */
  predicate Divides(s: nat, side: nat) {
    s > 0 && side % s == 0
  }

  lemma LatticePoint(s: nat, k: nat, side: nat)
    requires Divides(s, side) && k < side / s
    ensures k * s < side && k * s % s == 0 && k * s / s == k
  {
    var n := side / s;
    assert side == n * s;
    assert (k + 1) * s <= n * s;
    MultipleDivides(k, s);
  }

  lemma Monotone(a: int, b: int, s: int)
    requires s > 0
    ensures a >= b ==> a * s >= b * s
  {
    if a >= b {
      assert (a - b) * s >= 0;
    }
  }

  /** Quotient and remainder are unique. */
  lemma DivUnique(a: int, q: int, r: int, s: int)
    requires s > 0 && a == q * s + r && 0 <= r < s
    ensures a / s == q && a % s == r
  {
    var d := a / s - q;
    assert d * s == a / s * s - q * s;
    assert a / s * s + a % s == a;
    Monotone(d, 1, s);
    Monotone(-1, d, s);
  }

  lemma MultipleDivides(k: int, s: int)
    requires s > 0
    ensures k * s % s == 0 && k * s / s == k
  {
    DivUnique(k * s, k, 0, s);
  }

  lemma SmallerFactor(a: int, b: int, s: int)
    requires s > 0 && a * s < b * s
    ensures a < b
  {
    Monotone(a, b, s);
  }

  lemma LatticeIndex(s: nat, y: nat, side: nat)
    requires Divides(s, side) && y < side && y % s == 0
    ensures y / s < side / s && y / s * s == y
  {
    assert y / s * s == y && side / s * s == side;
    SmallerFactor(y / s, side / s, s);
  }

  predicate OnLattice(s: nat, y: nat, x: nat)
    requires s > 0
  {
    y % s == 0 && x % s == 0
  }

  function ColumnSample(p: Plane, h: nat, w: nat, x: nat, s: nat, k: nat): (v: int)
    requires Rect(p, h, w) && Divides(s, h) && x < w && k < h / s
    ensures k * s < h && v == p[k * s][x]
  {
    LatticePoint(s, k, h);
    p[k * s][x]
  }

  function RowSample(p: Plane, h: nat, w: nat, y: nat, s: nat, k: nat): (v: int)
    requires Rect(p, h, w) && Divides(s, w) && y < h && k < w / s
    ensures k * s < w && v == p[y][k * s]
  {
    LatticePoint(s, k, w);
    p[y][k * s]
  }

  function Column(p: Plane, h: nat, w: nat, x: nat, s: nat): (c: seq<int>)
    requires Rect(p, h, w) && Divides(s, h) && x < w
    ensures |c| == h / s && forall k :: 0 <= k < |c| ==> k * s < h && c[k] == p[k * s][x]
  {
    seq(h / s, k requires 0 <= k < h / s => ColumnSample(p, h, w, x, s, k))
  }

  function Row(p: Plane, h: nat, w: nat, y: nat, s: nat): (r: seq<int>)
    requires Rect(p, h, w) && Divides(s, w) && y < h
    ensures |r| == w / s && forall k :: 0 <= k < |r| ==> k * s < w && r[k] == p[y][k * s]
  {
    seq(w / s, k requires 0 <= k < w / s => RowSample(p, h, w, y, s, k))
  }

  /** The lines of a level are long enough for the filter. */
  predicate LevelOk(f: Filter, h: nat, w: nat, s: nat) {
    Divides(s, h) && Divides(s, w) && LineOk(f, h / s) && LineOk(f, w / s)
  }

  datatype Direction = Synthesis | Analysis

  /** What one pass does to one line: horizontal synthesis also halves, horizontal analysis doubles first. */
  function Line(f: Filter, d: Direction, halve: bool, s: seq<int>): (r: seq<int>)
    requires LineOk(f, |s|)
    ensures |r| == |s|
  {
    if d == Synthesis then Pass(f, halve, s) else if halve then AnalyseH(f, s) else Analyse(f, s)
  }

  function VAt(f: Filter, d: Direction, p: Plane, h: nat, w: nat, s: nat, y: nat, x: nat): int
    requires Rect(p, h, w) && LevelOk(f, h, w, s) && y < h && x < w
  {
    if OnLattice(s, y, x) then LatticeIndex(s, y, h); Line(f, d, false, Column(p, h, w, x, s))[y / s] else p[y][x]
  }

  function HAt(f: Filter, d: Direction, p: Plane, h: nat, w: nat, s: nat, y: nat, x: nat): int
    requires Rect(p, h, w) && LevelOk(f, h, w, s) && y < h && x < w
  {
    if OnLattice(s, y, x) then LatticeIndex(s, x, w); Line(f, d, true, Row(p, h, w, y, s))[x / s] else p[y][x]
  }

  function VPass(f: Filter, d: Direction, p: Plane, h: nat, w: nat, s: nat): (q: Plane)
    requires Rect(p, h, w) && LevelOk(f, h, w, s)
    ensures Rect(q, h, w)
    ensures forall y, x :: 0 <= y < h && 0 <= x < w ==> q[y][x] == VAt(f, d, p, h, w, s, y, x)
  {
    seq(h, y requires 0 <= y < h => seq(w, x requires 0 <= x < w => VAt(f, d, p, h, w, s, y, x)))
  }

  function HPass(f: Filter, d: Direction, p: Plane, h: nat, w: nat, s: nat): (q: Plane)
    requires Rect(p, h, w) && LevelOk(f, h, w, s)
    ensures Rect(q, h, w)
    ensures forall y, x :: 0 <= y < h && 0 <= x < w ==> q[y][x] == HAt(f, d, p, h, w, s, y, x)
  {
    seq(h, y requires 0 <= y < h => seq(w, x requires 0 <= x < w => HAt(f, d, p, h, w, s, y, x)))
  }

  lemma ColumnOfPass(f: Filter, d: Direction, p: Plane, h: nat, w: nat, s: nat, x: nat)
    requires Rect(p, h, w) && LevelOk(f, h, w, s) && x < w && x % s == 0
    ensures Column(VPass(f, d, p, h, w, s), h, w, x, s) == Line(f, d, false, Column(p, h, w, x, s))
  {
    hide Line, LineOk;
    var c := Column(VPass(f, d, p, h, w, s), h, w, x, s);
    forall k: nat | k < h / s ensures c[k] == Line(f, d, false, Column(p, h, w, x, s))[k] {
      LatticePoint(s, k, h);
    }
  }

  lemma RowOfPass(f: Filter, d: Direction, p: Plane, h: nat, w: nat, s: nat, y: nat)
    requires Rect(p, h, w) && LevelOk(f, h, w, s) && y < h && y % s == 0
    ensures Row(HPass(f, d, p, h, w, s), h, w, y, s) == Line(f, d, true, Row(p, h, w, y, s))
  {
    hide Line, LineOk;
    var c := Row(HPass(f, d, p, h, w, s), h, w, y, s);
    forall k: nat | k < w / s ensures c[k] == Line(f, d, true, Row(p, h, w, y, s))[k] {
      LatticePoint(s, k, w);
    }
  }

  lemma SamePlane(p: Plane, q: Plane, h: nat, w: nat)
    requires Rect(p, h, w) && Rect(q, h, w)
    requires forall y, x :: 0 <= y < h && 0 <= x < w ==> p[y][x] == q[y][x]
    ensures p == q
  {
    forall y | 0 <= y < h ensures p[y] == q[y] {}
  }

  lemma VInverse(f: Filter, p: Plane, h: nat, w: nat, s: nat)
    requires Rect(p, h, w) && LevelOk(f, h, w, s)
    ensures VPass(f, Synthesis, VPass(f, Analysis, p, h, w, s), h, w, s) == p
  {
    hide Line, LineOk, VPass;
    var q := VPass(f, Analysis, p, h, w, s);
    forall y: nat, x: nat | y < h && x < w ensures VAt(f, Synthesis, q, h, w, s, y, x) == p[y][x] {
      if OnLattice(s, y, x) {
        ColumnOfPass(f, Analysis, p, h, w, s, x);
        LineRestored(f, false, Column(p, h, w, x, s));
        LatticeIndex(s, y, h);
      }
    }
    SamePlane(VPass(f, Synthesis, q, h, w, s), p, h, w);
  }

  lemma HInverse(f: Filter, p: Plane, h: nat, w: nat, s: nat)
    requires Rect(p, h, w) && LevelOk(f, h, w, s)
    ensures HPass(f, Synthesis, HPass(f, Analysis, p, h, w, s), h, w, s) == p
  {
    hide Line, LineOk, HPass;
    var q := HPass(f, Analysis, p, h, w, s);
    forall y: nat, x: nat | y < h && x < w ensures HAt(f, Synthesis, q, h, w, s, y, x) == p[y][x] {
      if OnLattice(s, y, x) {
        RowOfPass(f, Analysis, p, h, w, s, y);
        LineRestored(f, true, Row(p, h, w, y, s));
        LatticeIndex(s, x, w);
      }
    }
    SamePlane(HPass(f, Synthesis, q, h, w, s), p, h, w);
  }

  lemma LineRestored(f: Filter, halve: bool, s: seq<int>)
    requires LineOk(f, |s|)
    ensures Line(f, Synthesis, halve, Line(f, Analysis, halve, s)) == s
  {
    hide Synth, Analyse, SynthH, AnalyseH;
    LineInverse(f, s);
    LineInverseH(f, s);
  }

  // ----- the levels of a picture, coarsest first

  function Pow2(j: nat): (r: nat)
    ensures r >= 1
  {
    if j == 0 then 1 else 2 * Pow2(j - 1)
  }

  predicate LevelsOk(f: Filter, h: nat, w: nat, depth: nat) {
    depth == 0 || (LevelOk(f, h, w, Pow2(depth - 1)) && LevelsOk(f, h, w, depth - 1))
  }

  /** One level: every column of its lattice, then every row. */
  function SynthLevel(f: Filter, p: Plane, h: nat, w: nat, s: nat): (q: Plane)
    requires Rect(p, h, w) && LevelOk(f, h, w, s)
    ensures Rect(q, h, w)
  {
    HPass(f, Synthesis, VPass(f, Synthesis, p, h, w, s), h, w, s)
  }

  /** A level of spacing 2^(depth-1), vertically then horizontally, and then the finer ones. */
  function Reconstruct(f: Filter, p: Plane, h: nat, w: nat, depth: nat): (q: Plane)
    requires Rect(p, h, w) && LevelsOk(f, h, w, depth)
    ensures Rect(q, h, w)
    decreases depth
  {
    if depth == 0 then p
    else
      var s := Pow2(depth - 1);
      Reconstruct(f, SynthLevel(f, p, h, w, s), h, w, depth - 1)
  }

  /** The coefficients of a picture: the finest level first, each pass taken back in the other order. */
  function Decompose(f: Filter, p: Plane, h: nat, w: nat, depth: nat): (q: Plane)
    requires Rect(p, h, w) && LevelsOk(f, h, w, depth)
    ensures Rect(q, h, w)
    decreases depth
  {
    if depth == 0 then p
    else
      var s := Pow2(depth - 1);
      VPass(f, Analysis, HPass(f, Analysis, Decompose(f, p, h, w, depth - 1), h, w, s), h, w, s)
  }

  /** Every integer picture is restored from its coefficients, whatever the filter and the depth. */
  lemma {:induction false} PerfectReconstruction(f: Filter, p: Plane, h: nat, w: nat, depth: nat)
    requires Rect(p, h, w) && LevelsOk(f, h, w, depth)
    ensures Reconstruct(f, Decompose(f, p, h, w, depth), h, w, depth) == p
    decreases depth
  {
    hide VPass, HPass, LevelOk;
    if depth > 0 {
      var s, q := Pow2(depth - 1), Decompose(f, p, h, w, depth - 1);
      HInverse(f, q, h, w, s);
      VInverse(f, HPass(f, Analysis, q, h, w, s), h, w, s);
      PerfectReconstruction(f, p, h, w, depth - 1);
    }
  }
}
