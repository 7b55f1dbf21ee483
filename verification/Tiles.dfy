/** Why a picture can be decoded in overlapping tiles with the 5/3 filter: a window that reaches far
    enough past the samples it must deliver reconstructs them as the whole picture does. */
module Tiles {
  import opened Lifting
  import opened Planes
  import LeGallKernels

  // ----- one line

  /** Samples [a, b) of the line, and the range [lo, hi] in which the result is wanted. The range keeps
      off an end of the window by two samples, unless that end is the end of the line. */
  ghost predicate Cut(n: nat, a: nat, b: nat, lo: nat, hi: nat) {
    && a < b <= n && n % 2 == 0 && a % 2 == 0 && b % 2 == 0
    && ((a == 0 && lo == 0) || (lo >= a + 2 && lo % 2 == 0))
    && ((b == n && hi == n - 1) || (hi + 2 <= b && hi % 2 == 0))
  }

  /** The window holds the line's odd samples, and its even ones in the range. */
  ghost predicate LineAgrees(whole: seq<int>, part: seq<int>, a: nat, b: nat, lo: nat, hi: nat)
    requires a <= b <= |whole| && |part| == b - a
  {
    forall k :: a <= k < b && (k % 2 == 1 || lo <= k <= hi) ==> part[k - a] == whole[k]
  }

  lemma EvenOfWindow(whole: seq<int>, part: seq<int>, a: nat, b: nat, lo: nat, hi: nat, k: nat)
    requires Cut(|whole|, a, b, lo, hi) && |part| == b - a && LineAgrees(whole, part, a, b, lo, hi)
    requires lo <= k <= hi && k % 2 == 0
    ensures a <= k < b && Synth(LeGall53, part)[k - a] == Synth(LeGall53, whole)[k]
  {
    hide Synth;
    LeGallKernels.EvenSample(whole, k);
    LeGallKernels.EvenSample(part, k - a);
    assert part[k - a] == whole[k] && part[k + 1 - a] == whole[k + 1];
    if k > a {
      assert part[k - 1 - a] == whole[k - 1];
    }
  }

  lemma OddOfWindow(whole: seq<int>, part: seq<int>, a: nat, b: nat, lo: nat, hi: nat, k: nat)
    requires Cut(|whole|, a, b, lo, hi) && |part| == b - a && LineAgrees(whole, part, a, b, lo, hi)
    requires lo <= k <= hi && k % 2 == 1
    ensures a <= k < b && Synth(LeGall53, part)[k - a] == Synth(LeGall53, whole)[k]
  {
    hide Synth;
    LeGallKernels.OddSample(whole, k);
    LeGallKernels.OddSample(part, k - a);
    assert part[k - a] == whole[k];
    EvenOfWindow(whole, part, a, b, lo, hi, k - 1);
    if k + 1 < |whole| {
      EvenOfWindow(whole, part, a, b, lo, hi, k + 1);
    }
  }

  /** On the wanted range the window's line and the whole line synthesise to the same samples. */
  lemma LineTile(whole: seq<int>, part: seq<int>, a: nat, b: nat, lo: nat, hi: nat, halve: bool, k: nat)
    requires Cut(|whole|, a, b, lo, hi) && |part| == b - a && LineAgrees(whole, part, a, b, lo, hi)
    requires lo <= k <= hi
    ensures a <= k < b
    ensures Line(LeGall53, Synthesis, halve, part)[k - a] == Line(LeGall53, Synthesis, halve, whole)[k]
  {
    hide Synth, Pass;
    if k % 2 == 0 {
      EvenOfWindow(whole, part, a, b, lo, hi, k);
    } else {
      OddOfWindow(whole, part, a, b, lo, hi, k);
    }
    PassAt(LeGall53, halve, whole, k);
    PassAt(LeGall53, halve, part, k - a);
  }

  // ----- a side of the window, in samples of the picture

  /** The number of a coordinate among the points of the lattice. */
  function Index(y: int, s: nat): (k: int)
    requires s > 0
    ensures y >= 0 ==> k >= 0
  {
    y / s
  }

  /** [from, to) of a side of the picture; margin samples at an inner end are not delivered. */
  datatype Span = Span(from: nat, to: nat, side: nat, margin: nat) {
    ghost predicate Valid() {
      margin > 0 && from < to <= side && Aligned()
    }

    predicate Aligned()
      requires margin > 0
    {
      Divides(margin, from) && Divides(margin, to) && Divides(margin, side)
    }

    function Len(): nat
      requires Valid()
    {
      to - from
    }

    predicate Has(y: int) {
      from <= y < to
    }

    /** The part on which the window delivers the picture's samples. */
    predicate Safe(y: int) {
      (if from == 0 then 0 else from + margin) <= y && y <= if to == side then side - 1 else to - margin
    }

    /** The ends of the window are even points of the lattice of spacing s. */
    predicate Level(s: nat) {
      s > 0 && Divides(2 * s, margin)
    }

    /** The safe part, counted in points of the lattice. */
    function Lo(s: nat): nat
      requires s > 0
    {
      if from == 0 then 0 else Index(from + margin, s)
    }

    function Hi(s: nat): int
      requires s > 0
    {
      if to == side then Index(side, s) - 1 else Index(to - margin, s)
    }
  }

  lemma ShiftByMultiple(y: nat, base: nat, s: nat)
    requires s > 0 && base % s == 0 && base <= y
    ensures (y - base) % s == y % s && (y - base) / s == y / s - base / s
  {
    assert y - base == (y / s - base / s) * s + y % s;
    DivUnique(y - base, y / s - base / s, y % s, s);
  }

  lemma Parity(y: nat, s: nat)
    requires s > 0 && y % s == 0
    ensures y % (2 * s) == 0 <==> y / s % 2 == 0
  {
    var q := y / s;
    assert y == q * s;
    assert q / 2 * (2 * s) == q / 2 * 2 * s;
    assert q % 2 * s == q * s - q / 2 * 2 * s;
    DivUnique(y, q / 2, q % 2 * s, 2 * s);
  }

  lemma MultipleOfPart(y: nat, s: nat, m: nat)
    requires s > 0 && m > 0 && m % s == 0 && y % m == 0
    ensures y % s == 0
  {
    assert y == y / m * m == y / m * (m / s * s) == (y / m * (m / s)) * s;
    DivUnique(y, y / m * (m / s), 0, s);
  }

  lemma Quotient(y: nat, s: nat)
    requires Divides(s, y)
    ensures Index(y, s) * s == y && (y > 0 ==> y >= s)
  {
    var q := y / s;
    assert y == q * s;
    Monotone(q, 1, s);
  }

  /** Points of the lattice are ordered and spaced as their numbers are. */
  lemma Spaced(y: nat, z: nat, d: int, s: nat)
    requires Divides(s, y) && Divides(s, z)
    ensures y - z >= d * s <==> Index(y, s) - Index(z, s) >= d
  {
    Quotient(y, s);
    Quotient(z, s);
    var j, k := Index(y, s), Index(z, s);
    assert y - z == (j - k) * s;
    Monotone(j - k, d, s);
    Monotone(d - 1, j - k, s);
    assert d * s == (d - 1) * s + s;
  }

  lemma FinerLattice(s: nat, y: nat)
    requires s > 0
    ensures Divides(2 * s, y) <==> Divides(s, y) && Index(y, s) % 2 == 0
  {
    if Divides(2 * s, y) {
      MultipleDivides(2, s);
      MultipleOfPart(y, s, 2 * s);
      Parity(y, s);
    }
    if Divides(s, y) {
      Parity(y, s);
    }
  }

  /** Whatever the margin divides is an even point of the lattice. */
  lemma EvenIndex(v: Span, s: nat, y: nat)
    requires v.Level(s) && v.margin > 0 && Divides(v.margin, y)
    ensures Divides(s, y) && Index(y, s) % 2 == 0
  {
    MultipleOfPart(y, 2 * s, v.margin);
    FinerLattice(s, y);
  }

  lemma Inner(v: Span, s: nat, y: nat)
    requires v.Valid() && v.Level(s) && v.from <= y
    ensures Divides(s, y - v.from) <==> Divides(s, y)
    ensures Index(y - v.from, s) == Index(y, s) - Index(v.from, s)
  {
    EvenIndex(v, s, v.from);
    ShiftByMultiple(y, v.from, s);
  }

  lemma Ends(v: Span, s: nat)
    requires v.Valid() && v.Level(s)
    ensures Divides(s, v.from) && Index(v.from, s) % 2 == 0
    ensures Divides(s, v.to) && Index(v.to, s) % 2 == 0
    ensures Divides(s, v.side) && Index(v.side, s) % 2 == 0
    ensures v.margin >= 2 * s
    ensures Index(v.from, s) < Index(v.to, s) <= Index(v.side, s)
    ensures Divides(s, v.Len()) && Index(v.Len(), s) == Index(v.to, s) - Index(v.from, s)
  {
    hide Divides, v.Level, Index;
    EvenIndex(v, s, v.from);
    EvenIndex(v, s, v.to);
    EvenIndex(v, s, v.side);
    LevelMargin(v, s);
    Inner(v, s, v.to);
    Spaced(v.from, v.to, 0, s);
    Spaced(v.side, v.to, 0, s);
  }

  lemma LevelMargin(v: Span, s: nat)
    requires v.Valid() && v.Level(s)
    ensures s > 0 && v.margin >= 2 * s
  {
    Quotient(v.margin, 2 * s);
  }

  lemma OneMargin(v: Span)
    requires v.Valid()
    ensures Divides(v.margin, v.from + v.margin)
    ensures v.to >= v.margin && Divides(v.margin, v.to - v.margin)
  {
    Quotient(v.to, v.margin);
    DivUnique(v.from + v.margin, v.from / v.margin + 1, 0, v.margin);
    DivUnique(v.to - v.margin, v.to / v.margin - 1, 0, v.margin);
  }

  lemma SafeEnds(v: Span, s: nat)
    requires v.Valid() && v.Level(s)
    ensures v.to >= v.margin >= 2 * s
    ensures Divides(s, v.from + v.margin) && Index(v.from + v.margin, s) % 2 == 0
    ensures Divides(s, v.to - v.margin) && Index(v.to - v.margin, s) % 2 == 0
  {
    hide Divides, v.Level, Index;
    LevelMargin(v, s);
    OneMargin(v);
    EvenIndex(v, s, v.from + v.margin);
    EvenIndex(v, s, v.to - v.margin);
  }

  lemma Cuts(v: Span, s: nat)
    requires v.Valid() && v.Level(s)
    ensures v.Hi(s) >= 0 && Cut(Index(v.side, s), Index(v.from, s), Index(v.to, s), v.Lo(s), v.Hi(s))
  {
    hide Divides, v.Level, Index;
    Ends(v, s);
    SafeEnds(v, s);
    Spaced(v.from + v.margin, v.from, 2, s);
    Spaced(v.to, v.to - v.margin, 2, s);
  }

  /** A lattice point of the window is safe exactly when its number is in the wanted range. */
  lemma SafeIndex(v: Span, s: nat, y: nat)
    requires v.Valid() && v.Level(s) && Divides(s, y)
    ensures v.Safe(y) <==> v.Lo(s) <= Index(y, s) <= v.Hi(s)
    ensures v.Has(y) <==> Index(v.from, s) <= Index(y, s) < Index(v.to, s)
  {
    hide Divides, v.Level, Index;
    Ends(v, s);
    SafeEnds(v, s);
    Spaced(y, v.from + v.margin, 0, s);
    Spaced(v.to - v.margin, y, 0, s);
    Spaced(y, v.side, 0, s);
    Spaced(y, v.from, 0, s);
    Spaced(y, v.to, 0, s);
  }

  lemma LatticeSample(v: Span, s: nat, k: nat)
    requires v.Valid() && v.Level(s) && Index(v.from, s) <= k < Index(v.to, s)
    ensures v.Has(k * s) && Divides(s, k * s) && Index(k * s, s) == k
    ensures (k - Index(v.from, s)) * s == k * s - v.from
    ensures Divides(2 * s, k * s) <==> k % 2 == 0
    ensures v.Safe(k * s) <==> v.Lo(s) <= k <= v.Hi(s)
  {
    hide v.Level, v.Safe, v.Has;
    LevelMargin(v, s);
    EvenIndex(v, s, v.from);
    Quotient(v.from, s);
    MultipleDivides(k, s);
    FinerLattice(s, k * s);
    SafeIndex(v, s, k * s);
  }

  lemma LevelLengths(v: Span, s: nat)
    requires v.Valid() && v.Level(s)
    ensures Divides(s, v.side) && Divides(s, v.Len())
    ensures LineOk(LeGall53, v.side / s) && LineOk(LeGall53, v.Len() / s)
  {
    hide v.Level, v.Aligned, Divides, Index;
    LevelMargin(v, s);
    Ends(v, s);
    EvenLength(v.side, s);
    EvenLength(v.Len(), s);
  }

  lemma EvenLength(side: nat, s: nat)
    requires s > 0
    ensures Index(side, s) % 2 == 0 && Index(side, s) > 0 ==> LineOk(LeGall53, side / s)
  {}

  /** The coordinate is an odd one of the lattice, or off it, or safe. */
  predicate SafeOrOdd(v: Span, s: nat, y: nat)
    requires s > 0
  {
    Divides(2 * s, y) ==> v.Safe(y)
  }

  /** A line of the lattice, in the picture and in the window. */
  ghost predicate Lines(whole: seq<int>, part: seq<int>, v: Span, s: nat) {
    v.Valid() && v.Level(s) && |whole| == Index(v.side, s) && |part| == Index(v.Len(), s)
  }

  ghost predicate SamePoint(whole: seq<int>, part: seq<int>, v: Span, s: nat, y: int)
    requires s > 0
  {
    var k := Index(y, s);
    var j := k - Index(v.from, s);
    0 <= k < |whole| && 0 <= j < |part| && part[j] == whole[k]
  }

  lemma SpanAgrees(whole: seq<int>, part: seq<int>, v: Span, s: nat)
    requires Lines(whole, part, v, s)
    requires forall y: nat :: v.Has(y) && Divides(s, y) && SafeOrOdd(v, s, y) ==> SamePoint(whole, part, v, s, y)
    ensures var a, b := Index(v.from, s), Index(v.to, s);
            0 <= a <= b <= |whole| && |part| == b - a
            && v.Hi(s) >= 0 && LineAgrees(whole, part, a, b, v.Lo(s), v.Hi(s))
  {
    hide v.Level, v.Safe, v.Aligned, Index, v.Lo, v.Hi;
    Ends(v, s);
    Cuts(v, s);
    var a, b, lo, hi := Index(v.from, s), Index(v.to, s), v.Lo(s), v.Hi(s);
    forall k | a <= k < b && (k % 2 == 1 || lo <= k <= hi) ensures part[k - a] == whole[k] {
      LatticeSample(v, s, k);
      assert SamePoint(whole, part, v, s, k * s);
    }
  }

  lemma CutsInside(v: Span, s: nat)
    requires v.Valid() && v.Level(s)
    ensures 0 <= Index(v.from, s) < Index(v.to, s) <= Index(v.side, s) && v.Lo(s) >= 0 && v.Hi(s) >= 0
  {
    hide v.Level, v.Aligned, Index;
    Cuts(v, s);
    Ends(v, s);
  }

  /** A window's line synthesises every safe sample as the picture's line does. */
  lemma SpanTile(whole: seq<int>, part: seq<int>, v: Span, s: nat, halve: bool, y: nat)
    requires Lines(whole, part, v, s)
    requires forall y: nat :: v.Has(y) && Divides(s, y) && SafeOrOdd(v, s, y) ==> SamePoint(whole, part, v, s, y)
    requires v.Has(y) && v.Safe(y) && Divides(s, y)
    ensures LineOk(LeGall53, |whole|) && LineOk(LeGall53, |part|)
    ensures SamePoint(Line(LeGall53, Synthesis, halve, whole), Line(LeGall53, Synthesis, halve, part), v, s, y)
  {
    hide v.Level, v.Aligned, v.Has, v.Safe, Index, v.Lo, v.Hi, Line, SafeOrOdd, LineAgrees, Cut, Divides;
    LevelMargin(v, s);
    CutsInside(v, s);
    Ends(v, s);
    Cuts(v, s);
    SafeIndex(v, s, y);
    SpanAgrees(whole, part, v, s);
    LineTile(whole, part, Index(v.from, s), Index(v.to, s), v.Lo(s), v.Hi(s), halve, Index(y, s));
  }

  // ----- a window of the picture

  /** The window as a plane of its own. */
  function Window(p: Plane, v: Span, h: Span): (q: Plane)
    requires v.Valid() && h.Valid() && Rect(p, v.side, h.side)
    ensures Rect(q, v.Len(), h.Len())
    ensures forall y, x :: v.Has(y) && h.Has(x) ==> q[y - v.from][x - h.from] == p[y][x]
  {
    seq(v.Len(), y requires 0 <= y < v.Len() => p[v.from + y][h.from..h.to])
  }

  ghost predicate Shapes(p: Plane, q: Plane, v: Span, h: Span) {
    v.Valid() && h.Valid() && Rect(p, v.side, h.side) && Rect(q, v.Len(), h.Len())
  }

  ghost predicate Same(p: Plane, q: Plane, v: Span, h: Span, y: int, x: int)
    requires Shapes(p, q, v, h) && v.Has(y) && h.Has(x)
  {
    q[y - v.from][x - h.from] == p[y][x]
  }

  /** Only a sample of the lattice of spacing s may differ, and only near the window's border. */
  ghost predicate Agree(p: Plane, q: Plane, v: Span, h: Span, s: nat)
    requires Shapes(p, q, v, h) && s > 0
  {
    forall y: nat, x: nat :: v.Has(y) && h.Has(x) && (OnLattice(s, y, x) ==> v.Safe(y) && h.Safe(x)) ==>
        Same(p, q, v, h, y, x)
  }

  /** After the vertical pass of a level, the odd columns of its lattice agree right up to the sides. */
  ghost predicate AgreeMidway(p: Plane, q: Plane, v: Span, h: Span, s: nat)
    requires Shapes(p, q, v, h) && s > 0
  {
    forall y: nat, x: nat :: v.Has(y) && h.Has(x) && (OnLattice(s, y, x) ==> v.Safe(y) && SafeOrOdd(h, s, x))
      ==> Same(p, q, v, h, y, x)
  }

  ghost predicate Ready(p: Plane, q: Plane, v: Span, h: Span, s: nat) {
    Shapes(p, q, v, h) && v.Level(s) && h.Level(s)
  }

  lemma ColumnPoint(p: Plane, h: nat, w: nat, x: nat, s: nat, y: nat)
    requires Rect(p, h, w) && Divides(s, h) && x < w && y < h && Divides(s, y)
    ensures |Column(p, h, w, x, s)| == Index(h, s) && 0 <= Index(y, s) < Index(h, s)
    ensures Column(p, h, w, x, s)[Index(y, s)] == p[y][x]
  {
    LatticeIndex(s, y, h);
  }

  lemma RowPoint(p: Plane, h: nat, w: nat, y: nat, s: nat, x: nat)
    requires Rect(p, h, w) && Divides(s, w) && y < h && x < w && Divides(s, x)
    ensures |Row(p, h, w, y, s)| == Index(w, s) && 0 <= Index(x, s) < Index(w, s)
    ensures Row(p, h, w, y, s)[Index(x, s)] == p[y][x]
  {
    LatticeIndex(s, x, w);
  }

  lemma ColumnAgrees(p: Plane, q: Plane, v: Span, h: Span, s: nat, x: nat, y: nat)
    requires Ready(p, q, v, h, s) && Agree(p, q, v, h, 2 * s)
    requires h.Has(x) && SafeOrOdd(h, s, x) && v.Has(y) && Divides(s, y) && SafeOrOdd(v, s, y)
    requires Divides(s, v.side) && Divides(s, v.Len())
    ensures SamePoint(Column(p, v.side, h.side, x, s), Column(q, v.Len(), h.Len(), x - h.from, s), v, s, y)
  {
    hide v.Level, h.Level, h.Safe, v.Safe, v.Aligned, h.Aligned, Index, Column;
    Inner(v, s, y);
    ColumnPoint(p, v.side, h.side, x, s, y);
    ColumnPoint(q, v.Len(), h.Len(), x - h.from, s, y - v.from);
    assert Same(p, q, v, h, y, x);
  }

  lemma RowAgrees(p: Plane, q: Plane, v: Span, h: Span, s: nat, x: nat, y: nat)
    requires Ready(p, q, v, h, s) && AgreeMidway(p, q, v, h, s)
    requires v.Has(y) && (Divides(s, y) ==> v.Safe(y)) && h.Has(x) && Divides(s, x) && SafeOrOdd(h, s, x)
    requires Divides(s, h.side) && Divides(s, h.Len())
    ensures SamePoint(Row(p, v.side, h.side, y, s), Row(q, v.Len(), h.Len(), y - v.from, s), h, s, x)
  {
    hide v.Level, h.Level, h.Safe, v.Safe, v.Aligned, h.Aligned, Index, Row;
    Inner(h, s, x);
    RowPoint(p, v.side, h.side, y, s, x);
    RowPoint(q, v.Len(), h.Len(), y - v.from, s, x - h.from);
    assert Same(p, q, v, h, y, x);
  }

  lemma ColumnTile(p: Plane, q: Plane, v: Span, h: Span, s: nat, y: nat, x: nat)
    requires Ready(p, q, v, h, s) && Agree(p, q, v, h, 2 * s)
    requires LevelOk(LeGall53, v.side, h.side, s) && LevelOk(LeGall53, v.Len(), h.Len(), s)
    requires h.Has(x) && SafeOrOdd(h, s, x) && v.Has(y) && Divides(s, y) && v.Safe(y)
    ensures SamePoint(Line(LeGall53, Synthesis, false, Column(p, v.side, h.side, x, s)),
                      Line(LeGall53, Synthesis, false, Column(q, v.Len(), h.Len(), x - h.from, s)), v, s, y)
  {
    hide v.Level, h.Level, h.Safe, v.Safe, v.Aligned, h.Aligned, Line, LineOk, SafeOrOdd, SamePoint, Agree;
    var whole, part := Column(p, v.side, h.side, x, s), Column(q, v.Len(), h.Len(), x - h.from, s);
    forall y: nat | v.Has(y) && Divides(s, y) && SafeOrOdd(v, s, y) ensures SamePoint(whole, part, v, s, y) {
      ColumnAgrees(p, q, v, h, s, x, y);
    }
    SpanTile(whole, part, v, s, false, y);
  }

  lemma RowTile(p: Plane, q: Plane, v: Span, h: Span, s: nat, y: nat, x: nat)
    requires Ready(p, q, v, h, s) && AgreeMidway(p, q, v, h, s)
    requires LevelOk(LeGall53, v.side, h.side, s) && LevelOk(LeGall53, v.Len(), h.Len(), s)
    requires v.Has(y) && v.Safe(y) && h.Has(x) && Divides(s, x) && h.Safe(x)
    ensures SamePoint(Line(LeGall53, Synthesis, true, Row(p, v.side, h.side, y, s)),
                      Line(LeGall53, Synthesis, true, Row(q, v.Len(), h.Len(), y - v.from, s)), h, s, x)
  {
    hide v.Level, h.Level, h.Safe, v.Safe, v.Aligned, h.Aligned, Line, LineOk, SafeOrOdd, SamePoint, AgreeMidway;
    var whole, part := Row(p, v.side, h.side, y, s), Row(q, v.Len(), h.Len(), y - v.from, s);
    forall x: nat | h.Has(x) && Divides(s, x) && SafeOrOdd(h, s, x) ensures SamePoint(whole, part, h, s, x) {
      RowAgrees(p, q, v, h, s, x, y);
    }
    SpanTile(whole, part, h, s, true, x);
  }

  lemma VerticalSample(p: Plane, q: Plane, v: Span, h: Span, s: nat, y: nat, x: nat)
    requires Ready(p, q, v, h, s) && Agree(p, q, v, h, 2 * s)
    requires LevelOk(LeGall53, v.side, h.side, s) && LevelOk(LeGall53, v.Len(), h.Len(), s)
    requires v.Has(y) && h.Has(x) && (OnLattice(s, y, x) ==> v.Safe(y) && SafeOrOdd(h, s, x))
    ensures VAt(LeGall53, Synthesis, p, v.side, h.side, s, y, x)
         == VAt(LeGall53, Synthesis, q, v.Len(), h.Len(), s, y - v.from, x - h.from)
  {
    hide v.Level, h.Level, h.Safe, v.Safe, v.Aligned, h.Aligned, Column, Line, LineOk, SafeOrOdd;
    Inner(v, s, y);
    Inner(h, s, x);
    if OnLattice(s, y, x) {
      hide Agree;
      ColumnTile(p, q, v, h, s, y, x);
    } else {
      FinerLattice(s, y);
      FinerLattice(s, x);
      assert Same(p, q, v, h, y, x);
    }
  }

  lemma HorizontalSample(p: Plane, q: Plane, v: Span, h: Span, s: nat, y: nat, x: nat)
    requires Ready(p, q, v, h, s) && AgreeMidway(p, q, v, h, s)
    requires LevelOk(LeGall53, v.side, h.side, s) && LevelOk(LeGall53, v.Len(), h.Len(), s)
    requires v.Has(y) && h.Has(x) && (OnLattice(s, y, x) ==> v.Safe(y) && h.Safe(x))
    ensures HAt(LeGall53, Synthesis, p, v.side, h.side, s, y, x)
         == HAt(LeGall53, Synthesis, q, v.Len(), h.Len(), s, y - v.from, x - h.from)
  {
    hide v.Level, h.Level, h.Safe, v.Safe, v.Aligned, h.Aligned, Row, Line, LineOk, SafeOrOdd;
    Inner(v, s, y);
    Inner(h, s, x);
    if OnLattice(s, y, x) {
      hide AgreeMidway;
      RowTile(p, q, v, h, s, y, x);
    } else {
      assert Same(p, q, v, h, y, x);
    }
  }

  lemma VerticalTile(p: Plane, q: Plane, v: Span, h: Span, s: nat)
    requires Ready(p, q, v, h, s) && Agree(p, q, v, h, 2 * s)
    requires LevelOk(LeGall53, v.side, h.side, s) && LevelOk(LeGall53, v.Len(), h.Len(), s)
    ensures AgreeMidway(VPass(LeGall53, Synthesis, p, v.side, h.side, s),
                        VPass(LeGall53, Synthesis, q, v.Len(), h.Len(), s), v, h, s)
  {
    hide h.Safe, v.Safe, v.Aligned, h.Aligned, VPass, Agree, VAt, LevelOk, SafeOrOdd, OnLattice;
    var p', q' := VPass(LeGall53, Synthesis, p, v.side, h.side, s), VPass(LeGall53, Synthesis, q, v.Len(), h.Len(), s);
    forall y: nat, x: nat | v.Has(y) && h.Has(x) && (OnLattice(s, y, x) ==> v.Safe(y) && SafeOrOdd(h, s, x))
      ensures Same(p', q', v, h, y, x)
    {
      VerticalSample(p, q, v, h, s, y, x);
    }
  }

  lemma HorizontalTile(p: Plane, q: Plane, v: Span, h: Span, s: nat)
    requires Ready(p, q, v, h, s) && AgreeMidway(p, q, v, h, s)
    requires LevelOk(LeGall53, v.side, h.side, s) && LevelOk(LeGall53, v.Len(), h.Len(), s)
    ensures Agree(HPass(LeGall53, Synthesis, p, v.side, h.side, s),
                  HPass(LeGall53, Synthesis, q, v.Len(), h.Len(), s), v, h, s)
  {
    hide h.Safe, v.Safe, v.Aligned, h.Aligned, HPass, AgreeMidway, HAt, LevelOk, SafeOrOdd, OnLattice;
    var p', q' := HPass(LeGall53, Synthesis, p, v.side, h.side, s), HPass(LeGall53, Synthesis, q, v.Len(), h.Len(), s);
    forall y: nat, x: nat | v.Has(y) && h.Has(x) && (OnLattice(s, y, x) ==> v.Safe(y) && h.Safe(x))
      ensures Same(p', q', v, h, y, x)
    {
      HorizontalSample(p, q, v, h, s, y, x);
    }
  }

  lemma LevelTile(p: Plane, q: Plane, v: Span, h: Span, s: nat)
    requires Ready(p, q, v, h, s) && Agree(p, q, v, h, 2 * s)
    requires LevelOk(LeGall53, v.side, h.side, s) && LevelOk(LeGall53, v.Len(), h.Len(), s)
    ensures Agree(SynthLevel(LeGall53, p, v.side, h.side, s), SynthLevel(LeGall53, q, v.Len(), h.Len(), s), v, h, s)
  {
    hide v.Valid, h.Valid, VPass, HPass, Agree, AgreeMidway;
    VerticalTile(p, q, v, h, s);
    HorizontalTile(VPass(LeGall53, Synthesis, p, v.side, h.side, s), VPass(LeGall53, Synthesis, q, v.Len(), h.Len(), s),
                   v, h, s);
  }

  // ----- all levels

  /** The margin reaches past the coarsest level. */
  ghost predicate Deep(v: Span, h: Span, depth: nat) {
    v.Valid() && h.Valid() && Divides(Pow2(depth), v.margin) && Divides(Pow2(depth), h.margin)
  }

  lemma Shallower(v: Span, h: Span, depth: nat)
    requires Deep(v, h, depth) && depth > 0
    ensures Deep(v, h, depth - 1) && v.Level(Pow2(depth - 1)) && h.Level(Pow2(depth - 1))
  {
    FinerLattice(Pow2(depth - 1), v.margin);
    FinerLattice(Pow2(depth - 1), h.margin);
  }

  lemma {:induction false} DeepLevels(v: Span, h: Span, depth: nat)
    requires Deep(v, h, depth)
    ensures LevelsOk(LeGall53, v.side, h.side, depth) && LevelsOk(LeGall53, v.Len(), h.Len(), depth)
  {
    hide Divides, LineOk, v.Valid, h.Valid;
    if depth > 0 {
      Shallower(v, h, depth);
      DeepLevels(v, h, depth - 1);
      LevelLengths(v, Pow2(depth - 1));
      LevelLengths(h, Pow2(depth - 1));
    }
  }

  lemma {:induction false} AgreeingPlanes(p: Plane, q: Plane, v: Span, h: Span, depth: nat)
    requires Shapes(p, q, v, h) && Deep(v, h, depth) && Agree(p, q, v, h, Pow2(depth))
    requires LevelsOk(LeGall53, v.side, h.side, depth) && LevelsOk(LeGall53, v.Len(), h.Len(), depth)
    ensures Agree(Reconstruct(LeGall53, p, v.side, h.side, depth),
                  Reconstruct(LeGall53, q, v.Len(), h.Len(), depth), v, h, 1)
    decreases depth
  {
    hide Agree, LevelOk, v.Valid, h.Valid, SynthLevel, Rect;
    if depth > 0 {
      var s := Pow2(depth - 1);
      Shallower(v, h, depth);
      LevelTile(p, q, v, h, s);
      AgreeingPlanes(SynthLevel(LeGall53, p, v.side, h.side, s), SynthLevel(LeGall53, q, v.Len(), h.Len(), s), v, h,
                     depth - 1);
    }
  }

  /** Tile independence: the window alone gives every safe sample that the whole picture gives. */
  lemma TileIndependence(p: Plane, v: Span, h: Span, depth: nat, y: nat, x: nat)
    requires v.Valid() && h.Valid() && Rect(p, v.side, h.side) && Deep(v, h, depth)
    requires v.Has(y) && v.Safe(y) && h.Has(x) && h.Safe(x)
    ensures LevelsOk(LeGall53, v.side, h.side, depth) && LevelsOk(LeGall53, v.Len(), h.Len(), depth)
    ensures Reconstruct(LeGall53, Window(p, v, h), v.Len(), h.Len(), depth)[y - v.from][x - h.from]
         == Reconstruct(LeGall53, p, v.side, h.side, depth)[y][x]
  {
    hide v.Aligned, h.Aligned, v.Safe, h.Safe;
    DeepLevels(v, h, depth);
    var q := Window(p, v, h);
    AgreeingPlanes(p, q, v, h, depth);
    assert Same(Reconstruct(LeGall53, p, v.side, h.side, depth), Reconstruct(LeGall53, q, v.Len(), h.Len(), depth), v,
                h, y, x);
  }

  // ----- where a window does not give the picture's samples

  /** The line that is zero but for sample b. */
  function Beyond(n: nat, b: nat): (s: seq<int>)
    ensures |s| == n && forall k :: 0 <= k < n ==> s[k] == if k == b then 32 else 0
  {
    seq(n, k => if k == b then 32 else 0)
  }

  /** Two samples past what is wanted are enough for the 5/3 filter; under the 9/7 filter the line shows behind
      every window that ends inside it, in a sample of the part that is wanted. */
  lemma LongFilterReachesFurther(n: nat, b: nat)
    requires n % 2 == 0 && b % 2 == 0 && 4 <= b < n
    ensures Cut(n, 0, b, 0, b - 2) && 0 <= b - 3 <= b - 2
    ensures Line(DD97, Synthesis, true, Beyond(n, b))[b - 3] == -1
    ensures Line(DD97, Synthesis, true, Beyond(n, b)[..b])[b - 3] == 0
  {
    hide Beyond, Line;
    var k := b / 2 - 2;
    assert b == 2 * k + 4;
    BesideSpot(Beyond(n, b), k, 32);
    BesideSpot(Beyond(n, b)[..b], k, 0);
  }

  /** A line of zeroes but for what is two even samples on, if it goes so far. */
  lemma BesideSpot(s: seq<int>, k: nat, v: int)
    requires LineOk(DD97, |s|) && 2 * k + 4 <= |s| && (v == 32 ==> 2 * k + 4 < |s|) && (v == 0 || v == 32)
    requires forall i :: 0 <= i < |s| ==> s[i] == if i == 2 * k + 4 then v else 0
    ensures Line(DD97, Synthesis, true, s)[2 * k + 1] == if v == 32 then -1 else 0
  {
    hide Line, Mirror;
    EvensOnly(s, k);
    SpotMirrored(s, k, v);
  }

  lemma SpotMirrored(s: seq<int>, k: nat, v: int)
    requires LineOk(DD97, |s|) && 2 * k + 4 <= |s| && (v == 32 ==> 2 * k + 4 < |s|) && (v == 0 || v == 32)
    requires forall i :: 0 <= i < |s| ==> s[i] == if i == 2 * k + 4 then v else 0
    ensures EvenAt(s, k - 1) == EvenAt(s, k) == EvenAt(s, k + 1) == 0 && EvenAt(s, k + 2) == v
  {}

  /** A line without odd samples keeps its even ones, and its odd ones lie between them. */
  lemma EvensOnly(s: seq<int>, k: nat)
    requires LineOk(DD97, |s|) && k < |s| / 2 && forall i: nat :: 2 * i + 1 < |s| ==> s[2 * i + 1] == 0
    ensures Line(DD97, Synthesis, true, s)[2 * k + 1] == OddTerm(DD97, s, k) / 2
  {
    hide Synth, OddTerm;
    forall i: nat | i < |s| && i % 2 == 0 ensures Synth(DD97, s)[i] == s[i] {
      SynthEven(DD97, s, i / 2);
    }
    SynthOdd(DD97, s, k);
    OddTermOfEvens(DD97, Synth(DD97, s), s, k);
    PassAt(DD97, true, s, 2 * k + 1);
  }
}
