/** Dequantisation of one slice: coefficients arrive subband by subband and go to their places in the
    lattices of the transform levels. */
module Dequantiser {
  import opened Lifting
  import opened Planes
  import opened Pyramid

  function Size(d: int): nat {
    if d < 0 then -d else d
  }

  /** Factors and offsets by level and subband. */
  datatype Matrix = Matrix(factor: (nat, nat) -> int, offset: (nat, nat) -> int) {
    function Scaled(level: nat, band: nat, d: int): int {
      var m := ((if d < 0 then -d else d) * factor(level, band) + offset(level, band)) / 4;
      if d == 0 then 0 else if d > 0 then m else -m
    }

    /** v is the size of d times the factor, and the offset, in quarters rounded down; with the sign of d. */
    ghost predicate IsScaled(level: nat, band: nat, d: int, v: int) {
      && (d == 0 ==> v == 0)
      && (d > 0 ==> 4 * v <= d * factor(level, band) + offset(level, band) < 4 * v + 4)
      && (d < 0 ==> 4 * v - 4 < d * factor(level, band) - offset(level, band) <= 4 * v)
    }

    lemma ScaledExactly(level: nat, band: nat, d: int, v: int)
      ensures IsScaled(level, band, d, v) <==> v == Scaled(level, band, d)
    {
      assert -d * factor(level, band) == -(d * factor(level, band));
    }

    /** With factors and offsets that are not negative, a sample has the sign of its coefficient and the size of the
        product in whole quarters; the other sign gives the negated sample. */
    lemma ScaledBySize(level: nat, band: nat, d: int)
      requires factor(level, band) >= 0 && offset(level, band) >= 0
      ensures var v, size := Scaled(level, band, d), Size(d) * factor(level, band) + offset(level, band);
              && d * v >= 0 && Scaled(level, band, -d) == -v
              && (d != 0 ==> 4 * Size(v) <= size < 4 * Size(v) + 4)
    {
      var m := Size(d) * factor(level, band) + offset(level, band);
      assert m >= 0;
      Signs(d, Scaled(level, band, d));
    }

    lemma Signs(d: int, v: int)
      requires (d > 0 ==> v >= 0) && (d < 0 ==> v <= 0)
      ensures d * v >= 0
    {}
  }

  /** Offsets of a subband's points along the two sides. */
  function FirstY(s: nat, band: nat): nat {
    if band < 2 then 0 else s / 2
  }

  function FirstX(s: nat, band: nat): nat {
    if band % 2 == 0 then 0 else s / 2
  }

  /** A subband of a level whose lattice has spacing s before it: odd points in x, in y, or in both. */
  predicate InBand(s: nat, band: nat, y: nat, x: nat)
    requires s > 0
  {
    y % s == FirstY(s, band) && x % s == FirstX(s, band)
  }

  function Quo(y: nat, s: nat): nat
    requires s > 0
  {
    y / s
  }

  /** Place (i, j) in rows of n. */
  function Number(n: nat, i: nat, j: nat): nat {
    i * n + j
  }

  /** The points first, first + s and so on along a side. */
  function Along(side: nat, first: nat, s: nat): nat
    requires s > 0
  {
    if side <= first then 0 else (side - first - 1) / s + 1
  }

  /** The number of a point among the points of its subband. */
  function Rank(w: nat, s: nat, y: nat, x: nat): nat
    requires s > 0
  {
    Number(Along(w, x % s, s), Quo(y, s), Quo(x, s))
  }

  /** The points of a subband. */
  function Points(h: nat, w: nat, s: nat, band: nat): nat
    requires s > 0
  {
    Along(h, FirstY(s, band), s) * Along(w, FirstX(s, band), s)
  }

  /** The points of the subbands before it: a lattice's own, and those of the finer ones in their order. */
  function Before(h: nat, w: nat, s: nat, band: nat): nat
    requires s > 0
  {
    if band == 0 then 0 else Before(h, w, s, band - 1) + Points(h, w, s, band - 1)
  }

  datatype Origin = Origin(level: nat, band: nat, index: nat)

  /** Where the coefficient of a point of the lattice of spacing 2^j comes from. */
  function OriginOf(h: nat, w: nat, depth: nat, j: nat, y: nat, x: nat): Origin
    requires j <= depth
    decreases depth - j
  {
    if j == depth then Origin(0, 0, Rank(w, Pow2(depth), y, x))
    else
      var s := Pow2(j + 1);
      if OnLattice(s, y, x) then OriginOf(h, w, depth, j + 1, y, x)
      else
        var band := (if y % s == 0 then 0 else 2) + if x % s == 0 then 0 else 1;
        Origin(depth - j, band, Before(h, w, s, band) + Rank(w, s, y, x))
  }

  // ----- a rectangle of a buffer

  /** The place of a slice in a plane: h rows and w columns from sample (y, x) on. */
  datatype Patch = Patch(canvas: Canvas, y: nat, x: nat, h: nat, w: nat) {
    predicate Valid() {
      canvas.Valid() && y + h <= canvas.h && x + w <= canvas.w
    }

    predicate Covers(i: int, j: int) {
      y <= i < y + h && x <= j < x + w
    }

    ghost function Snapshot(): (p: Plane)
      requires Valid()
      reads canvas.mem
      ensures Rect(p, h, w)
      ensures forall i, j :: 0 <= i < h && 0 <= j < w ==> p[i][j] == canvas.Snapshot()[y + i][x + j]
    {
      var p := canvas.Snapshot();
      seq(h, i requires 0 <= i < h => seq(w, j requires 0 <= j < w => p[y + i][x + j]))
    }

    /** Nothing outside the patch differs. */
    ghost predicate Kept(was: Plane, now: Plane)
      requires Rect(was, canvas.h, canvas.w) && Rect(now, canvas.h, canvas.w)
    {
      forall i, j :: 0 <= i < canvas.h && 0 <= j < canvas.w && !Covers(i, j) ==> now[i][j] == was[i][j]
    }

    lemma KeptTwice(a: Plane, b: Plane, c: Plane)
      requires Rect(a, canvas.h, canvas.w) && Rect(b, canvas.h, canvas.w) && Rect(c, canvas.h, canvas.w)
      requires Kept(a, b) && Kept(b, c)
      ensures Kept(a, c)
    {}
  }

  /** Stores one sample. */
  method Set(t: Patch, y: nat, x: nat, v: int)
    requires t.Valid() && y < t.h && x < t.w
    modifies t.canvas.mem
    ensures forall i, j :: 0 <= i < t.h && 0 <= j < t.w ==>
      t.Snapshot()[i][j] == if i == y && j == x then v else old(t.Snapshot())[i][j]
    ensures t.Kept(old(t.canvas.Snapshot()), t.canvas.Snapshot())
  {
    var c := t.canvas;
    hide c.Cell;
    ghost var was := c.Snapshot();
    c.CellInside(t.y + y, t.x + x);
    c.mem[c.Cell(t.y + y, t.x + x)] := v;
    forall i: nat, j: nat | i < c.h && j < c.w
      ensures c.Snapshot()[i][j] == if i == t.y + y && j == t.x + x then v else was[i][j]
    {
      c.CellInside(i, j);
      CellUnique(c, i, j, t.y + y, t.x + x);
    }
  }

  lemma CellUnique(c: Canvas, i: nat, j: nat, y: nat, x: nat)
    requires c.Valid() && j < c.w && x < c.w
    ensures c.Cell(i, j) == c.Cell(y, x) <==> i == y && j == x
  {
    DivUnique(c.Cell(i, j), i, j, c.stride);
    DivUnique(c.Cell(y, x), y, x, c.stride);
  }

  // ----- one subband

  /** The subband is stored up to number n of its points; n points of the input have been used. */
  ghost predicate BandUpTo(now: Plane, was: Plane, h: nat, w: nat, q: Matrix, idata: seq<int>, from: nat,
                           s: nat, level: nat, band: nat, n: int)
    requires Rect(now, h, w) && Rect(was, h, w) && s > 0
  {
    forall y, x :: 0 <= y < h && 0 <= x < w ==>
      now[y][x] == if InBand(s, band, y, x) && Rank(w, s, y, x) < n && from + Rank(w, s, y, x) < |idata|
                   then q.Scaled(level, band, idata[from + Rank(w, s, y, x)]) else was[y][x]
  }

  lemma SameParts(a: nat, b: nat, s: nat)
    requires s > 0 && a % s == b % s
    ensures a == b <==> Quo(a, s) == Quo(b, s)
  {
    assert a == a / s * s + a % s && b == b / s * s + b % s;
  }

  lemma NumberUnique(n: nat, i: nat, j: nat, k: nat, l: nat)
    requires j < n && l < n
    ensures Number(n, i, j) == Number(n, k, l) <==> i == k && j == l
  {
    DivUnique(i * n + j, i, j, n);
    DivUnique(k * n + l, k, l, n);
  }

  lemma RankOrder(w: nat, s: nat, y: nat, x: nat, i: nat, j: nat, band: nat)
    requires s > 0 && x < w && j < w && InBand(s, band, y, x) && InBand(s, band, i, j)
    ensures Rank(w, s, y, x) == Rank(w, s, i, j) <==> y == i && x == j
  {
    hide Quo, Number, Along;
    InsideAlong(w, s, x);
    InsideAlong(w, s, j);
    SameParts(y, i, s);
    SameParts(x, j, s);
    NumberUnique(Along(w, x % s, s), Quo(y, s), Quo(x, s), Quo(i, s), Quo(j, s));
  }

  /** The k-th point along a side of a subband. */
  function Nth(first: nat, s: nat, k: nat): nat {
    first + k * s
  }

  lemma NthPoint(side: nat, s: nat, first: nat, k: nat)
    requires first < s
    ensures Nth(first, s, k) % s == first && Quo(Nth(first, s, k), s) == k
    ensures Nth(first, s, k) < side <==> k < Along(side, first, s)
    ensures Nth(first, s, k + 1) == Nth(first, s, k) + s && Nth(first, s, 0) == first
  {
    DivUnique(first + k * s, k, first, s);
    if side > first {
      var m := side - first - 1;
      assert m == m / s * s + m % s;
      Monotone(m / s, k, s);
      Monotone(k, m / s + 1, s);
    }
  }

  lemma InsideAlong(side: nat, s: nat, y: nat)
    requires s > 0 && y < side
    ensures Quo(y, s) < Along(side, y % s, s)
  {
    assert y == y / s * s + y % s;
    NthPoint(side, s, y % s, y / s);
  }

  /** So many points: the last of them is inside, and the next one would not be. */
  lemma AlongIs(side: nat, s: nat, first: nat, n: nat)
    requires first < s && side <= Nth(first, s, n) && (n > 0 ==> Nth(first, s, n - 1) < side)
    ensures Along(side, first, s) == n
  {
    hide Nth, Along;
    NthPoint(side, s, first, n);
    if n > 0 {
      NthPoint(side, s, first, n - 1);
    }
  }

  /** One more point, in the order of the loops. */
  method StorePoint(t: Patch, q: Matrix, idata: seq<int>, iptr: nat, ghost from: nat, ghost was: Plane,
                    s: nat, level: nat, band: nat, y: nat, x: nat)
    requires s > 0 && t.Valid() && y < t.h && x < t.w && InBand(s, band, y, x) && iptr < |idata|
    requires Rect(was, t.h, t.w) && iptr == from + Rank(t.w, s, y, x)
    requires BandUpTo(t.Snapshot(), was, t.h, t.w, q, idata, from, s, level, band, iptr - from)
    modifies t.canvas.mem
    ensures BandUpTo(t.Snapshot(), was, t.h, t.w, q, idata, from, s, level, band, iptr + 1 - from)
    ensures t.Kept(old(t.canvas.Snapshot()), t.canvas.Snapshot())
  {
    hide t.Snapshot, t.Kept, Canvas.Snapshot, Canvas.Valid, Rank, FirstY, FirstX, Quo;
    ghost var before := t.Snapshot();
    Set(t, y, x, q.Scaled(level, band, idata[iptr]));
    forall i: nat, j: nat | i < t.h && j < t.w && InBand(s, band, i, j)
      ensures Rank(t.w, s, y, x) == Rank(t.w, s, i, j) <==> y == i && x == j
    {
      RankOrder(t.w, s, y, x, i, j, band);
    }
  }

  /** One row of a subband. */
  method StoreRow(t: Patch, q: Matrix, idata: seq<int>, from: nat, ghost was: Plane,
                  s: nat, level: nat, band: nat, y: nat, start: nat) returns (iptr: nat)
    requires s > 0 && t.Valid() && y < t.h && y % s == FirstY(s, band) && Rect(was, t.h, t.w)
    requires var n := Along(t.w, FirstX(s, band), s);
             start == from + Number(n, Quo(y, s), 0) && start + n <= |idata|
    requires BandUpTo(t.Snapshot(), was, t.h, t.w, q, idata, from, s, level, band, start - from)
    modifies t.canvas.mem
    ensures iptr == start + Along(t.w, FirstX(s, band), s)
    ensures BandUpTo(t.Snapshot(), was, t.h, t.w, q, idata, from, s, level, band, iptr - from)
    ensures t.Kept(old(t.canvas.Snapshot()), t.canvas.Snapshot())
  {
    hide t.Snapshot, t.Kept, Canvas.Snapshot, Canvas.Valid, BandUpTo, FirstY, FirstX, Along, Quo, Number, Nth;
    FirstInside(s, band);
    ghost var all := t.canvas.Snapshot();
    NothingElse(t, all);
    iptr := start;
    var x := FirstX(s, band);
    ghost var k := 0;
    NthPoint(t.w, s, FirstX(s, band), k);
    while x < t.w
      invariant x == Nth(FirstX(s, band), s, k) && iptr == start + k && k <= Along(t.w, FirstX(s, band), s)
      invariant BandUpTo(t.Snapshot(), was, t.h, t.w, q, idata, from, s, level, band, iptr - from)
      invariant t.Kept(all, t.canvas.Snapshot())
      decreases t.w - x
    {
      NthPoint(t.w, s, FirstX(s, band), k);
      NumberFrom(Along(t.w, FirstX(s, band), s), Quo(y, s), k);
      ghost var now := t.canvas.Snapshot();
      StorePoint(t, q, idata, iptr, from, was, s, level, band, y, x);
      t.KeptTwice(all, now, t.canvas.Snapshot());
      iptr, x, k := iptr + 1, x + s, k + 1;
    }
    NthPoint(t.w, s, FirstX(s, band), k);
  }

  lemma NothingElse(t: Patch, p: Plane)
    requires Rect(p, t.canvas.h, t.canvas.w)
    ensures t.Kept(p, p)
  {}

  lemma FirstInside(s: nat, band: nat)
    requires s > 0
    ensures FirstX(s, band) < s && FirstY(s, band) < s
  {}

  lemma NumberFrom(n: nat, i: nat, j: nat)
    ensures Number(n, i, j) == Number(n, i, 0) + j && Number(n, 0, 0) == 0
    ensures Number(n, i + 1, 0) == Number(n, i, 0) + n
  {}

  /** A subband: its points in raster order take as many inputs as there are points. */
  method StoreBand(t: Patch, q: Matrix, idata: seq<int>, from: nat, s: nat, level: nat, band: nat) returns (iptr: nat)
    requires s > 0 && t.Valid() && from + Points(t.h, t.w, s, band) <= |idata|
    modifies t.canvas.mem
    ensures iptr == from + Points(t.h, t.w, s, band)
    ensures BandUpTo(t.Snapshot(), old(t.Snapshot()), t.h, t.w, q, idata, from, s, level, band,
                     Points(t.h, t.w, s, band))
    ensures t.Kept(old(t.canvas.Snapshot()), t.canvas.Snapshot())
  {
    hide t.Snapshot, t.Kept, Canvas.Snapshot, Canvas.Valid, BandUpTo, FirstY, FirstX, Along, Quo, Number, Nth, Points;
    ghost var was, all := t.Snapshot(), t.canvas.Snapshot();
    NothingElse(t, all);
    FirstInside(s, band);
    iptr := from;
    var y := FirstY(s, band);
    ghost var k := 0;
    NoneStored(t.Snapshot(), t.h, t.w, q, idata, from, s, level, band);
    NthPoint(t.h, s, FirstY(s, band), k);
    NumberFrom(Along(t.w, FirstX(s, band), s), k, 0);
    while y < t.h
      invariant y == Nth(FirstY(s, band), s, k) && k <= Along(t.h, FirstY(s, band), s)
      invariant iptr == from + Number(Along(t.w, FirstX(s, band), s), k, 0)
      invariant BandUpTo(t.Snapshot(), was, t.h, t.w, q, idata, from, s, level, band, iptr - from)
      invariant t.Kept(all, t.canvas.Snapshot())
      decreases t.h - y
    {
      NthPoint(t.h, s, FirstY(s, band), k);
      NumberFrom(Along(t.w, FirstX(s, band), s), k, 0);
      RowInside(t.h, t.w, s, band, k);
      ghost var now := t.canvas.Snapshot();
      iptr := StoreRow(t, q, idata, from, was, s, level, band, y, iptr);
      t.KeptTwice(all, now, t.canvas.Snapshot());
      y, k := y + s, k + 1;
    }
    NthPoint(t.h, s, FirstY(s, band), k);
    AllRows(t.h, t.w, s, band);
  }

  lemma RowInside(h: nat, w: nat, s: nat, band: nat, k: nat)
    requires s > 0 && k < Along(h, FirstY(s, band), s)
    ensures var n := Along(w, FirstX(s, band), s); Number(n, k, 0) + n <= Points(h, w, s, band)
  {
    hide Along;
    Products(Along(h, FirstY(s, band), s), k, Along(w, FirstX(s, band), s));
  }

  lemma Products(n: nat, k: nat, w: nat)
    requires k < n
    ensures k * w + w <= n * w
  {
    if w > 0 {
      Monotone(n, k + 1, w);
    }
  }

  lemma AllRows(h: nat, w: nat, s: nat, band: nat)
    requires s > 0
    ensures Number(Along(w, FirstX(s, band), s), Along(h, FirstY(s, band), s), 0) == Points(h, w, s, band)
  {}

  lemma NoneStored(was: Plane, h: nat, w: nat, q: Matrix, idata: seq<int>, from: nat, s: nat, level: nat, band: nat)
    requires Rect(was, h, w) && s > 0
    ensures BandUpTo(was, was, h, w, q, idata, from, s, level, band, 0)
  {}

  // ----- the levels

  /** The value of a point of the lattice of spacing 2^j. */
  function ValueOf(h: nat, w: nat, depth: nat, j: nat, q: Matrix, idata: seq<int>, y: nat, x: nat): int
    requires j <= depth
  {
    var o := OriginOf(h, w, depth, j, y, x);
    if o.index < |idata| then q.Scaled(o.level, o.band, idata[o.index]) else 0
  }

  /** The lattice of spacing 2^j is filled, and nothing else is touched. */
  ghost predicate FilledTo(now: Plane, was: Plane, h: nat, w: nat, depth: nat, j: nat, q: Matrix, idata: seq<int>)
    requires Rect(now, h, w) && Rect(was, h, w) && j <= depth
  {
    forall y, x :: 0 <= y < h && 0 <= x < w ==>
      now[y][x] == if OnLattice(Pow2(j), y, x) then ValueOf(h, w, depth, j, q, idata, y, x) else was[y][x]
  }

  /** A multiple of t is an even or an odd one. */
  lemma HalfPoint(t: nat, y: nat)
    requires t > 0
    ensures y % t == 0 <==> y % (2 * t) == 0 || y % (2 * t) == t
  {
    var d, r := y / (2 * t), y % (2 * t);
    assert y == d * (2 * t) + r == 2 * d * t + r;
    if r < t {
      DivUnique(y, 2 * d, r, t);
    } else {
      assert 2 * d * t + r == (2 * d + 1) * t + (r - t);
      DivUnique(y, 2 * d + 1, r - t, t);
    }
  }

  /** The points that a level adds are those of its three subbands, each in one of them. */
  lemma BandOf(t: nat, y: nat, x: nat)
    requires t > 0
    ensures OnLattice(t, y, x)
       <==> InBand(2 * t, 0, y, x) || InBand(2 * t, 1, y, x) || InBand(2 * t, 2, y, x) || InBand(2 * t, 3, y, x)
    ensures OnLattice(2 * t, y, x) <==> InBand(2 * t, 0, y, x)
    ensures forall a: nat, b: nat :: a < b < 4 ==> !(InBand(2 * t, a, y, x) && InBand(2 * t, b, y, x))
    ensures forall b: nat :: b < 4 && InBand(2 * t, b, y, x) ==>
              b == (if y % (2 * t) == 0 then 0 else 2) + if x % (2 * t) == 0 then 0 else 1
  {
    HalfPoint(t, y);
    HalfPoint(t, x);
    var s := 2 * t;
    assert s / 2 == t;
  }

  /** Along a side, the even points of a lattice and its odd ones. */
  lemma AlongHalves(side: nat, t: nat)
    requires t > 0
    ensures Along(side, 0, t) == Along(side, 0, 2 * t) + Along(side, t, 2 * t)
  {
    var n := Along(side, 0, t);
    NthPoint(side, t, 0, n);
    if n > 0 {
      NthPoint(side, t, 0, n - 1);
    }
    HalfSteps(t, n);
    hide Along, Nth;
    AlongIs(side, 2 * t, 0, (n + 1) / 2);
    AlongIs(side, 2 * t, t, n / 2);
  }

  lemma HalfSteps(t: nat, n: nat)
    requires t > 0
    ensures Nth(0, t, n) <= Nth(0, 2 * t, (n + 1) / 2) && Nth(0, t, n) <= Nth(t, 2 * t, n / 2)
    ensures n > 0 ==> Nth(0, 2 * t, (n + 1) / 2 - 1) <= Nth(0, t, n - 1)
    ensures n > 1 ==> Nth(t, 2 * t, n / 2 - 1) <= Nth(0, t, n - 1)
  {
    var a, b := (n + 1) / 2, n / 2;
    EvenStep(t, a, n);
    OddStep(t, b, n);
    if n > 0 {
      EvenStep(t, a - 1, n - 1);
    }
    if n > 1 {
      OddStep(t, b - 1, n - 1);
    }
  }

  lemma EvenStep(t: nat, a: nat, n: nat)
    requires t > 0
    ensures n <= 2 * a ==> Nth(0, t, n) <= Nth(0, 2 * t, a)
    ensures 2 * a <= n ==> Nth(0, 2 * t, a) <= Nth(0, t, n)
  {
    assert a * (2 * t) == 2 * a * t;
    Monotone(2 * a, n, t);
    Monotone(n, 2 * a, t);
  }

  lemma OddStep(t: nat, b: nat, n: nat)
    requires t > 0
    ensures n <= 2 * b + 1 ==> Nth(0, t, n) <= Nth(t, 2 * t, b)
    ensures 2 * b + 1 <= n ==> Nth(t, 2 * t, b) <= Nth(0, t, n)
  {
    assert t + b * (2 * t) == (2 * b + 1) * t;
    Monotone(2 * b + 1, n, t);
    Monotone(n, 2 * b + 1, t);
  }

  /** A lattice's points are those of the four subbands of twice its spacing. */
  lemma FourBands(h: nat, w: nat, t: nat)
    requires t > 0
    ensures Points(h, w, t, 0) == Before(h, w, 2 * t, 4) && Before(h, w, 2 * t, 1) == Points(h, w, 2 * t, 0)
    ensures Before(h, w, 2 * t, 2) == Before(h, w, 2 * t, 1) + Points(h, w, 2 * t, 1)
    ensures Before(h, w, 2 * t, 3) == Before(h, w, 2 * t, 2) + Points(h, w, 2 * t, 2)
    ensures Before(h, w, 2 * t, 4) == Before(h, w, 2 * t, 3) + Points(h, w, 2 * t, 3)
  {
    AlongHalves(h, t);
    AlongHalves(w, t);
    FourProducts(Along(h, 0, 2 * t), Along(h, t, 2 * t), Along(w, 0, 2 * t), Along(w, t, 2 * t));
    FourPoints(h, w, t);
    FourBefore(h, w, 2 * t);
    hide Along, Before;
  }

  lemma FourPoints(h: nat, w: nat, t: nat)
    requires t > 0
    ensures Points(h, w, t, 0) == Along(h, 0, t) * Along(w, 0, t)
    ensures Points(h, w, 2 * t, 0) == Along(h, 0, 2 * t) * Along(w, 0, 2 * t)
    ensures Points(h, w, 2 * t, 1) == Along(h, 0, 2 * t) * Along(w, t, 2 * t)
    ensures Points(h, w, 2 * t, 2) == Along(h, t, 2 * t) * Along(w, 0, 2 * t)
    ensures Points(h, w, 2 * t, 3) == Along(h, t, 2 * t) * Along(w, t, 2 * t)
  {
    hide Along;
  }

  lemma FourProducts(a: nat, b: nat, c: nat, d: nat)
    ensures (a + b) * (c + d) == a * c + a * d + b * c + b * d
  {}

  lemma FourBefore(h: nat, w: nat, s: nat)
    requires s > 0
    ensures Before(h, w, s, 1) == Points(h, w, s, 0) && Before(h, w, s, 2) == Before(h, w, s, 1) + Points(h, w, s, 1)
    ensures Before(h, w, s, 3) == Before(h, w, s, 2) + Points(h, w, s, 2)
    ensures Before(h, w, s, 4) == Before(h, w, s, 3) + Points(h, w, s, 3)
  {
    hide Points;
  }

  /** The rank of a point is below the number of points. */
  lemma RankInside(h: nat, w: nat, s: nat, band: nat, y: nat, x: nat)
    requires s > 0 && y < h && x < w && InBand(s, band, y, x)
    ensures Rank(w, s, y, x) < Points(h, w, s, band)
  {
    InsideAlong(h, s, y);
    InsideAlong(w, s, x);
    hide Quo, Along;
    Products(Along(h, y % s, s), Quo(y, s), Along(w, x % s, s));
  }

  /** A whole subband, point by point. */
  lemma BandAt(now: Plane, was: Plane, h: nat, w: nat, q: Matrix, idata: seq<int>, from: nat,
               s: nat, level: nat, band: nat, y: nat, x: nat)
    requires Rect(now, h, w) && Rect(was, h, w) && s > 0 && from + Points(h, w, s, band) <= |idata|
    requires BandUpTo(now, was, h, w, q, idata, from, s, level, band, Points(h, w, s, band)) && y < h && x < w
    ensures InBand(s, band, y, x) ==> from + Rank(w, s, y, x) < |idata|
    ensures now[y][x] == if InBand(s, band, y, x) then q.Scaled(level, band, idata[from + Rank(w, s, y, x)])
            else was[y][x]
  {
    hide Rank, Points, InBand;
    if InBand(s, band, y, x) {
      RankInside(h, w, s, band, y, x);
    }
  }

  /** The three subbands of a level have been stored, one after the other. */
  ghost predicate ThreeBands(p: seq<Plane>, h: nat, w: nat, depth: nat, j: nat, q: Matrix, idata: seq<int>) {
    var s, l := Pow2(j + 1), depth - j;
    && j < depth && |p| == 4 && (forall i :: 0 <= i < 4 ==> Rect(p[i], h, w)) && Before(h, w, s, 4) <= |idata|
    && BandUpTo(p[1], p[0], h, w, q, idata, Before(h, w, s, 1), s, l, 1, Points(h, w, s, 1))
    && BandUpTo(p[2], p[1], h, w, q, idata, Before(h, w, s, 2), s, l, 2, Points(h, w, s, 2))
    && BandUpTo(p[3], p[2], h, w, q, idata, Before(h, w, s, 3), s, l, 3, Points(h, w, s, 3))
  }

  lemma BandsStored(p0: Plane, p1: Plane, p2: Plane, p3: Plane, h: nat, w: nat, depth: nat, j: nat, q: Matrix,
                    idata: seq<int>)
    requires Rect(p0, h, w) && Rect(p1, h, w) && Rect(p2, h, w) && Rect(p3, h, w) && j < depth
    requires var s, l := Pow2(j + 1), depth - j;
             && Before(h, w, s, 4) <= |idata|
             && BandUpTo(p1, p0, h, w, q, idata, Before(h, w, s, 1), s, l, 1, Points(h, w, s, 1))
             && BandUpTo(p2, p1, h, w, q, idata, Before(h, w, s, 2), s, l, 2, Points(h, w, s, 2))
             && BandUpTo(p3, p2, h, w, q, idata, Before(h, w, s, 3), s, l, 3, Points(h, w, s, 3))
    ensures ThreeBands([p0, p1, p2, p3], h, w, depth, j, q, idata)
  {
    hide BandUpTo, Before, Points, Pow2, Rect;
  }

  lemma LevelAt(p: seq<Plane>, was: Plane, h: nat, w: nat, depth: nat, j: nat, q: Matrix, idata: seq<int>,
                y: nat, x: nat)
    requires ThreeBands(p, h, w, depth, j, q, idata) && Rect(was, h, w) && y < h && x < w
    requires FilledTo(p[0], was, h, w, depth, j + 1, q, idata)
    ensures p[3][y][x] == if OnLattice(Pow2(j), y, x) then ValueOf(h, w, depth, j, q, idata, y, x) else was[y][x]
  {
    var s := Pow2(j + 1);
    FourBands(h, w, Pow2(j));
    hide Rank, Points, Before, InBand, BandUpTo, OnLattice, q.Scaled;
    BandOf(Pow2(j), y, x);
    BandAt(p[1], p[0], h, w, q, idata, Before(h, w, s, 1), s, depth - j, 1, y, x);
    BandAt(p[2], p[1], h, w, q, idata, Before(h, w, s, 2), s, depth - j, 2, y, x);
    BandAt(p[3], p[2], h, w, q, idata, Before(h, w, s, 3), s, depth - j, 3, y, x);
  }

  /** One level: the three subbands that fill the lattice of half the spacing. */
  method StoreLevel(t: Patch, q: Matrix, idata: seq<int>, depth: nat, j: nat, start: nat, ghost was: Plane)
    returns (iptr: nat)
    requires j < depth && t.Valid() && Rect(was, t.h, t.w)
    requires start == Points(t.h, t.w, Pow2(j + 1), 0) && Points(t.h, t.w, Pow2(j), 0) <= |idata|
    requires FilledTo(t.Snapshot(), was, t.h, t.w, depth, j + 1, q, idata)
    modifies t.canvas.mem
    ensures iptr == Points(t.h, t.w, Pow2(j), 0) && FilledTo(t.Snapshot(), was, t.h, t.w, depth, j, q, idata)
    ensures t.Kept(old(t.canvas.Snapshot()), t.canvas.Snapshot())
  {
    LevelCounts(t.h, t.w, j);
    hide t.Snapshot, t.Kept, Canvas.Snapshot, Canvas.Valid, BandUpTo, Points, Before, FilledTo, Pow2, ThreeBands, Rect;
    var s := Pow2(j + 1);
    ghost var p0, a0 := t.Snapshot(), t.canvas.Snapshot();
    iptr := StoreBand(t, q, idata, start, s, depth - j, 1);
    ghost var p1, a1 := t.Snapshot(), t.canvas.Snapshot();
    iptr := StoreBand(t, q, idata, iptr, s, depth - j, 2);
    ghost var p2, a2 := t.Snapshot(), t.canvas.Snapshot();
    iptr := StoreBand(t, q, idata, iptr, s, depth - j, 3);
    t.KeptTwice(a0, a1, a2);
    t.KeptTwice(a0, a2, t.canvas.Snapshot());
    BandsStored(p0, p1, p2, t.Snapshot(), t.h, t.w, depth, j, q, idata);
    LevelFilled([p0, p1, p2, t.Snapshot()], was, t.h, t.w, depth, j, q, idata);
  }

  lemma LevelCounts(h: nat, w: nat, j: nat)
    ensures var s := Pow2(j + 1);
            && Before(h, w, s, 1) == Points(h, w, s, 0) && Before(h, w, s, 2) == Before(h, w, s, 1) + Points(h, w, s, 1)
            && Before(h, w, s, 3) == Before(h, w, s, 2) + Points(h, w, s, 2)
            && Points(h, w, Pow2(j), 0) == Before(h, w, s, 3) + Points(h, w, s, 3) == Before(h, w, s, 4)
  {
    FourBands(h, w, Pow2(j));
  }

  lemma LevelFilled(p: seq<Plane>, was: Plane, h: nat, w: nat, depth: nat, j: nat, q: Matrix, idata: seq<int>)
    requires ThreeBands(p, h, w, depth, j, q, idata) && Rect(was, h, w)
    requires FilledTo(p[0], was, h, w, depth, j + 1, q, idata)
    ensures FilledTo(p[3], was, h, w, depth, j, q, idata)
  {
    forall y: nat, x: nat | y < h && x < w
      ensures p[3][y][x] == if OnLattice(Pow2(j), y, x) then ValueOf(h, w, depth, j, q, idata, y, x) else was[y][x]
    {
      LevelAt(p, was, h, w, depth, j, q, idata, y, x);
    }
    hide Points, BandUpTo, ValueOf, OnLattice;
  }

  /** The lattice of all samples, and the coarser ones within it. */
  lemma {:induction false} PointsInside(h: nat, w: nat, j: nat)
    ensures Points(h, w, Pow2(j), 0) <= h * w && (j == 0 ==> Points(h, w, Pow2(j), 0) == h * w)
  {
    if j > 0 {
      FourBands(h, w, Pow2(j - 1));
      hide Points;
      PointsInside(h, w, j - 1);
    } else {
      assert Along(h, 0, 1) == h && Along(w, 0, 1) == w;
    }
  }

  lemma CoarsestFilled(now: Plane, was: Plane, h: nat, w: nat, depth: nat, q: Matrix, idata: seq<int>)
    requires Rect(now, h, w) && Rect(was, h, w)
    requires var s := Pow2(depth);
             && Points(h, w, s, 0) <= |idata|
             && BandUpTo(now, was, h, w, q, idata, 0, s, 0, 0, Points(h, w, s, 0))
    ensures FilledTo(now, was, h, w, depth, depth, q, idata)
  {
    forall y: nat, x: nat | y < h && x < w
      ensures now[y][x] == if OnLattice(Pow2(depth), y, x) then ValueOf(h, w, depth, depth, q, idata, y, x)
              else was[y][x]
    {
      BandAt(now, was, h, w, q, idata, 0, Pow2(depth), 0, 0, y, x);
    }
  }

  lemma FinestFilled(now: Plane, was: Plane, h: nat, w: nat, depth: nat, q: Matrix, idata: seq<int>)
    requires Rect(now, h, w) && Rect(was, h, w) && FilledTo(now, was, h, w, depth, 0, q, idata)
    ensures forall y, x :: 0 <= y < h && 0 <= x < w ==> now[y][x] == ValueOf(h, w, depth, 0, q, idata, y, x)
  {
    hide ValueOf;
  }

  /** Every sample of p is a coefficient of idata, scaled with its own level's and subband's factor and offset. */
  ghost predicate AllScaled(p: Plane, h: nat, w: nat, depth: nat, q: Matrix, idata: seq<int>)
    requires Rect(p, h, w)
  {
    forall y, x :: 0 <= y < h && 0 <= x < w ==>
      var o := OriginOf(h, w, depth, 0, y, x);
      o.index < |idata| && q.IsScaled(o.level, o.band, idata[o.index], p[y][x])
  }

  lemma ValuesAreScaled(p: Plane, h: nat, w: nat, depth: nat, q: Matrix, idata: seq<int>)
    requires Rect(p, h, w) && h * w <= |idata|
    requires forall y, x :: 0 <= y < h && 0 <= x < w ==> p[y][x] == ValueOf(h, w, depth, 0, q, idata, y, x)
    ensures AllScaled(p, h, w, depth, q, idata)
  {
    hide OriginOf, Points, q.Scaled, q.IsScaled;
    PointsInside(h, w, 0);
    forall y: nat, x: nat | y < h && x < w
      ensures OriginOf(h, w, depth, 0, y, x).index < |idata|
    {
      OriginInside(h, w, depth, 0, y, x);
    }
    forall level: nat, band: nat, d: int ensures q.IsScaled(level, band, d, q.Scaled(level, band, d)) {
      q.ScaledExactly(level, band, d, q.Scaled(level, band, d));
    }
  }

  /** The slice's coefficients are scaled and put in their places, each input used once, whatever the slice's sides. */
  method Dequantise(t: Patch, q: Matrix, idata: seq<int>, depth: nat) returns (iptr: nat)
    requires t.Valid() && t.h * t.w <= |idata|
    modifies t.canvas.mem
    ensures iptr == t.h * t.w
    ensures forall y, x :: 0 <= y < t.h && 0 <= x < t.w ==>
      t.Snapshot()[y][x] == ValueOf(t.h, t.w, depth, 0, q, idata, y, x)
    ensures AllScaled(t.Snapshot(), t.h, t.w, depth, q, idata)
    ensures t.Kept(old(t.canvas.Snapshot()), t.canvas.Snapshot())
  {
    hide t.Snapshot, t.Kept, Canvas.Snapshot, Canvas.Valid, BandUpTo, Points, FilledTo, Pow2, ValueOf, AllScaled;
    ghost var was, all := t.Snapshot(), t.canvas.Snapshot();
    PointsInside(t.h, t.w, depth);
    iptr := StoreBand(t, q, idata, 0, Pow2(depth), 0, 0);
    CoarsestFilled(t.Snapshot(), was, t.h, t.w, depth, q, idata);
    var j: nat := depth;
    while j > 0
      invariant j <= depth && t.Valid() && iptr == Points(t.h, t.w, Pow2(j), 0) <= |idata|
      invariant FilledTo(t.Snapshot(), was, t.h, t.w, depth, j, q, idata)
      invariant t.Kept(all, t.canvas.Snapshot())
    {
      PointsInside(t.h, t.w, j - 1);
      ghost var now := t.canvas.Snapshot();
      iptr := StoreLevel(t, q, idata, depth, j - 1, iptr, was);
      t.KeptTwice(all, now, t.canvas.Snapshot());
      j := j - 1;
    }
    PointsInside(t.h, t.w, 0);
    FinestFilled(t.Snapshot(), was, t.h, t.w, depth, q, idata);
    ValuesAreScaled(t.Snapshot(), t.h, t.w, depth, q, idata);
  }

  // ----- every input has one place

  lemma {:induction false} FinerDivides(h: nat, depth: nat, j: nat)
    requires j <= depth && Divides(Pow2(depth), h)
    ensures Divides(Pow2(j), h)
    decreases depth - j
  {
    if j < depth {
      FinerDivides(h, depth, j + 1);
      var k, t := h / Pow2(j + 1), Pow2(j);
      assert h == k * (2 * t) == 2 * k * t;
      MultipleDivides(2 * k, t);
    }
  }

  /** A lattice's coefficients come first, those of its finer subbands after them. */
  lemma {:induction false} OriginInside(h: nat, w: nat, depth: nat, j: nat, y: nat, x: nat)
    requires j <= depth && y < h && x < w && OnLattice(Pow2(j), y, x)
    ensures OriginOf(h, w, depth, j, y, x).index < Points(h, w, Pow2(j), 0)
    ensures j < depth ==>
      (OriginOf(h, w, depth, j, y, x).index < Points(h, w, Pow2(j + 1), 0) <==> OnLattice(Pow2(j + 1), y, x))
    decreases depth - j
  {
    hide Points, Rank, Before, OnLattice;
    if j == depth {
      LatticeIsBand(Pow2(depth), y, x);
      RankInside(h, w, Pow2(depth), 0, y, x);
    } else {
      FourBands(h, w, Pow2(j));
      if OnLattice(Pow2(j + 1), y, x) {
        OriginInside(h, w, depth, j + 1, y, x);
      } else {
        FineBand(h, w, depth, j, y, x);
        FineInside(h, w, Pow2(j), OriginOf(h, w, depth, j, y, x).band);
      }
    }
  }

  lemma FineBand(h: nat, w: nat, depth: nat, j: nat, y: nat, x: nat)
    requires j < depth && y < h && x < w && OnLattice(Pow2(j), y, x) && !OnLattice(Pow2(j + 1), y, x)
    ensures var o, s := OriginOf(h, w, depth, j, y, x), Pow2(j + 1);
            && 1 <= o.band < 4 && o.index == Before(h, w, s, o.band) + Rank(w, s, y, x)
            && InBand(s, o.band, y, x) && Rank(w, s, y, x) < Points(h, w, s, o.band)
  {
    BandOf(Pow2(j), y, x);
    RankInside(h, w, Pow2(j + 1), OriginOf(h, w, depth, j, y, x).band, y, x);
    hide Rank, Points, Before, InBand;
  }

  /** A finer subband comes after the lattice. */
  lemma FineInside(h: nat, w: nat, t: nat, band: nat)
    requires t > 0 && 1 <= band < 4
    ensures Points(h, w, 2 * t, 0) <= Before(h, w, 2 * t, band)
    ensures Before(h, w, 2 * t, band) + Points(h, w, 2 * t, band) <= Points(h, w, t, 0)
  {
    FourBands(h, w, t);
    hide Points;
  }

  /** No two points of a lattice take the same input. */
  lemma {:induction false} OriginUnique(h: nat, w: nat, depth: nat, j: nat, y: nat, x: nat, i: nat, k: nat)
    requires j <= depth && y < h && x < w && OnLattice(Pow2(j), y, x) && i < h && k < w && OnLattice(Pow2(j), i, k)
    requires OriginOf(h, w, depth, j, y, x).index == OriginOf(h, w, depth, j, i, k).index
    ensures y == i && x == k
    decreases depth - j
  {
    hide Points, Rank, OnLattice;
    var s := Pow2(j + 1);
    if j == depth {
      LatticeIsBand(Pow2(depth), y, x);
      LatticeIsBand(Pow2(depth), i, k);
      RankOrder(w, Pow2(depth), y, x, i, k, 0);
    } else {
      OriginInside(h, w, depth, j, y, x);
      OriginInside(h, w, depth, j, i, k);
      if OnLattice(s, y, x) {
        OriginUnique(h, w, depth, j + 1, y, x, i, k);
      } else {
        FineUnique(h, w, depth, j, y, x, i, k);
      }
    }
  }

  lemma LatticeIsBand(s: nat, y: nat, x: nat)
    requires s > 0
    ensures OnLattice(s, y, x) <==> InBand(s, 0, y, x)
  {}

  lemma FineUnique(h: nat, w: nat, depth: nat, j: nat, y: nat, x: nat, i: nat, k: nat)
    requires j < depth && y < h && x < w && OnLattice(Pow2(j), y, x) && i < h && k < w && OnLattice(Pow2(j), i, k)
    requires !OnLattice(Pow2(j + 1), y, x) && !OnLattice(Pow2(j + 1), i, k)
    requires OriginOf(h, w, depth, j, y, x).index == OriginOf(h, w, depth, j, i, k).index
    ensures y == i && x == k
  {
    hide Points, Rank, Before, OnLattice, OriginOf, InBand;
    var s := Pow2(j + 1);
    FineBand(h, w, depth, j, y, x);
    FineBand(h, w, depth, j, i, k);
    FourBands(h, w, Pow2(j));
    var a, b := OriginOf(h, w, depth, j, y, x).band, OriginOf(h, w, depth, j, i, k).band;
    BandsApart(h, w, Pow2(j), a, b);
    BandsApart(h, w, Pow2(j), b, a);
    RankOrder(w, s, y, x, i, k, a);
  }

  lemma BandsApart(h: nat, w: nat, t: nat, a: nat, b: nat)
    requires t > 0 && a < 4 && b < 4
    ensures a < b ==> Before(h, w, 2 * t, a) + Points(h, w, 2 * t, a) <= Before(h, w, 2 * t, b)
  {
    FourBands(h, w, t);
    hide Points, Before;
  }

  /** The point of a subband with a given rank. */
  lemma BandPointFor(h: nat, w: nat, s: nat, band: nat, r: nat) returns (y: nat, x: nat)
    requires s > 0 && r < Points(h, w, s, band)
    ensures y < h && x < w && InBand(s, band, y, x) && Rank(w, s, y, x) == r
  {
    hide Quo, Nth, FirstY, FirstX, Along;
    var i, k := Quotient(r, Along(w, FirstX(s, band), s), Along(h, FirstY(s, band), s));
    FirstInside(s, band);
    NthPoint(h, s, FirstY(s, band), i);
    NthPoint(w, s, FirstX(s, band), k);
    y, x := Nth(FirstY(s, band), s, i), Nth(FirstX(s, band), s, k);
  }

  lemma Quotient(r: nat, n: nat, m: nat) returns (i: nat, k: nat)
    requires r < m * n
    ensures r == i * n + k && k < n && i < m
  {
    assert n > 0;
    i, k := r / n, r % n;
    SmallerFactor(i, m, n);
  }

  /** Every input has a point: with OriginUnique, the order of the inputs is a bijection. */
  lemma {:induction false} EveryInput(h: nat, w: nat, depth: nat, j: nat, k: nat) returns (y: nat, x: nat)
    requires j <= depth && k < Points(h, w, Pow2(j), 0)
    ensures y < h && x < w && OnLattice(Pow2(j), y, x) && OriginOf(h, w, depth, j, y, x).index == k
    decreases depth - j
  {
    hide Points, Rank, Before, InBand, OnLattice;
    if j == depth {
      y, x := BandPointFor(h, w, Pow2(depth), 0, k);
      LatticeIsBand(Pow2(depth), y, x);
    } else {
      var s := Pow2(j + 1);
      FourBands(h, w, Pow2(j));
      if k < Points(h, w, s, 0) {
        y, x := EveryInput(h, w, depth, j + 1, k);
        LatticeIsBand(s, y, x);
        BandOf(Pow2(j), y, x);
      } else {
        var band := if k < Before(h, w, s, 2) then 1 else if k < Before(h, w, s, 3) then 2 else 3;
        y, x := BandPointFor(h, w, s, band, k - Before(h, w, s, band));
        BandOf(Pow2(j), y, x);
      }
    }
  }
}
