/** The grid of decoding jobs along one axis of the picture: overlapping windows of slices, the table that
    names the jobs each slice goes to, and the part of the output each job writes. */
module JobGrid {
  import opened Planes

  /** S slices of `size` samples cover a side of `length` samples; J jobs overlap by o slices. */
  datatype Axis = Axis(slices: nat, jobs: nat, overlap: nat, size: nat, length: nat) {
    predicate Valid() {
      slices > 0 && 0 < jobs <= 64
    }

    function PerJob(): (p: nat)
      requires Valid()
      ensures p > 0 && p * jobs >= slices && (p - 1) * jobs < slices
    {
      CeilBounds(slices, jobs);
      (slices + jobs - 1) / jobs
    }

    /** The slices a job delivers, which may come out negative for the last one. */
    function First(j: nat): nat
      requires Valid()
    {
      j * PerJob()
    }

    function Own(j: nat): int
      requires Valid() && j < jobs
    {
      if j < jobs - 1 then PerJob() else slices - First(j)
    }

    /** The window of slices a job decodes, its neighbours' borders included. */
    function Start(j: nat): int
      requires Valid() && j < jobs
    {
      First(j) - if j > 0 then overlap else 0
    }

    function Count(j: nat): int
      requires Valid() && j < jobs
    {
      (if j > 0 then overlap else 0) + Own(j) + if j < jobs - 1 then overlap else 0
    }

    predicate InWindow(j: nat, k: int)
      requires Valid() && j < jobs
    {
      Start(j) <= k < Start(j) + Count(j)
    }

    /** Every window reaches into its neighbours only, and no part of the table has a negative length. */
    predicate Fits()
      requires Valid()
    {
      && (jobs > 1 ==> PerJob() >= overlap && Own(jobs - 1) >= overlap)
      && (jobs > 2 ==> PerJob() >= 2 * overlap)
    }

    lemma FirstNext(j: nat)
      requires Valid()
      ensures First(j + 1) == First(j) + PerJob() && First(0) == 0
    {}

    lemma FirstMonotone(i: nat, j: nat)
      requires Valid() && i <= j
      ensures First(i) <= First(j) && (i < j ==> First(i) + PerJob() <= First(j))
    {
      Monotone(j, i, PerJob());
      Monotone(j, i + 1, PerJob());
    }
  }

  lemma CeilBounds(n: nat, d: nat)
    requires n > 0 && d > 0
    ensures (n + d - 1) / d > 0 && (n + d - 1) / d * d >= n && ((n + d - 1) / d - 1) * d < n
  {
    var q := (n + d - 1) / d;
    assert (n + d - 1) == q * d + (n + d - 1) % d;
    Monotone(0, q, d);
  }

  predicate IsOwn(a: Axis, j: nat, k: int)
    requires a.Valid() && j < a.jobs
  {
    a.First(j) <= k < a.First(j) + a.Own(j)
  }

  /** A job's window is the slices of the picture that are at most the overlap away from one that it delivers. */
  lemma WindowIsNear(a: Axis, j: nat, k: nat)
    requires a.Valid() && j < a.jobs && a.Own(j) > 0 && k < a.slices
    ensures a.InWindow(j, k) <==> exists m :: IsOwn(a, j, m) && m - a.overlap <= k <= m + a.overlap
  {
    hide a.First, a.PerJob;
    a.FirstNext(0);
    var first, last := a.First(j), a.First(j) + a.Own(j) - 1;
    var m := if k < first then first else if k > last then last else k;
    assert IsOwn(a, j, m);
    assert a.InWindow(j, k) ==> m - a.overlap <= k <= m + a.overlap;
    assert j == a.jobs - 1 ==> last == a.slices - 1;
  }

  /** Slice k goes to job j, and to the next job as well exactly when it is shared. */
  predicate Owned(a: Axis, k: int, j: nat, shared: bool)
    requires a.Valid() && j < a.jobs
  {
    && a.InWindow(j, k)
    && (forall i: nat :: i < j ==> !a.InWindow(i, k))
    && (shared <==> j + 1 < a.jobs && a.InWindow(j + 1, k))
    && (forall i: nat :: j + 1 < i < a.jobs ==> !a.InWindow(i, k))
  }

  /** The stretch of slices job j is the lowest owner of, and the point from which it shares them. */
  lemma Stretch(a: Axis, j: nat, k: nat)
    requires a.Valid() && a.Fits() && j < a.jobs && k < a.slices
    requires j > 0 ==> a.First(j) + a.overlap <= k
    requires j < a.jobs - 1 ==> k < a.First(j + 1) + a.overlap
    ensures Owned(a, k, j, j < a.jobs - 1 && k >= a.First(j + 1) - a.overlap)
  {
    hide a.First, a.PerJob;
    a.FirstNext(j);
    if j + 1 < a.jobs {
      a.FirstNext(j + 1);
      a.FirstMonotone(j + 1, a.jobs - 1);
      a.FirstMonotone(j, a.jobs - 1);
    }
    forall i: nat | i < a.jobs && (i < j || i > j + 1) ensures !a.InWindow(i, k) {
      Elsewhere(a, j, k, i);
    }
  }

  lemma Elsewhere(a: Axis, j: nat, k: nat, i: nat)
    requires a.Valid() && a.Fits() && j < a.jobs && k < a.slices && i < a.jobs && (i < j || i > j + 1)
    requires j > 0 ==> a.First(j) + a.overlap <= k
    requires j < a.jobs - 1 ==> k < a.First(j + 1) + a.overlap
    ensures !a.InWindow(i, k)
  {
    hide a.First, a.PerJob;
    if i < j {
      a.FirstNext(i);
      a.FirstMonotone(i + 1, j);
    } else {
      a.FirstNext(j + 1);
      a.FirstMonotone(j + 2, i);
    }
  }

  // ----- the table

  function TableByte(j: nat, shared: bool): (b: int) {
    128 + (if shared then 64 else 0) + j % 64
  }

  predicate Told(a: Axis, k: int, b: int)
    requires a.Valid()
  {
    128 <= b < 256 && b % 64 < a.jobs && Owned(a, k, b % 64, b / 64 % 2 == 1)
  }

  method Fill(t: array<int>, from: nat, to: int, b: int) returns (next: nat)
    requires from <= t.Length && to <= t.Length
    modifies t
    ensures next == if to > from then to else from
    ensures forall k :: 0 <= k < t.Length ==> t[k] == if from <= k < next then b else old(t[k])
  {
    next := from;
    while next < to
      invariant from <= next && (next <= to || next == from)
      invariant forall k :: 0 <= k < t.Length ==> t[k] == if from <= k < next then b else old(t[k])
    {
      t[next] := b;
      next := next + 1;
    }
  }

  /** The table's bytes are right up to slice x. */
  ghost predicate ToldUpTo(a: Axis, t: seq<int>, x: int)
    requires a.Valid()
  {
    x <= |t| && forall k :: 0 <= k < x ==> Told(a, k, t[k])
  }

  lemma ByteFields(j: nat, shared: bool)
    requires j < 64
    ensures var b := TableByte(j, shared); 128 <= b < 256 && b % 64 == j && (b / 64 % 2 == 1 <==> shared)
  {}

  /** Both stretches of job j: its own slices, and those it shares with the next job. */
  lemma StretchTold(a: Axis, t: seq<int>, j: nat, from: nat, mid: nat, next: nat)
    requires a.Valid() && a.Fits() && j < a.jobs && |t| == a.slices && from <= mid <= next <= |t|
    requires from == (if j > 0 then a.First(j) + a.overlap else 0)
    requires if j < a.jobs - 1 then mid == a.First(j + 1) - a.overlap && next == a.First(j + 1) + a.overlap
             else mid == next
    requires ToldUpTo(a, t, from)
    requires forall k :: from <= k < mid ==> t[k] == TableByte(j, false)
    requires forall k :: mid <= k < next ==> t[k] == TableByte(j, true)
    ensures ToldUpTo(a, t, next)
  {
    hide a.First, Owned, TableByte;
    ByteFields(j, false);
    ByteFields(j, true);
    forall k | from <= k < next ensures Told(a, k, t[k]) {
      Stretch(a, j, k);
    }
  }

  lemma Stretches(a: Axis, j: nat)
    requires a.Valid() && a.Fits() && j < a.jobs
    ensures a.Count(0) - 2 * a.overlap == a.First(1) - a.overlap || a.jobs == 1
    ensures j < a.jobs - 1 ==> a.First(j + 1) + a.overlap <= a.slices && a.First(j + 1) == a.First(j) + a.PerJob()
    ensures 0 < j < a.jobs - 1 ==> a.Count(j) == a.PerJob() + 2 * a.overlap && a.PerJob() >= 2 * a.overlap
    ensures 0 < j == a.jobs - 1 ==>
              a.Count(j) == a.slices - a.First(j) + a.overlap && a.First(j) + a.overlap <= a.slices
    ensures a.jobs == 1 ==> a.Count(0) == a.slices
    ensures a.First(0) == 0
  {
    hide a.PerJob;
    if j + 1 < a.jobs {
      a.FirstMonotone(j + 1, a.jobs - 1);
    }
    a.FirstNext(j);
    a.FirstNext(0);
  }

  /** The entries of one job, so many for itself alone and so many shared. */
  method FillJob(a: Axis, t: array<int>, j: nat, x: nat, alone: nat, shared: nat) returns (next: nat)
    requires a.Valid() && a.Fits() && j < a.jobs && t.Length == a.slices && x + alone + shared <= a.slices
    requires x == (if j > 0 then a.First(j) + a.overlap else 0)
    requires if j < a.jobs - 1 then x + alone == a.First(j + 1) - a.overlap && shared == 2 * a.overlap else shared == 0
    requires ToldUpTo(a, t[..], x)
    modifies t
    ensures next == x + alone + shared && ToldUpTo(a, t[..], next)
  {
    hide a.First, a.PerJob, Told, a.Fits, TableByte;
    ghost var was := t[..];
    var mid := Fill(t, x, x + alone, TableByte(j, false));
    next := Fill(t, mid, mid + shared, TableByte(j, true));
    forall k | 0 <= k < x ensures Told(a, k, t[k]) {
      assert t[k] == was[k];
    }
    StretchTold(a, t[..], j, x, mid, next);
  }

  /** Builds the table of one axis: what the jobs take fills it exactly, with nothing left over. */
  method BuildTable(a: Axis) returns (t: array<int>)
    requires a.Valid() && a.Fits()
    ensures fresh(t) && t.Length == a.slices
    ensures forall k :: 0 <= k < a.slices ==> Told(a, k, t[k])
  {
    hide a.First, a.PerJob, a.Count, Told;
    t := new int[a.slices];
    var x, o := 0, a.overlap;
    Stretches(a, 0);
    if a.jobs == 1 {
      x := FillJob(a, t, 0, 0, a.Count(0), 0);
    } else {
      Stretches(a, 1);
      x := FillJob(a, t, 0, 0, a.Count(0) - 2 * o, 2 * o);
      var j := 1;
      while j < a.jobs - 1
        invariant 1 <= j <= a.jobs - 1 && x == a.First(j) + o <= a.slices
        invariant ToldUpTo(a, t[..], x)
      {
        Stretches(a, j);
        x := FillJob(a, t, j, x, a.Count(j) - 4 * o, 2 * o);
        j := j + 1;
      }
      Stretches(a, j);
      x := FillJob(a, t, j, x, a.Count(j) - 2 * o, 0);
    }
    assert x == a.slices;
  }

  // ----- what the loops would write without those bounds

  function AtLeastZero(n: int): nat {
    if n > 0 then n else 0
  }

  /** The number of entries stored by the loops that build the table. */
  function Entries(a: Axis): int
    requires a.Valid()
  {
    if a.jobs == 1 then AtLeastZero(a.Count(0))
    else
      AtLeastZero(a.Count(0) - 2 * a.overlap) + 2 * a.overlap
      + (a.jobs - 2) * (AtLeastZero(a.PerJob() - 2 * a.overlap) + 2 * a.overlap)
      + AtLeastZero(a.Count(a.jobs - 1) - 2 * a.overlap)
  }

  /** n stretches of at least p entries each, of which 2 * o are shared. */
  lemma MiddleStretches(n: nat, p: nat, o: nat)
    ensures var e := AtLeastZero(p - 2 * o) + 2 * o;
            n * e >= n * p && (n * e == n * p <==> n == 0 || p >= 2 * o)
  {
    var e := AtLeastZero(p - 2 * o) + 2 * o;
    assert n * e - n * p == n * (e - p);
    if n > 0 && e > p {
      Monotone(e - p, 1, n);
    }
  }

  /** The loops store one entry a slice exactly when the windows fit, and otherwise run past the table. */
  lemma EntriesExact(a: Axis)
    requires a.Valid()
    ensures Entries(a) >= a.slices
    ensures Entries(a) == a.slices <==> a.Fits()
  {
    a.FirstNext(0);
    if a.jobs > 1 {
      LastFirst(a);
      MiddleStretches(a.jobs - 2, a.PerJob(), a.overlap);
    }
    hide a.PerJob, a.First;
  }

  lemma LastFirst(a: Axis)
    requires a.Valid() && a.jobs > 1
    ensures a.First(a.jobs - 1) == (a.jobs - 2) * a.PerJob() + a.PerJob()
  {}

  /** Nine slices in eight jobs do not fit: two slices a job leave nothing for the last ones. */
  lemma NineSlicesInEightJobs()
    ensures var a := Axis(9, 8, 1, 16, 144);
            && a.Valid() && !a.Fits() && Entries(a) == 15 && a.Own(7) == -5
  {
    var a := Axis(9, 8, 1, 16, 144);
    assert a.PerJob() == 2;
  }

  // ----- the output rectangles

  /** The side is covered by its slices, the last of them not beyond it. */
  predicate Covered(a: Axis)
    requires a.Valid()
  {
    && a.size > 0 && (a.slices - 1) * a.size < a.length <= a.slices * a.size
    && (a.jobs > 1 ==> a.Own(a.jobs - 1) > 0)
  }

  function Target(a: Axis, j: nat): nat
    requires a.Valid() && j < a.jobs
  {
    a.First(j) * a.size
  }

  function Min(x: int, y: int): int {
    if x < y then x else y
  }

  /** The samples past the side, in its last slice. */
  function PostMargin(a: Axis): nat
    requires a.size > 0
  {
    (a.size - a.length % a.size) % a.size
  }

  function OutputSize(a: Axis, j: nat): int
    requires a.Valid() && j < a.jobs && a.size > 0
  {
    Min(a.Own(j) * a.size - (if j < a.jobs - 1 then 0 else PostMargin(a)), a.length - Target(a, j))
  }

  lemma Margin(a: Axis)
    requires a.Valid() && Covered(a)
    ensures PostMargin(a) == a.slices * a.size - a.length
  {
    var m := a.slices * a.size - a.length;
    LastSlice(a.size, a.slices);
    hide a.Own;
    RoundedUp(a.slices, a.size, m);
  }

  lemma LastSlice(size: nat, n: nat)
    ensures (n - 1) * size == n * size - size
  {}

  lemma RoundedUp(n: nat, s: nat, m: nat)
    requires 0 <= m < s && n * s >= m
    ensures (s - (n * s - m) % s) % s == m
  {
    if m == 0 {
      MultipleDivides(n, s);
      MultipleDivides(1, s);
    } else {
      LastSlice(s, n);
      DivUnique(n * s - m, n - 1, s - m, s);
      DivUnique(m, 0, m, s);
    }
  }

  lemma OwnSamples(a: Axis, j: nat)
    requires a.Valid() && j < a.jobs
    ensures a.Own(j) * a.size == (if j + 1 < a.jobs then Target(a, j + 1) else a.slices * a.size) - Target(a, j)
  {
    hide a.First, a.PerJob;
    a.FirstNext(j);
    var f, n := a.First(j), if j + 1 < a.jobs then a.First(j + 1) else a.slices;
    assert (n - f) * a.size == n * a.size - f * a.size;
  }

  lemma Tops(a: Axis, j: nat)
    requires a.Valid() && Covered(a) && j < a.jobs
    ensures Target(a, j) < a.length
    ensures j + 1 < a.jobs ==> Target(a, j) < Target(a, j + 1) < a.length
  {
    hide a.PerJob, a.First;
    a.FirstMonotone(j, a.jobs - 1);
    a.FirstNext(0);
    Monotone(a.slices - 1, a.First(j), a.size);
    if j + 1 < a.jobs {
      a.FirstNext(j);
      a.FirstMonotone(j + 1, a.jobs - 1);
      Monotone(a.slices - 1, a.First(j + 1), a.size);
      Monotone(a.First(j + 1), a.First(j) + 1, a.size);
    }
  }

  /** Each job delivers up to where the next one begins, and the last one to the end of the side. */
  lemma OutputEnds(a: Axis, j: nat)
    requires a.Valid() && Covered(a) && j < a.jobs
    ensures OutputSize(a, j) > 0
    ensures Target(a, j) + OutputSize(a, j) == if j + 1 < a.jobs then Target(a, j + 1) else a.length
    ensures Target(a, 0) == 0
  {
    hide a.PerJob, a.First, PostMargin, Target, a.Own;
    Margin(a);
    OwnSamples(a, j);
    Tops(a, j);
    FirstTarget(a);
  }

  lemma FirstTarget(a: Axis)
    requires a.Valid()
    ensures Target(a, 0) == 0
  {}

  predicate Delivers(a: Axis, j: nat, x: int)
    requires a.Valid() && j < a.jobs && a.size > 0
  {
    Target(a, j) <= x < Target(a, j) + OutputSize(a, j)
  }

  lemma TargetMonotone(a: Axis, i: nat, j: nat)
    requires a.Valid() && i <= j < a.jobs
    ensures Target(a, i) <= Target(a, j)
  {
    a.FirstMonotone(i, j);
    if a.size > 0 {
      Monotone(a.First(j), a.First(i), a.size);
    }
  }

  /** Every sample of the side is delivered. */
  lemma {:induction false} Delivered(a: Axis, x: nat, j: nat) returns (i: nat)
    requires a.Valid() && Covered(a) && j < a.jobs && x < a.length && Target(a, j) <= x
    ensures i < a.jobs && Delivers(a, i, x)
    decreases a.jobs - j
  {
    hide Target, OutputSize;
    OutputEnds(a, j);
    if x < Target(a, j) + OutputSize(a, j) {
      i := j;
    } else {
      i := Delivered(a, x, j + 1);
    }
  }

  /** No sample is delivered by two jobs, and none beyond the side. */
  lemma DeliveredOnce(a: Axis, i: nat, j: nat, x: int)
    requires a.Valid() && Covered(a) && i < a.jobs && j < a.jobs && Delivers(a, i, x) && Delivers(a, j, x)
    ensures i == j && 0 <= x < a.length
  {
    hide Target, OutputSize;
    OutputEnds(a, i);
    OutputEnds(a, j);
    if i < j {
      TargetMonotone(a, i + 1, j);
    } else if j < i {
      TargetMonotone(a, j + 1, i);
    } else if j + 1 < a.jobs {
      Tops(a, j + 1);
    }
  }

  /** The chroma planes have half the width: the halves of the rectangles tile it when slices have even width. */
  lemma HalvesDeliver(a: Axis, j: nat, x: nat)
    requires a.Valid() && Covered(a) && j < a.jobs && a.size % 2 == 0
    ensures Target(a, j) / 2 <= x < Target(a, j) / 2 + OutputSize(a, j) / 2
        <==> x < a.length / 2 && Delivers(a, j, 2 * x)
  {
    hide OutputSize, Target, a.Own;
    OutputEnds(a, j);
    EvenTarget(a, j);
    if j + 1 < a.jobs {
      EvenTarget(a, j + 1);
      Tops(a, j + 1);
    }
    hide Covered, Axis.Valid;
  }

  /** The axis of the chroma planes: the same slices and jobs, samples by halves. */
  function HalfAxis(a: Axis): Axis {
    a.(size := a.size / 2, length := a.length / 2)
  }

  /** What is said of an axis holds for the chroma planes too, when slices and picture have even widths. */
  lemma ChromaAxis(a: Axis, j: nat)
    requires a.Valid() && Covered(a) && j < a.jobs && a.size % 2 == 0 && a.length % 2 == 0
    ensures Covered(HalfAxis(a)) && Target(a, j) == 2 * Target(HalfAxis(a), j)
    ensures OutputSize(a, j) == 2 * OutputSize(HalfAxis(a), j)
    ensures a.Fits() <==> HalfAxis(a).Fits()
    ensures HalfAxis(a).Start(j) == a.Start(j) && HalfAxis(a).Count(j) == a.Count(j)
  {
    var b := HalfAxis(a);
    TwiceAsMuch(a.slices - 1, b.size);
    TwiceAsMuch(a.slices, b.size);
    TwiceAsMuch(a.First(j), b.size);
    if j + 1 < a.jobs {
      TwiceAsMuch(a.First(j + 1), b.size);
    }
    hide Axis.PerJob, PostMargin;
    OutputEnds(a, j);
    OutputEnds(b, j);
  }

  lemma TwiceAsMuch(n: int, h: nat)
    ensures n * (2 * h) == 2 * (n * h)
  {}

  lemma EvenTarget(a: Axis, j: nat)
    requires a.Valid() && j < a.jobs && a.size % 2 == 0
    ensures Target(a, j) % 2 == 0
  {
    TwiceAsMuch(a.First(j), a.size / 2);
  }

  // ----- from the picture's side to the axis

  /** The side rounded up to whole lattice points of the coarsest level. */
  function Padded(length: nat, depth: nat): (p: nat)
    ensures Divides(Pow2(depth), p) && length <= p < length + Pow2(depth)
  {
    var g := Pow2(depth);
    var q := (length + g - 1) / g;
    assert length + g - 1 == q * g + (length + g - 1) % g;
    MultipleDivides(q, g);
    q * g
  }

  /** The axis that the parameters set up, when the padded side divides into equal slices. */
  function AxisOf(length: nat, depth: nat, slices: nat, jobs: nat, overlap: nat): Axis
    requires Divides(slices, Padded(length, depth))
  {
    Axis(slices, jobs, overlap, Padded(length, depth) / slices, length)
  }

  /** Slices that hold whole points of the coarsest level cover the side. */
  lemma SlicesCover(length: nat, depth: nat, slices: nat, jobs: nat, overlap: nat)
    requires length > 0 && Divides(slices, Padded(length, depth)) && 0 < jobs <= 64
    requires var a := AxisOf(length, depth, slices, jobs, overlap);
             Divides(Pow2(depth), a.size) && (jobs > 1 ==> a.Own(jobs - 1) > 0)
    ensures Covered(AxisOf(length, depth, slices, jobs, overlap))
  {
    var p, size, g := Padded(length, depth), Padded(length, depth) / slices, Pow2(depth);
    WholePart(p, slices);
    AtLeastOne(size, g);
    LastSlice(size, slices);
    hide Padded, Pow2, Divides, Axis.Own;
  }

  lemma WholePart(p: nat, n: nat)
    requires Divides(n, p)
    ensures n * (p / n) == p && (p > 0 ==> p / n > 0)
  {}

  lemma AtLeastOne(size: nat, g: nat)
    requires g > 0 && Divides(g, size) && size > 0
    ensures size >= g
  {
    var q := size / g;
    assert size == q * g;
    Monotone(q, 1, g);
  }

  /** The slice side that a job decodes with is the one its window was cut with exactly when less than
      one sample a slice was padded. */
  lemma DecodeSliceSide(length: nat, depth: nat, slices: nat)
    requires Divides(slices, Padded(length, depth))
    ensures (length + slices - 1) / slices == Padded(length, depth) / slices
        <==> Padded(length, depth) - length < slices
  {
    var p := Padded(length, depth);
    var q, c := p / slices, (length + slices - 1) / slices;
    assert p == q * slices;
    assert length + slices - 1 == c * slices + (length + slices - 1) % slices;
    if p - length < slices {
      DivUnique(length + slices - 1, q, length + slices - 1 - p, slices);
    }
  }
}
