/** The decoded picture does not depend on the grid of jobs, nor on the order in which they run. */
module Picture {
  import opened Lifting
  import opened Planes
  import opened Pyramid
  import opened JobGrid
  import opened SliceStream
  import opened Jobs
  import opened Fragments
  import Tiles
  import Output

  // ----- a job's window, in samples

  function SpanOf(a: Axis, j: nat, depth: nat): Tiles.Span
    requires a.Valid() && a.Fits() && j < a.jobs
  {
    WindowInside(a, j);
    Samples(a.size, a.Start(j), a.Start(j) + a.Count(j), a.slices, Pow2(depth))
  }

  function Samples(size: nat, from: nat, to: nat, side: nat, margin: nat): Tiles.Span {
    Tiles.Span(from * size, to * size, side * size, margin)
  }

  /** The windows fit, the slices cover the side, and they hold whole points of every level's lattice. */
  predicate Sliced(a: Axis, depth: nat) {
    a.Valid() && a.Fits() && Covered(a) && Divides(Pow2(depth), a.size)
  }

  /** And they overlap when there are several. */
  predicate Cut(a: Axis, depth: nat) {
    Sliced(a, depth) && (a.jobs > 1 ==> a.overlap > 0)
  }

  lemma MultipleOfMultiple(k: nat, s: nat, m: nat)
    requires Divides(m, s)
    ensures Divides(m, k * s)
  {
    var q := s / m;
    assert s == q * m;
    assert k * (q * m) == k * q * m;
    MultipleDivides(k * q, m);
  }

  lemma SomeSlices(a: Axis, j: nat)
    requires a.Valid() && a.Fits() && Covered(a) && j < a.jobs
    ensures a.Own(j) > 0 && a.Count(j) > 0
  {
    hide a.PerJob;
    a.FirstNext(0);
  }

  lemma SpanOk(a: Axis, j: nat, depth: nat)
    requires Sliced(a, depth) && j < a.jobs
    ensures SpanOf(a, j, depth).Valid()
    ensures SpanOf(a, j, depth).Len() == a.Count(j) * a.size
    ensures a.size > 0 && SpanOf(a, j, depth).side == a.slices * a.size
  {
    hide a.PerJob, a.Start, a.Count, a.Own;
    WindowInside(a, j);
    SomeSlices(a, j);
    var from, count, s := a.Start(j), a.Count(j), a.size;
    Monotone(from + count, from, s);
    Monotone(a.slices, from + count, s);
    Monotone(count, 1, s);
    assert (from + count) * s == from * s + count * s;
    MultipleOfMultiple(from, s, Pow2(depth));
    MultipleOfMultiple(from + count, s, Pow2(depth));
    MultipleOfMultiple(a.slices, s, Pow2(depth));
  }

  lemma Products(f: int, n: int, o: int, s: int)
    ensures (f - o) * s == f * s - o * s && (f - o + (o + n + o)) * s == (f + n) * s + o * s
    ensures (f + n) * s == f * s + n * s && (f - o + (o + n)) * s == (f + n) * s
    ensures (f + (n + o)) * s == (f + n) * s + o * s
  {}

  /** A window reaches past what its job delivers by at least the margin, or to the side of the picture. */
  lemma WindowEnds(a: Axis, j: nat, depth: nat)
    requires Cut(a, depth) && j < a.jobs
    ensures var v := SpanOf(a, j, depth);
            && (v.from == 0 || v.from + v.margin <= Target(a, j))
            && (v.to == v.side || Target(a, j) + OutputSize(a, j) <= v.to - v.margin)
            && v.from <= Target(a, j) && Target(a, j) + OutputSize(a, j) <= v.to <= v.side && a.length <= v.side
  {
    hide a.PerJob, PostMargin, OutputSize, Pow2, Divides, Axis.Fits;
    OutputEnds(a, j);
    OverlapReaches(a, depth);
    Sides(a, j);
    a.FirstNext(0);
    a.FirstNext(j);
    var f, n, o, s := a.First(j), a.Own(j), a.overlap, a.size;
    hide a.First;
    Products(f, n, o, s);
  }

  lemma Sides(a: Axis, j: nat)
    requires a.Valid() && a.Fits() && Covered(a) && j < a.jobs
    ensures (a.Start(j) + a.Count(j)) * a.size <= a.slices * a.size && a.length <= a.slices * a.size
  {
    hide a.PerJob, a.Start, a.Count, a.Own;
    WindowInside(a, j);
    Monotone(a.slices, a.Start(j) + a.Count(j), a.size);
  }

  lemma OverlapReaches(a: Axis, depth: nat)
    requires Cut(a, depth)
    ensures a.size >= Pow2(depth) && (a.jobs > 1 ==> a.overlap * a.size >= Pow2(depth))
  {
    hide a.PerJob, Axis.Fits, Axis.Own;
    var q := a.size / Pow2(depth);
    assert a.size == q * Pow2(depth);
    Monotone(q, 1, Pow2(depth));
    if a.jobs > 1 {
      Monotone(a.overlap, 1, a.size);
    }
  }

  /** What a job delivers is in the part of its window that is safe to deliver. */
  lemma DeliveredIsSafe(a: Axis, j: nat, depth: nat, x: nat)
    requires Cut(a, depth) && j < a.jobs && Delivers(a, j, x)
    ensures SpanOf(a, j, depth).Has(x) && SpanOf(a, j, depth).Safe(x)
  {
    hide SpanOf, Target, OutputSize;
    WindowEnds(a, j, depth);
  }

  // ----- from the slots of the jobs to their planes of coefficients

  /** A slice's coefficients for one component, a plane of its own. */
  ghost predicate SliceDecoder(d: Content -> Plane, h: nat, w: nat) {
    forall c :: Rect(d(c), h, w)
  }

  /** The samples along a window. */
  function WindowSide(a: Axis, j: nat): (n: nat)
    requires a.Valid() && j < a.jobs && a.Count(j) >= 0
    ensures n == a.Count(j) * a.size
  {
    var count: nat := a.Count(j);
    count * a.size
  }

  ghost function JobRow(s: Source, g: Grid, v: View, d: Content -> Plane, jy: nat, jx: nat, y: nat): (r: seq<int>)
    requires Shaped(g, v) && jy < g.ay.jobs && jx < g.ax.jobs && g.ay.size > 0 && g.ax.size > 0
    requires SliceDecoder(d, g.ay.size, g.ax.size) && Tall(g, jy, jx) && y < g.ay.Count(jy) * g.ay.size
    ensures |r| == g.ax.Count(jx) * g.ax.size
    ensures forall x: nat :: x < |r| ==> r[x] == JobSample(s, g, v, d, jy, jx, y, x)
  {
    seq(WindowSide(g.ax, jx), x requires 0 <= x < WindowSide(g.ax, jx) => JobSample(s, g, v, d, jy, jx, y, x))
  }

  /** The plane a job's slots decode to, slice by slice. */
  ghost function JobPlane(s: Source, g: Grid, v: View, d: Content -> Plane, jy: nat, jx: nat): (p: Plane)
    requires Shaped(g, v) && jy < g.ay.jobs && jx < g.ax.jobs && g.ay.size > 0 && g.ax.size > 0
    requires SliceDecoder(d, g.ay.size, g.ax.size) && Tall(g, jy, jx)
    ensures Rect(p, g.ay.Count(jy) * g.ay.size, g.ax.Count(jx) * g.ax.size)
  {
    seq(WindowSide(g.ay, jy), y requires 0 <= y < WindowSide(g.ay, jy) => JobRow(s, g, v, d, jy, jx, y))
  }

  ghost predicate Tall(g: Grid, jy: nat, jx: nat)
    requires g.Valid() && jy < g.ay.jobs && jx < g.ax.jobs
  {
    g.ay.Start(jy) >= 0 && g.ax.Start(jx) >= 0 && g.ay.Count(jy) >= 0 && g.ax.Count(jx) >= 0
  }

  lemma SliceOfSample(y: nat, n: nat, size: nat)
    requires size > 0 && y < n * size
    ensures y / size < n && y % size < size
  {
    assert y == y / size * size + y % size;
    SmallerFactor(y / size, n, size);
  }

  /** The slice that sample y of a job's window belongs to. */
  function SliceAt(a: Axis, j: nat, y: nat): (k: nat)
    requires a.Valid() && a.Fits() && j < a.jobs && a.size > 0 && y < a.Count(j) * a.size
    ensures k < a.slices && a.InWindow(j, k) && k == a.Start(j) + y / a.size
  {
    SliceInWindow(a, j, y);
    a.Start(j) + y / a.size
  }

  lemma SliceInWindow(a: Axis, j: nat, y: nat)
    requires a.Valid() && a.Fits() && j < a.jobs && a.size > 0 && y < a.Count(j) * a.size
    ensures var k := a.Start(j) + y / a.size; 0 <= k < a.slices && a.InWindow(j, k)
  {
    hide a.Start, a.Count;
    WindowInside(a, j);
    SliceOfSample(y, a.Count(j), a.size);
  }

  ghost function JobSample(s: Source, g: Grid, v: View, d: Content -> Plane, jy: nat, jx: nat, y: nat, x: nat): int
    requires Shaped(g, v) && jy < g.ay.jobs && jx < g.ax.jobs && g.ay.size > 0 && g.ax.size > 0
    requires SliceDecoder(d, g.ay.size, g.ax.size)
    requires y < g.ay.Count(jy) * g.ay.size && x < g.ax.Count(jx) * g.ax.size
  {
    var slot := Slot(g, v, jy, jx, SliceAt(g.ay, jy, y), SliceAt(g.ax, jx, x));
    d(s.Content(slot))[y % g.ay.size][x % g.ax.size]
  }

  /** The plane of the whole picture's coefficients, from the data alone. */
  ghost function PictureCoefficients(s: Source, g: Grid, whole: nat, d: Content -> Plane): (p: Plane)
    requires SliceDecoder(d, g.ay.size, g.ax.size)
    ensures Rect(p, g.ay.slices * g.ay.size, g.ax.slices * g.ax.size)
  {
    seq(g.ay.slices * g.ay.size, y requires 0 <= y < g.ay.slices * g.ay.size =>
      seq(g.ax.slices * g.ax.size, x requires 0 <= x < g.ax.slices * g.ax.size =>
        Sample(s, g, whole, d, y, x)))
  }

  ghost function Sample(s: Source, g: Grid, whole: nat, d: Content -> Plane, y: nat, x: nat): int
    requires SliceDecoder(d, g.ay.size, g.ax.size)
    requires y < g.ay.slices * g.ay.size && x < g.ax.slices * g.ax.size
  {
    SliceOfSample(y, g.ay.slices, g.ay.size);
    SliceOfSample(x, g.ax.slices, g.ax.size);
    d(s.Content(s.Slice(whole, g.Raster(y / g.ay.size, x / g.ax.size))))[y % g.ay.size][x % g.ax.size]
  }

  lemma CoefficientAt(s: Source, g: Grid, whole: nat, d: Content -> Plane, y: nat, x: nat)
    requires SliceDecoder(d, g.ay.size, g.ax.size)
    requires y < g.ay.slices * g.ay.size && x < g.ax.slices * g.ax.size
    ensures PictureCoefficients(s, g, whole, d)[y][x] == Sample(s, g, whole, d, y, x)
  {
    hide SliceDecoder, Sample;
  }

  lemma SameSample(s: Source, g: Grid, k: Grid, whole: nat, d: Content -> Plane, y: nat, x: nat)
    requires SamePictureShape(g, k) && SliceDecoder(d, g.ay.size, g.ax.size)
    requires y < g.ay.slices * g.ay.size && x < g.ax.slices * g.ax.size
    ensures Sample(s, g, whole, d, y, x) == Sample(s, k, whole, d, y, x)
  {
    hide s.Content, s.Slice;
  }

  /** The coefficients are the same for every grid that cuts the picture into the same slices. */
  lemma SameCoefficients(s: Source, g: Grid, k: Grid, whole: nat, d: Content -> Plane)
    requires SamePictureShape(g, k) && SliceDecoder(d, g.ay.size, g.ax.size)
    ensures PictureCoefficients(s, g, whole, d) == PictureCoefficients(s, k, whole, d)
  {
    hide SliceDecoder, PictureCoefficients, Sample;
    var h, w := g.ay.slices * g.ay.size, g.ax.slices * g.ax.size;
    var p, q := PictureCoefficients(s, g, whole, d), PictureCoefficients(s, k, whole, d);
    forall y: nat, x: nat | y < h && x < w ensures p[y][x] == q[y][x] {
      CoefficientAt(s, g, whole, d, y, x);
      CoefficientAt(s, k, whole, d, y, x);
      SameSample(s, g, k, whole, d, y, x);
    }
    SamePlane(p, q, h, w);
  }

  lemma SampleOfPicture(a: Axis, j: nat, depth: nat, y: nat)
    requires Cut(a, depth) && j < a.jobs && y < a.Count(j) * a.size
    ensures var v := SpanOf(a, j, depth);
            && v.from + y < a.slices * a.size
            && (v.from + y) / a.size == SliceAt(a, j, y) && (v.from + y) % a.size == y % a.size
  {
    hide a.Start, a.Count, a.Fits, Covered;
    SpanOk(a, j, depth);
    WindowInside(a, j);
    var k := a.Start(j);
    assert (k + y / a.size) * a.size == k * a.size + y / a.size * a.size;
    DivUnique(k * a.size + y, k + y / a.size, y % a.size, a.size);
  }

  /** When the slots hold the picture's slices, a job's plane is a window of the picture's coefficients. */
  lemma JobPlaneIsWindow(s: Source, g: Grid, v: View, whole: nat, d: Content -> Plane, jy: nat, jx: nat, depth: nat)
    requires g.Valid() && Shaped(g, v) && jy < g.ay.jobs && jx < g.ax.jobs && Cut(g.ay, depth) && Cut(g.ax, depth)
    requires SliceDecoder(d, g.ay.size, g.ax.size) && Tall(g, jy, jx) && HoldsContent(s, g, v, whole, g.Slices())
    requires SpanOf(g.ay, jy, depth).Valid() && SpanOf(g.ax, jx, depth).Valid()
    ensures JobPlane(s, g, v, d, jy, jx)
         == Tiles.Window(PictureCoefficients(s, g, whole, d), SpanOf(g.ay, jy, depth), SpanOf(g.ax, jx, depth))
  {
    hide Axis.Count, Axis.Start, Axis.Fits, Covered, SpanOf, JobPlane, JobSample;
    hide PictureCoefficients, Tiles.Window, HoldsContent, Shaped;
    hide SliceDecoder;
    SpanOk(g.ay, jy, depth);
    SpanOk(g.ax, jx, depth);
    var h, w := g.ay.Count(jy) * g.ay.size, g.ax.Count(jx) * g.ax.size;
    var vs, hs := SpanOf(g.ay, jy, depth), SpanOf(g.ax, jx, depth);
    var p, q := JobPlane(s, g, v, d, jy, jx), Tiles.Window(PictureCoefficients(s, g, whole, d), vs, hs);
    forall y: nat, x: nat | y < h && x < w ensures p[y][x] == q[y][x] {
      JobPlaneAt(s, g, v, d, jy, jx, y, x);
      SlotSample(s, g, v, whole, d, jy, jx, depth, y, x);
      WindowAt(PictureCoefficients(s, g, whole, d), vs, hs, y, x);
    }
    SamePlane(p, q, h, w);
  }

  lemma JobPlaneAt(s: Source, g: Grid, v: View, d: Content -> Plane, jy: nat, jx: nat, y: nat, x: nat)
    requires Shaped(g, v) && jy < g.ay.jobs && jx < g.ax.jobs && g.ay.size > 0 && g.ax.size > 0
    requires SliceDecoder(d, g.ay.size, g.ax.size) && Tall(g, jy, jx)
    requires y < g.ay.Count(jy) * g.ay.size && x < g.ax.Count(jx) * g.ax.size
    ensures JobPlane(s, g, v, d, jy, jx)[y][x] == JobSample(s, g, v, d, jy, jx, y, x)
  {
    hide Axis.Count, Axis.Start, Axis.Fits, JobSample;
  }

  lemma WindowAt(p: Plane, v: Tiles.Span, h: Tiles.Span, y: nat, x: nat)
    requires v.Valid() && h.Valid() && Rect(p, v.side, h.side) && y < v.Len() && x < h.Len()
    ensures Tiles.Window(p, v, h)[y][x] == p[v.from + y][h.from + x]
  {}

  lemma SlotSample(s: Source, g: Grid, v: View, whole: nat, d: Content -> Plane, jy: nat, jx: nat, depth: nat, y: nat,
                   x: nat)
    requires g.Valid() && Shaped(g, v) && jy < g.ay.jobs && jx < g.ax.jobs && Cut(g.ay, depth) && Cut(g.ax, depth)
    requires SliceDecoder(d, g.ay.size, g.ax.size) && HoldsContent(s, g, v, whole, g.Slices())
    requires y < g.ay.Count(jy) * g.ay.size && x < g.ax.Count(jx) * g.ax.size
    ensures var i, j := SpanOf(g.ay, jy, depth).from + y, SpanOf(g.ax, jx, depth).from + x;
            && i < g.ay.slices * g.ay.size && j < g.ax.slices * g.ax.size
            && JobSample(s, g, v, d, jy, jx, y, x) == PictureCoefficients(s, g, whole, d)[i][j]
  {
    hide Axis.Count, Axis.Start, Axis.Fits, Covered, SpanOf, SliceAt, g.Raster, Slot, Axis.PerJob, s.Content, s.Slice;
    SampleOfPicture(g.ay, jy, depth, y);
    SampleOfPicture(g.ax, jx, depth, x);
    g.RasterInside(SliceAt(g.ay, jy, y), SliceAt(g.ax, jx, x));
    assert g.InJob(jy, jx, SliceAt(g.ay, jy, y), SliceAt(g.ax, jx, x));
  }

  // ----- the output

  /** The part of its window that a job delivers, and where. */
  function PartOf(g: Grid, jy: nat, jx: nat): Output.Part
    requires g.Valid() && Covered(g.ay) && Covered(g.ax) && jy < g.ay.jobs && jx < g.ax.jobs
  {
    OutputEnds(g.ay, jy);
    OutputEnds(g.ax, jx);
    Output.Part(if jy > 0 then g.ay.overlap * g.ay.size else 0, if jx > 0 then g.ax.overlap * g.ax.size else 0,
                OutputSize(g.ay, jy), OutputSize(g.ax, jx), Target(g.ay, jy), Target(g.ax, jx))
  }

  lemma Offset(a: Axis, j: nat, depth: nat)
    requires Sliced(a, depth) && j < a.jobs
    ensures Target(a, j) - SpanOf(a, j, depth).from == if j > 0 then a.overlap * a.size else 0
  {
    a.FirstNext(0);
    var f, o, s := a.First(j), a.overlap, a.size;
    hide a.PerJob, a.First, a.Count, a.Fits, Covered, Pow2;
    Products(f, 0, o, s);
  }

  predicate Delivering(g: Grid, jy: nat, jx: nat, i: nat, j: nat)
    requires g.Valid() && Covered(g.ay) && Covered(g.ax) && jy < g.ay.jobs && jx < g.ax.jobs
  {
    Delivers(g.ay, jy, i) && Delivers(g.ax, jx, j)
  }

  /** The tile's sample for a place in the picture is the whole picture's. */
  lemma TilePixel(g: Grid, depth: nat, p: Plane, jy: nat, jx: nat, i: nat, j: nat)
    requires g.Valid() && Cut(g.ay, depth) && Cut(g.ax, depth) && jy < g.ay.jobs && jx < g.ax.jobs
    requires Rect(p, g.ay.slices * g.ay.size, g.ax.slices * g.ax.size) && Delivering(g, jy, jx, i, j)
    requires var v, h := SpanOf(g.ay, jy, depth), SpanOf(g.ax, jx, depth);
             v.Valid() && h.Valid() && LevelsOk(LeGall53, v.Len(), h.Len(), depth)
               && LevelsOk(LeGall53, v.side, h.side, depth)
    ensures var v, h, o := SpanOf(g.ay, jy, depth), SpanOf(g.ax, jx, depth), PartOf(g, jy, jx);
            var y, x := i - o.toY + o.y, j - o.toX + o.x;
            && o.y <= y < v.Len() && o.x <= x < h.Len()
            && Reconstruct(LeGall53, Tiles.Window(p, v, h), v.Len(), h.Len(), depth)[y][x]
               == Reconstruct(LeGall53, p, v.side, h.side, depth)[i][j]
  {
    hide Axis.Fits, Axis.Start, Axis.Count, Axis.Own, Axis.PerJob, Covered, LevelsOk, Target, OutputSize;
    Offset(g.ay, jy, depth);
    Offset(g.ax, jx, depth);
    DeliveredIsSafe(g.ay, jy, depth, i);
    DeliveredIsSafe(g.ax, jx, depth, j);
    SpanDeep(g, jy, jx, depth);
    hide SpanOf;
    Tiles.TileIndependence(p, SpanOf(g.ay, jy, depth), SpanOf(g.ax, jx, depth), depth, i, j);
  }

  lemma SpanDeep(g: Grid, jy: nat, jx: nat, depth: nat)
    requires g.Valid() && Sliced(g.ay, depth) && Sliced(g.ax, depth) && jy < g.ay.jobs && jx < g.ax.jobs
    ensures Tiles.Deep(SpanOf(g.ay, jy, depth), SpanOf(g.ax, jx, depth), depth)
    ensures var v, h := SpanOf(g.ay, jy, depth), SpanOf(g.ax, jx, depth);
            LevelsOk(LeGall53, v.side, h.side, depth) && LevelsOk(LeGall53, v.Len(), h.Len(), depth)
  {
    hide Axis.Fits, Axis.Start, Axis.Count, Axis.Own, Axis.PerJob, Covered, LevelsOk, Tiles.Span.Valid;
    SpanOk(g.ay, jy, depth);
    SpanOk(g.ax, jx, depth);
    MultipleDivides(1, Pow2(depth));
    Tiles.DeepLevels(SpanOf(g.ay, jy, depth), SpanOf(g.ax, jx, depth), depth);
  }

  // ----- all the jobs, in whatever order

  datatype Id = Id(y: nat, x: nat)

  /** Every job once. */
  ghost predicate Schedule(g: Grid, order: seq<Id>)
    requires g.Valid()
  {
    && (forall m :: 0 <= m < |order| ==> order[m].y < g.ay.jobs && order[m].x < g.ax.jobs)
    && (forall m, n :: 0 <= m < n < |order| ==> order[m] != order[n])
    && (forall jy: nat, jx: nat :: jy < g.ay.jobs && jx < g.ax.jobs ==> Id(jy, jx) in order)
  }

  /** The buffer of a job can take its window and its transforms, and its part of the output. */
  ghost predicate CanvasOk(g: Grid, depth: nat, c: Canvas, pic: Canvas, id: Id)
    requires g.Valid() && Cut(g.ay, depth) && Cut(g.ax, depth) && id.y < g.ay.jobs && id.x < g.ax.jobs
  {
    && c.Valid() && c.h == g.ay.Count(id.y) * g.ay.size && c.w == g.ax.Count(id.x) * g.ax.size
    && Deep(LeGall53, c, depth) && Output.PartOk(PartOf(g, id.y, id.x), c, pic) && c.mem != pic.mem
  }

  /** The reconstructed picture, in which no job appears. */
  ghost function Finished(g: Grid, depth: nat, bits: nat, p: Plane, i: nat, j: nat): int
    requires bits > 0 && Rect(p, g.ay.slices * g.ay.size, g.ax.slices * g.ax.size)
    requires LevelsOk(LeGall53, g.ay.slices * g.ay.size, g.ax.slices * g.ax.size, depth)
    requires i < g.ay.slices * g.ay.size && j < g.ax.slices * g.ax.size
  {
    Output.Shown(bits, Reconstruct(LeGall53, p, g.ay.slices * g.ay.size, g.ax.slices * g.ax.size, depth)[i][j])
  }

  /** The column that the last pass does not store: the last a job delivers, four short of its window's end. */
  predicate ColumnMissed(g: Grid, jy: nat, jx: nat, j: nat)
    requires g.Valid() && Covered(g.ay) && Covered(g.ax) && jy < g.ay.jobs && jx < g.ax.jobs
  {
    var o := PartOf(g, jy, jx);
    o.x + o.w == g.ax.Count(jx) * g.ax.size - 4 && j == o.toX + o.w - 1
  }

  lemma MissedIs(g: Grid, jy: nat, jx: nat, w: nat, j: nat)
    requires g.Valid() && Covered(g.ay) && Covered(g.ax) && jy < g.ay.jobs && jx < g.ax.jobs
    requires w == g.ax.Count(jx) * g.ax.size
    ensures var o := PartOf(g, jy, jx); Output.Missed(o, w, j - o.toX + o.x) <==> ColumnMissed(g, jy, jx, j)
  {
    hide PartOf;
  }

  /** The output when the job of that place has run, or has not. */
  ghost predicate PixelIs(g: Grid, depth: nat, bits: nat, p: Plane, id: Id, ran: bool, was: int, now: int, i: nat,
                          j: nat)
    requires g.Valid() && Cut(g.ay, depth) && Cut(g.ax, depth) && id.y < g.ay.jobs && id.x < g.ax.jobs
    requires bits > 0 && Rect(p, g.ay.slices * g.ay.size, g.ax.slices * g.ax.size)
    requires LevelsOk(LeGall53, g.ay.slices * g.ay.size, g.ax.slices * g.ax.size, depth)
    requires i < g.ay.slices * g.ay.size && j < g.ax.slices * g.ax.size
  {
    now == if ran && !ColumnMissed(g, id.y, id.x, j) then Finished(g, depth, bits, p, i, j) else was
  }

  /** What one job leaves of the output. */
  lemma JobPixels(g: Grid, depth: nat, bits: nat, p: Plane, id: Id, was: Plane, now: Plane, i: nat, j: nat)
    requires g.Valid() && Cut(g.ay, depth) && Cut(g.ax, depth) && id.y < g.ay.jobs && id.x < g.ax.jobs && bits > 0
    requires Rect(p, g.ay.slices * g.ay.size, g.ax.slices * g.ax.size)
    requires Rect(was, g.ay.length, g.ax.length) && Rect(now, g.ay.length, g.ax.length)
    requires i < g.ay.length && j < g.ax.length
    requires var v, h := SpanOf(g.ay, id.y, depth), SpanOf(g.ax, id.x, depth);
             v.Valid() && h.Valid() && LevelsOk(LeGall53, v.Len(), h.Len(), depth)
               && LevelsOk(LeGall53, v.side, h.side, depth)
    requires var v, h, o := SpanOf(g.ay, id.y, depth), SpanOf(g.ax, id.x, depth), PartOf(g, id.y, id.x);
             && o.y + o.h <= v.Len() && o.x + o.w <= h.Len()
             && Output.Pictured(now, was, g.ay.length, g.ax.length,
                                Reconstruct(LeGall53, Tiles.Window(p, v, h), v.Len(), h.Len(), depth), o, h.Len(), bits,
                                  o.y + o.h)
    ensures if Delivering(g, id.y, id.x, i, j) then PixelIs(g, depth, bits, p, id, true, was[i][j], now[i][j], i, j)
            else now[i][j] == was[i][j]
  {
    hide Axis.Fits, Axis.Start, Axis.Count, Axis.Own, Axis.PerJob, Covered, LevelsOk, Target;
    hide OutputSize, SpanOf, Output.Shown;
    SpanOk(g.ay, id.y, depth);
    SpanOk(g.ax, id.x, depth);
    MissedIs(g, id.y, id.x, SpanOf(g.ax, id.x, depth).Len(), j);
    if Delivering(g, id.y, id.x, i, j) {
      TilePixel(g, depth, p, id.y, id.x, i, j);
    }
  }

  /** The picture when the first k jobs of the order have run. */
  ghost predicate RanUpTo(g: Grid, depth: nat, bits: nat, p: Plane, order: seq<Id>, k: nat, was: Plane, now: Plane)
    requires g.Valid() && Cut(g.ay, depth) && Cut(g.ax, depth) && Schedule(g, order) && bits > 0
    requires Rect(p, g.ay.slices * g.ay.size, g.ax.slices * g.ax.size)
    requires LevelsOk(LeGall53, g.ay.slices * g.ay.size, g.ax.slices * g.ax.size, depth)
    requires Rect(was, g.ay.length, g.ax.length) && Rect(now, g.ay.length, g.ax.length)
  {
    forall m: nat, i: nat, j: nat ::
      m < |order| && i < g.ay.length && j < g.ax.length && Delivering(g, order[m].y, order[m].x, i, j) ==>
        PixelIs(g, depth, bits, p, order[m], m < k, was[i][j], now[i][j], i, j)
  }

  /** The picture after one job has run. */
  ghost predicate JobRan(g: Grid, depth: nat, bits: nat, p: Plane, id: Id, was: Plane, now: Plane)
    requires g.Valid() && Cut(g.ay, depth) && Cut(g.ax, depth) && id.y < g.ay.jobs && id.x < g.ax.jobs && bits > 0
    requires Rect(p, g.ay.slices * g.ay.size, g.ax.slices * g.ax.size)
    requires LevelsOk(LeGall53, g.ay.slices * g.ay.size, g.ax.slices * g.ax.size, depth)
    requires Rect(was, g.ay.length, g.ax.length) && Rect(now, g.ay.length, g.ax.length)
  {
    forall i: nat, j: nat :: i < g.ay.length && j < g.ax.length ==>
      if Delivering(g, id.y, id.x, i, j) then PixelIs(g, depth, bits, p, id, true, was[i][j], now[i][j], i, j)
      else now[i][j] == was[i][j]
  }

  lemma JobPicture(g: Grid, depth: nat, bits: nat, p: Plane, id: Id, was: Plane, now: Plane)
    requires g.Valid() && Cut(g.ay, depth) && Cut(g.ax, depth) && id.y < g.ay.jobs && id.x < g.ax.jobs && bits > 0
    requires Rect(p, g.ay.slices * g.ay.size, g.ax.slices * g.ax.size)
    requires LevelsOk(LeGall53, g.ay.slices * g.ay.size, g.ax.slices * g.ax.size, depth)
    requires Rect(was, g.ay.length, g.ax.length) && Rect(now, g.ay.length, g.ax.length)
    requires var v, h := SpanOf(g.ay, id.y, depth), SpanOf(g.ax, id.x, depth);
             v.Valid() && h.Valid() && LevelsOk(LeGall53, v.Len(), h.Len(), depth)
    requires var v, h, o := SpanOf(g.ay, id.y, depth), SpanOf(g.ax, id.x, depth), PartOf(g, id.y, id.x);
             && o.y + o.h <= v.Len() && o.x + o.w <= h.Len()
             && Output.Pictured(now, was, g.ay.length, g.ax.length,
                                Reconstruct(LeGall53, Tiles.Window(p, v, h), v.Len(), h.Len(), depth), o, h.Len(), bits,
                                  o.y + o.h)
    ensures JobRan(g, depth, bits, p, id, was, now)
  {
    hide Axis.Fits, Axis.Start, Axis.Count, Axis.Own, Axis.PerJob, Covered, LevelsOk, Target;
    hide OutputSize, SpanOf, PartOf;
    hide Output.Pictured, Reconstruct, PixelIs, Delivering;
    SpanOk(g.ay, id.y, depth);
    SpanOk(g.ax, id.x, depth);
    Longer(g.ay);
    Longer(g.ax);
    forall i: nat, j: nat | i < g.ay.length && j < g.ax.length
      ensures if Delivering(g, id.y, id.x, i, j) then PixelIs(g, depth, bits, p, id, true, was[i][j], now[i][j], i, j)
              else now[i][j] == was[i][j]
    {
      JobPixels(g, depth, bits, p, id, was, now, i, j);
    }
  }

  lemma Longer(a: Axis)
    requires a.Valid() && Covered(a)
    ensures a.length <= a.slices * a.size
  {}

  lemma OneMoreRan(g: Grid, depth: nat, bits: nat, p: Plane, order: seq<Id>, k: nat, was: Plane, mid: Plane, now: Plane)
    requires g.Valid() && Cut(g.ay, depth) && Cut(g.ax, depth) && Schedule(g, order) && bits > 0 && k < |order|
    requires Rect(p, g.ay.slices * g.ay.size, g.ax.slices * g.ax.size)
    requires LevelsOk(LeGall53, g.ay.slices * g.ay.size, g.ax.slices * g.ax.size, depth)
    requires Rect(was, g.ay.length, g.ax.length) && Rect(mid, g.ay.length, g.ax.length)
             && Rect(now, g.ay.length, g.ax.length)
    requires RanUpTo(g, depth, bits, p, order, k, was, mid)
    requires JobRan(g, depth, bits, p, order[k], mid, now)
    ensures RanUpTo(g, depth, bits, p, order, k + 1, was, now)
  {
    hide Axis.Fits, Axis.Start, Axis.Count, Axis.Own, Axis.PerJob, Covered, LevelsOk, Target;
    hide OutputSize, Finished, ColumnMissed;
    hide Delivers;
    Longer(g.ay);
    Longer(g.ax);
    forall m: nat, i: nat, j: nat | m < |order| && i < g.ay.length && j < g.ax.length
      && Delivering(g, order[m].y, order[m].x, i, j)
      ensures PixelIs(g, depth, bits, p, order[m], m < k + 1, was[i][j], now[i][j], i, j)
    {
      if m != k {
        Elsewhere(g, depth, order[m], order[k], i, j);
      }
    }
  }

  lemma Elsewhere(g: Grid, depth: nat, a: Id, b: Id, i: nat, j: nat)
    requires g.Valid() && Cut(g.ay, depth) && Cut(g.ax, depth) && a != b
    requires a.y < g.ay.jobs && a.x < g.ax.jobs && b.y < g.ay.jobs && b.x < g.ax.jobs
    requires Delivering(g, a.y, a.x, i, j)
    ensures !Delivering(g, b.y, b.x, i, j)
  {
    hide Axis.Fits, Axis.Start, Axis.Count, Axis.Own, Axis.PerJob, Covered, Delivers;
    if Delivering(g, b.y, b.x, i, j) {
      DeliveredOnce(g.ay, a.y, b.y, i);
      DeliveredOnce(g.ax, a.x, b.x, j);
      assert false;
    }
  }

  ghost predicate Loaded(g: Grid, depth: nat, c: Canvas, id: Id, p: Plane)
    requires g.Valid() && Cut(g.ay, depth) && Cut(g.ax, depth) && id.y < g.ay.jobs && id.x < g.ax.jobs && c.Valid()
    requires Rect(p, g.ay.slices * g.ay.size, g.ax.slices * g.ax.size)
    reads c.mem
  {
    var v, h := SpanOf(g.ay, id.y, depth), SpanOf(g.ax, id.x, depth);
    v.Valid() && h.Valid() && c.Snapshot() == Tiles.Window(p, v, h)
  }

  /** A job's part of the output is that of its tile, reconstructed by itself, whatever it was loaded with. */
  ghost predicate TileShown(g: Grid, depth: nat, bits: nat, id: Id, tile: Plane, was: Plane, now: Plane) {
    && g.Valid() && Cut(g.ay, depth) && Cut(g.ax, depth) && id.y < g.ay.jobs && id.x < g.ax.jobs && bits > 0
    && Rect(was, g.ay.length, g.ax.length) && Rect(now, g.ay.length, g.ax.length)
    && var v, h, o := SpanOf(g.ay, id.y, depth), SpanOf(g.ax, id.x, depth), PartOf(g, id.y, id.x);
       && v.Valid() && h.Valid() && Rect(tile, v.Len(), h.Len()) && LevelsOk(LeGall53, v.Len(), h.Len(), depth)
       && o.y + o.h <= v.Len() && o.x + o.w <= h.Len()
       && Output.Pictured(now, was, g.ay.length, g.ax.length, Reconstruct(LeGall53, tile, v.Len(), h.Len(), depth),
                          o, h.Len(), bits, o.y + o.h)
  }

  /** The transforms of a job whose plane has been loaded, and that delivers its part. */
  method RunJob(g: Grid, depth: nat, bits: nat, ghost p: Plane, c: Canvas, pic: Canvas, id: Id, part: Output.Part)
    requires g.Valid() && Cut(g.ay, depth) && Cut(g.ax, depth) && id.y < g.ay.jobs && id.x < g.ax.jobs
    requires bits > 0 && depth > 0 && CanvasOk(g, depth, c, pic, id) && pic.Valid() && part == PartOf(g, id.y, id.x)
    requires pic.h == g.ay.length && pic.w == g.ax.length
    requires Rect(p, g.ay.slices * g.ay.size, g.ax.slices * g.ax.size)
    requires LevelsOk(LeGall53, g.ay.slices * g.ay.size, g.ax.slices * g.ax.size, depth)
    modifies c.mem, pic.mem
    ensures old(Loaded(g, depth, c, id, p)) ==> JobRan(g, depth, bits, p, id, old(pic.Snapshot()), pic.Snapshot())
    ensures TileShown(g, depth, bits, id, old(c.Snapshot()), old(pic.Snapshot()), pic.Snapshot())
  {
    hide Axis.Fits, Axis.Start, Axis.Count, Axis.Own, Axis.PerJob, Covered, LevelsOk, Target;
    hide OutputSize, SpanOf, PartOf;
    hide Output.Pictured, Output.PartOk, Canvas.Snapshot, Canvas.Valid, Deep, Reconstruct, Tiles.Window, JobRan;
    SpanOk(g.ay, id.y, depth);
    SpanOk(g.ax, id.x, depth);
    SpanDeep(g, id.y, id.x, depth);
    PartInside(part, c, pic);
    ghost var was := pic.Snapshot();
    ghost var loaded := Loaded(g, depth, c, id, p);
    Output.DecodeTile(c, pic, part, bits, depth);
    if loaded {
      JobPicture(g, depth, bits, p, id, was, pic.Snapshot());
    }
  }

  lemma PartInside(o: Output.Part, c: Canvas, pic: Canvas)
    requires Output.PartOk(o, c, pic)
    ensures o.y + o.h <= c.h && o.x + o.w <= c.w
  {}

  /** In the end every sample of the output is the reconstructed picture's, but for the columns not stored. */
  lemma EveryPixel(g: Grid, depth: nat, bits: nat, p: Plane, order: seq<Id>, was: Plane, now: Plane, i: nat, j: nat)
    returns (id: Id)
    requires g.Valid() && Cut(g.ay, depth) && Cut(g.ax, depth) && Schedule(g, order) && bits > 0
    requires Rect(p, g.ay.slices * g.ay.size, g.ax.slices * g.ax.size)
    requires LevelsOk(LeGall53, g.ay.slices * g.ay.size, g.ax.slices * g.ax.size, depth)
    requires Rect(was, g.ay.length, g.ax.length) && Rect(now, g.ay.length, g.ax.length)
    requires RanUpTo(g, depth, bits, p, order, |order|, was, now) && i < g.ay.length && j < g.ax.length
    ensures i < g.ay.slices * g.ay.size && j < g.ax.slices * g.ax.size
    ensures id.y < g.ay.jobs && id.x < g.ax.jobs && Delivering(g, id.y, id.x, i, j)
    ensures now[i][j] == if ColumnMissed(g, id.y, id.x, j) then was[i][j] else Finished(g, depth, bits, p, i, j)
  {
    hide Axis.Fits, Axis.Start, Axis.Count, Axis.Own, Axis.PerJob, Covered, LevelsOk, Target;
    hide OutputSize, Finished, ColumnMissed, Delivers;
    Longer(g.ay);
    Longer(g.ax);
    OutputEnds(g.ay, 0);
    OutputEnds(g.ax, 0);
    var jy := Delivered(g.ay, i, 0);
    var jx := Delivered(g.ax, j, 0);
    id := Id(jy, jx);
    var m: nat :| m < |order| && order[m] == id;
    assert Delivering(g, order[m].y, order[m].x, i, j);
    assert PixelIs(g, depth, bits, p, order[m], m < |order|, was[i][j], now[i][j], i, j);
  }

  lemma NoneRan(g: Grid, depth: nat, bits: nat, p: Plane, order: seq<Id>, was: Plane)
    requires g.Valid() && Cut(g.ay, depth) && Cut(g.ax, depth) && Schedule(g, order) && bits > 0
    requires Rect(p, g.ay.slices * g.ay.size, g.ax.slices * g.ax.size)
    requires LevelsOk(LeGall53, g.ay.slices * g.ay.size, g.ax.slices * g.ax.size, depth)
    requires Rect(was, g.ay.length, g.ax.length)
    ensures RanUpTo(g, depth, bits, p, order, 0, was, was)
  {}

  predicate SamePictureShape(g: Grid, k: Grid) {
    && g.ay.slices == k.ay.slices && g.ay.size == k.ay.size && g.ay.length == k.ay.length
    && g.ax.slices == k.ax.slices && g.ax.size == k.ax.size && g.ax.length == k.ax.length
  }

  /** Two decoders that cut the picture into different jobs, and run them in different orders, agree. */
  lemma GridsAgree(g: Grid, k: Grid, depth: nat, bits: nat, p: Plane, orderG: seq<Id>, orderK: seq<Id>,
                   wasG: Plane, wasK: Plane, nowG: Plane, nowK: Plane, i: nat, j: nat) returns (a: Id, b: Id)
    requires g.Valid() && Cut(g.ay, depth) && Cut(g.ax, depth) && Schedule(g, orderG) && bits > 0
    requires k.Valid() && Cut(k.ay, depth) && Cut(k.ax, depth) && Schedule(k, orderK) && SamePictureShape(g, k)
    requires Rect(p, g.ay.slices * g.ay.size, g.ax.slices * g.ax.size)
    requires LevelsOk(LeGall53, g.ay.slices * g.ay.size, g.ax.slices * g.ax.size, depth)
    requires Rect(wasG, g.ay.length, g.ax.length) && Rect(nowG, g.ay.length, g.ax.length)
    requires Rect(wasK, g.ay.length, g.ax.length) && Rect(nowK, g.ay.length, g.ax.length)
    requires RanUpTo(g, depth, bits, p, orderG, |orderG|, wasG, nowG)
    requires RanUpTo(k, depth, bits, p, orderK, |orderK|, wasK, nowK)
    requires i < g.ay.length && j < g.ax.length
    ensures a.y < g.ay.jobs && a.x < g.ax.jobs && Delivering(g, a.y, a.x, i, j)
    ensures b.y < k.ay.jobs && b.x < k.ax.jobs && Delivering(k, b.y, b.x, i, j)
    ensures !ColumnMissed(g, a.y, a.x, j) && !ColumnMissed(k, b.y, b.x, j) ==> nowG[i][j] == nowK[i][j]
  {
    hide Axis.Valid, Axis.Fits, Cut, LevelsOk, RanUpTo, ColumnMissed, Schedule, Delivering;
    a := EveryPixel(g, depth, bits, p, orderG, wasG, nowG, i, j);
    b := EveryPixel(k, depth, bits, p, orderK, wasK, nowK, i, j);
  }
}
