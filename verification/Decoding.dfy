/** From the bytes of a picture to its samples: the jobs are set up, the slices are read, and every job decodes
    its slices and writes its part of the three output planes. */
module Decoding {
  import opened VlcMachine
  import opened VlcDecode
  import opened Lifting
  import opened Planes
  import opened Pyramid
  import opened Dequantiser
  import opened JobGrid
  import opened JobBuffers
  import opened SliceStream
  import opened SliceLoading
  import opened Jobs
  import opened Slices
  import opened Fragments
  import opened Picture
  import Tiles
  import Output

  // ----- the three planes

  /** The grid in samples of a component; the slices and the jobs are the same. */
  function PlaneGrid(g: Grid, c: nat): Grid {
    if c == 0 then g else Grid(g.ay, HalfAxis(g.ax))
  }

  lemma SameWindows(a: Axis, j: nat)
    requires a.Valid() && j < a.jobs
    ensures HalfAxis(a).Start(j) == a.Start(j) && HalfAxis(a).Count(j) == a.Count(j) && HalfAxis(a).Own(j) == a.Own(j)
    ensures HalfAxis(a).Fits() <==> a.Fits()
    ensures forall k :: HalfAxis(a).InWindow(j, k) <==> a.InWindow(j, k)
  {}

  lemma PlaneGridValid(g: Grid, c: nat)
    requires g.Valid()
    ensures PlaneGrid(g, c).Valid() && PlaneGrid(g, c).Slices() == g.Slices() && PlaneGrid(g, c).Jobs() == g.Jobs()
  {
    SameWindows(g.ax, 0);
  }

  /** Slots and their contents do not depend on the component. */
  lemma SameSlots(g: Grid, c: nat, v: View)
    requires g.Valid() && Shaped(g, v)
    ensures PlaneGrid(g, c).Valid() && Shaped(PlaneGrid(g, c), v)
    ensures forall jy: nat, jx: nat, sy: nat, sx: nat ::
              PlaneGrid(g, c).InJob(jy, jx, sy, sx) <==> g.InJob(jy, jx, sy, sx)
    ensures forall jy: nat, jx: nat, sy: nat, sx: nat :: g.InJob(jy, jx, sy, sx) ==>
              Slot(PlaneGrid(g, c), v, jy, jx, sy, sx) == Slot(g, v, jy, jx, sy, sx)
  {
    PlaneGridValid(g, c);
    forall j: nat | j < g.ax.jobs
      ensures PlaneGrid(g, c).ax.Start(j) == g.ax.Start(j) && PlaneGrid(g, c).ax.Count(j) == g.ax.Count(j)
      ensures forall k :: PlaneGrid(g, c).ax.InWindow(j, k) <==> g.ax.InWindow(j, k)
    {
      SameWindows(g.ax, j);
    }
    hide Axis.Start, Axis.Count, Axis.InWindow, Axis.Valid, Axis.Fits;
  }

  lemma SameContent(s: Source, g: Grid, c: nat, v: View, whole: nat, k: nat)
    requires g.Valid() && Shaped(g, v) && HoldsContent(s, g, v, whole, k)
    ensures PlaneGrid(g, c).Valid() && Shaped(PlaneGrid(g, c), v) && HoldsContent(s, PlaneGrid(g, c), v, whole, k)
  {
    SameSlots(g, c, v);
    hide Shaped, Slot, s.Content, s.Slice, Axis.InWindow, Axis.Valid, Axis.Fits;
  }

  /** The chroma planes are cut as the luma plane is, when the picture is of even width and the slices hold whole
      points of the coarsest level in half their width too. */
  lemma ChromaCut(a: Axis, depth: nat)
    requires Cut(a, depth) && a.length % 2 == 0 && Divides(Pow2(depth + 1), a.size)
    ensures Cut(HalfAxis(a), depth) && a.size % 2 == 0
  {
    HalfSize(a.size, Pow2(depth));
    ChromaAxis(a, 0);
    SameWindows(a, a.jobs - 1);
    hide Covered, Axis.Fits, Axis.Start, Axis.Count, Axis.Own, Target, OutputSize;
  }

  lemma HalfSize(size: nat, g: nat)
    requires g > 0 && Divides(2 * g, size)
    ensures size % 2 == 0 && Divides(g, size / 2)
  {
    var q := size / (2 * g);
    assert size == q * (2 * g) == 2 * (q * g);
    MultipleDivides(q, g);
  }

  // ----- what a job's slots decode to

  /** The bytes of a component. */
  function PartOfContent(content: Content, c: nat): seq<Byte> {
    if c < |content.parts| then content.parts[c] else []
  }

  /** A slice's samples of a component, h rows of w, each slice by itself. */
  function DecoderOf(q: int -> Matrix, depth: nat, c: nat, h: nat, w: nat): Content -> Plane {
    (content: Content) =>
      seq(h, y requires 0 <= y < h =>
        seq(w, x requires 0 <= x < w =>
          ValueOf(h, w, depth, 0, q(content.q), Coefficients(PartOfContent(content, c), h * w), y, x)))
  }

  lemma DecoderShape(q: int -> Matrix, depth: nat, c: nat, h: nat, w: nat)
    ensures SliceDecoder(DecoderOf(q, depth, c, h, w), h, w)
  {
    hide ValueOf, Coefficients;
  }

  lemma BlockIsPart(s: Source, r: Record, c: nat)
    requires c < 3
    ensures PartOfContent(s.Content(r), c) == BlockOf(s, r, c)
  {}

  /** The side of a slice that a job is decoded with. */
  function DecodeSide(a: Axis): nat
    requires a.Valid()
  {
    (a.length + a.slices - 1) / a.slices
  }

  /** The values of a component of a slice. */
  function ValuesOf(g: Grid, c: nat): (n: nat)
    ensures n == g.ay.size * Across(g.ax.size, c)
  {
    var h: nat, w: nat := g.ay.size, Across(g.ax.size, c);
    h * w
  }

  /** The work of a job: its records, and the sides computed for them. */
  function WorkOf(s: Source, g: Grid, id: Id, recs: seq<Record>, depth: nat, q: int -> Matrix): Work
    requires g.Valid() && id.y < g.ay.jobs && id.x < g.ax.jobs && Peopled(g.ay, id.y) && Peopled(g.ax, id.x)
  {
    Work(s, recs, g.ay.Count(id.y), g.ax.Count(id.x), DecodeSide(g.ay), DecodeSide(g.ax),
         [ValuesOf(g, 0), ValuesOf(g, 1), ValuesOf(g, 2)], depth, q)
  }

  lemma WorkIs(s: Source, g: Grid, id: Id, recs: seq<Record>, depth: nat, q: int -> Matrix, c: nat)
    requires g.Valid() && id.y < g.ay.jobs && id.x < g.ax.jobs && Peopled(g.ay, id.y) && Peopled(g.ax, id.x) && c < 3
    ensures var w := WorkOf(s, g, id, recs, depth, q);
            && w.s == s && w.recs == recs && w.ny == g.ay.Count(id.y) && w.nx == g.ax.Count(id.x)
            && w.height == DecodeSide(g.ay) && w.full == DecodeSide(g.ax) && w.Wide(c) == Across(DecodeSide(g.ax), c)
            && |w.sizes| == 3 && w.Size(c) == ValuesOf(g, c) && w.depth == depth && w.q == q
  {}

  /** The picture is cut right for each component. */
  ghost predicate Suits(g: Grid, depth: nat) {
    && g.Valid() && depth > 0 && Cut(g.ay, depth) && Cut(g.ax, depth) && Cut(HalfAxis(g.ax), depth)
    && g.ax.size % 2 == 0
  }

  /** The slices are decoded with the sides they were cut with. */
  predicate SameSides(g: Grid)
    requires g.Valid()
  {
    DecodeSide(g.ay) == g.ay.size && DecodeSide(g.ax) == g.ax.size
  }

  /** They are never decoded with longer ones. */
  lemma SideFits(a: Axis)
    requires a.Valid() && Covered(a)
    ensures DecodeSide(a) <= a.size
  {
    var n := a.length + a.slices - 1;
    assert n == n / a.slices * a.slices + n % a.slices;
    assert (a.size + 1) * a.slices == a.slices * a.size + a.slices;
    SmallerFactor(DecodeSide(a), a.size + 1, a.slices);
  }

  lemma SuitsPlane(g: Grid, depth: nat, c: nat)
    requires Suits(g, depth)
    ensures var k := PlaneGrid(g, c);
            k.Valid() && Cut(k.ay, depth) && Cut(k.ax, depth) && k.ax.size == Across(g.ax.size, c)
  {
    PlaneGridValid(g, c);
  }

  lemma EveryJobPeopled(g: Grid, depth: nat, id: Id)
    requires Suits(g, depth) && id.y < g.ay.jobs && id.x < g.ax.jobs
    ensures Peopled(g.ay, id.y) && Peopled(g.ax, id.x)
  {
    hide Axis.Count, Axis.Fits;
    SomeSlices(g.ay, id.y);
    SomeSlices(g.ax, id.x);
  }

  /** A job's slices hold as many values as are dequantised. */
  lemma WorkValid(s: Source, g: Grid, depth: nat, id: Id, recs: seq<Record>, q: int -> Matrix)
    requires Suits(g, depth) && id.y < g.ay.jobs && id.x < g.ax.jobs
    requires Peopled(g.ay, id.y) && Peopled(g.ax, id.x) && |recs| == g.ay.Count(id.y) * g.ax.Count(id.x)
    ensures WorkOf(s, g, id, recs, depth, q).Valid()
  {
    hide Axis.Count, Axis.Fits, Axis.Valid, Covered, DecodeSide;
    SideFits(g.ay);
    SideFits(g.ax);
    var w := WorkOf(s, g, id, recs, depth, q);
    forall c: nat | c < 3 ensures w.Used(c) <= w.Size(c) {
      LessProduct(w.height, g.ay.size, w.Wide(c), Across(g.ax.size, c));
    }
  }

  /** A job's components are ready for its work. */
  lemma JobReady(s: Source, g: Grid, depth: nat, id: Id, recs: seq<Record>, q: int -> Matrix, ps: seq<Component>)
    requires Suits(g, depth) && id.y < g.ay.jobs && id.x < g.ax.jobs
    requires AreComponents(ps, g.ay, id.y, g.ax, id.x) && |recs| == g.ay.Count(id.y) * g.ax.Count(id.x)
    ensures Peopled(g.ay, id.y) && Peopled(g.ax, id.x) && Ready(WorkOf(s, g, id, recs, depth, q), ps)
    ensures forall c: nat :: c < 3 ==> WindowPlane(g, id, c, ps[c].video)
  {
    hide Axis.Count, Axis.Fits, Axis.Valid, Covered, IsComponent, DecodeSide;
    EveryJobPeopled(g, depth, id);
    SideFits(g.ay);
    SideFits(g.ax);
    WorkValid(s, g, depth, id, recs, q);
    var w := WorkOf(s, g, id, recs, depth, q);
    forall c: nat | c < 3 ensures w.Fits(ps[c], c) && WindowPlane(g, id, c, ps[c].video) {
      SuitsPlane(g, depth, c);
      ComponentFits(ps[c], g.ay, id.y, g.ax, id.x, c);
      Roominess(ps[c], g, id, c);
      WindowHolds(g, id, w.height, w.full, c);
    }
  }

  lemma LessProduct(a: nat, b: nat, c: nat, d: nat)
    requires a <= b && c <= d
    ensures a * c <= b * d
  {
    assert b * d - a * c == (b - a) * d + a * (d - c);
  }

  /** Shorter slices do not reach past the window. */
  lemma WindowHolds(g: Grid, id: Id, height: nat, full: nat, c: nat)
    requires g.Valid() && id.y < g.ay.jobs && id.x < g.ax.jobs && g.ay.Count(id.y) >= 0 && g.ax.Count(id.x) >= 0
    requires height <= g.ay.size && full <= g.ax.size && g.ax.size % 2 == 0
    ensures g.ay.Count(id.y) * height <= g.ay.Count(id.y) * g.ay.size
    ensures Across(g.ax.Count(id.x) * full, c) <= g.ax.Count(id.x) * Across(g.ax.size, c)
  {
    hide Axis.Count, Axis.Fits, Axis.Valid;
    var n: nat := g.ax.Count(id.x);
    LessProduct(g.ay.Count(id.y), g.ay.Count(id.y), height, g.ay.size);
    LessProduct(n, n, full, g.ax.size);
    TwiceAsMuch(n, g.ax.size / 2);
  }

  lemma Roominess(p: Component, g: Grid, id: Id, c: nat)
    requires g.Valid() && id.y < g.ay.jobs && id.x < g.ax.jobs && IsComponent(p, g.ay, id.y, g.ax, id.x, c)
    requires p.video.w == g.ax.Count(id.x) * Across(g.ax.size, c) && Across(g.ax.size, c) > 0
    ensures p.scratch.Length >= p.size + 8 && p.video.w > 0
  {
    hide Axis.Count, Axis.Fits, Axis.Valid;
    Monotone(g.ax.Count(id.x), 1, Across(g.ax.size, c));
  }

  /** The record that a sample of the job's plane comes from. */
  ghost predicate RecordIs(k: Grid, v: View, id: Id, i: nat, j: nat, number: nat, n: nat) {
    && k.Valid() && Shaped(k, v) && id.y < k.ay.jobs && id.x < k.ax.jobs && k.ay.size > 0 && k.ax.size > 0
    && i < k.ay.Count(id.y) * k.ay.size && j < k.ax.Count(id.x) * k.ax.size && number < |v| && n < |v[number]|
    && var sy, sx := SliceAt(k.ay, id.y, i), SliceAt(k.ax, id.x, j);
       k.InJob(id.y, id.x, sy, sx) && Slot(k, v, id.y, id.x, sy, sx) == v[number][n]
  }

  lemma RecordOfSample(g: Grid, c: nat, v: View, id: Id, i: nat, j: nat)
    requires g.Valid() && Shaped(g, v) && id.y < g.ay.jobs && id.x < g.ax.jobs
    requires PlaneGrid(g, c).Valid() && Shaped(PlaneGrid(g, c), v)
    requires var k := PlaneGrid(g, c);
             && k.ay.size > 0 && k.ax.size > 0
             && i < k.ay.Count(id.y) * k.ay.size && j < k.ax.Count(id.x) * k.ax.size
    ensures var k := PlaneGrid(g, c);
            RecordIs(k, v, id, i, j, g.Number(id.y, id.x),
                     Number(g.ax.Count(id.x), Quo(i, k.ay.size), Quo(j, k.ax.size)))
  {
    SameWindows(g.ax, id.x);
    hide Axis.Count, Axis.Start, Axis.Fits, Axis.Valid;
    var k := PlaneGrid(g, c);
    SliceOfSample(i, k.ay.Count(id.y), k.ay.size);
    SliceOfSample(j, k.ax.Count(id.x), k.ax.size);
    IndexInside(k, id.y, id.x, SliceAt(k.ay, id.y, i), SliceAt(k.ax, id.x, j));
  }

  /** The sample a job is loaded with, when its slices were decoded as if each by itself. */
  lemma LoadedIsJobSample(s: Source, g: Grid, c: nat, v: View, id: Id, depth: nat, q: int -> Matrix,
                          recs: seq<Record>, before: seq<int>, i: nat, j: nat)
    requires Suits(g, depth) && Shaped(g, v) && id.y < g.ay.jobs && id.x < g.ax.jobs && c < 3
    requires g.Number(id.y, id.x) < |v| && recs == v[g.Number(id.y, id.x)]
    requires PlaneGrid(g, c).Valid() && Shaped(PlaneGrid(g, c), v) && Peopled(g.ay, id.y) && Peopled(g.ax, id.x)
    requires SameSides(g)
    requires var w, k := WorkOf(s, g, id, recs, depth, q), PlaneGrid(g, c);
             && w.Valid() && |before| == w.Size(c) && LoadedExactly(w, c, before)
             && i < k.ay.Count(id.y) * k.ay.size && j < k.ax.Count(id.x) * k.ax.size
             && k.ay.size == w.height > 0 && k.ax.size == w.Wide(c) > 0
             && SliceDecoder(DecoderOf(q, depth, c, k.ay.size, k.ax.size), k.ay.size, k.ax.size)
    ensures var w, k := WorkOf(s, g, id, recs, depth, q), PlaneGrid(g, c);
            var d, n := DecoderOf(q, depth, c, k.ay.size, k.ax.size), Number(w.nx, Quo(i, w.height), Quo(j, w.Wide(c)));
            && n < |recs|
            && PatchValue(w, c, n, before, i % w.height, j % w.Wide(c)) == JobSample(s, k, v, d, id.y, id.x, i, j)
  {
    WorkIs(s, g, id, recs, depth, q, c);
    hide Axis.Count, Axis.Start, Axis.Fits, Axis.Valid, Cut, SliceAt, Number, ValueOf, WorkOf, Suits, PlaneGrid;
    hide VlcDecode.Coefficients, Slot, Shaped, Source.Content, SliceDecoder, DecodeSide, ValuesOf, Work.Wide;
    var w, k := WorkOf(s, g, id, recs, depth, q), PlaneGrid(g, c);
    RecordOfSample(g, c, v, id, i, j);
    var n := Number(w.nx, i / w.height, j / w.Wide(c));
    assert PatchValue(w, c, n, before, i % w.height, j % w.Wide(c)) == ByItself(w, c, n, i % w.height, j % w.Wide(c));
    SliceSample(s, recs[n], q, depth, c, w.Size(c), w.height, w.Wide(c), i % w.height, j % w.Wide(c));
  }

  /** A sample of a slice, from the bytes of its component. */
  lemma SliceSample(s: Source, r: Record, q: int -> Matrix, depth: nat, c: nat, size: nat, h: nat, w: nat, y: nat,
                    x: nat)
    requires c < 3 && size == h * w && y < h && x < w
    ensures DecoderOf(q, depth, c, h, w)(s.Content(r))[y][x]
         == ValueOf(h, w, depth, 0, q(r.q), Coefficients(BlockOf(s, r, c), size), y, x)
  {
    hide Coefficients, ValueOf;
    BlockIsPart(s, r, c);
    ContentIndex(s, r);
  }

  lemma ContentIndex(s: Source, r: Record)
    ensures s.Content(r).q == r.q
  {}

  // ----- a picture whose slices are decoded as if each by itself

  /** The slice of the picture that is number n in a job's window. */
  function SliceOfJob(g: Grid, id: Id, n: nat): (k: nat)
    requires g.Valid() && id.y < g.ay.jobs && id.x < g.ax.jobs && n < g.ay.Count(id.y) * g.ax.Count(id.x)
    ensures k < g.Slices()
  {
    PlaceInWindow(g, id, n);
    g.Raster(g.ay.Start(id.y) + n / g.ax.Count(id.x), g.ax.Start(id.x) + n % g.ax.Count(id.x))
  }

  lemma PlaceInWindow(g: Grid, id: Id, n: nat)
    requires g.Valid() && id.y < g.ay.jobs && id.x < g.ax.jobs && n < g.ay.Count(id.y) * g.ax.Count(id.x)
    ensures g.ay.Start(id.y) >= 0 && g.ax.Start(id.x) >= 0 && g.ax.Count(id.x) > 0
    ensures InPlace(g, id, n, g.ay.Start(id.y) + n / g.ax.Count(id.x), g.ax.Start(id.x) + n % g.ax.Count(id.x))
  {
    hide Axis.Count, Axis.Start, Axis.Fits, Axis.Valid, InPlace;
    var ny, nx := g.ay.Count(id.y), g.ax.Count(id.x);
    WindowInside(g.ay, id.y);
    WindowInside(g.ax, id.x);
    RowAndColumn(n, ny, nx);
    IsInPlace(g, id, n, n / nx, n % nx);
  }

  /** Slice (sy, sx) is number n of the job's window. */
  predicate InPlace(g: Grid, id: Id, n: nat, sy: int, sx: int)
    requires g.Valid()
  {
    && 0 <= sy && 0 <= sx && g.InJob(id.y, id.x, sy, sx) && g.Raster(sy, sx) < g.Slices()
    && Index(g, id.y, id.x, sy, sx) == n
  }

  lemma IsInPlace(g: Grid, id: Id, n: nat, y: nat, x: nat)
    requires g.Valid() && id.y < g.ay.jobs && id.x < g.ax.jobs
    requires y < g.ay.Count(id.y) && x < g.ax.Count(id.x) && n == y * g.ax.Count(id.x) + x
    ensures InPlace(g, id, n, g.ay.Start(id.y) + y, g.ax.Start(id.x) + x)
  {
    hide Axis.Count, Axis.Start, Axis.Fits, Axis.Valid, g.Raster, Grid.Slices;
    WindowInside(g.ay, id.y);
    WindowInside(g.ax, id.x);
    g.RasterInside(g.ay.Start(id.y) + y, g.ax.Start(id.x) + x);
  }

  lemma RowAndColumn(n: nat, rows: int, nx: nat)
    requires n < rows * nx
    ensures nx > 0 && n / nx < rows && n % nx < nx && n / nx * nx + n % nx == n
  {
    assert nx > 0;
    SmallerFactor(n / nx, rows, nx);
  }

  /** The blocks of a component that a job decodes, from the data alone. */
  function JobBlocks(s: Source, g: Grid, whole: nat, id: Id, c: nat): (b: seq<seq<Byte>>)
    requires g.Valid() && id.y < g.ay.jobs && id.x < g.ax.jobs && c < 3 && Peopled(g.ay, id.y) && Peopled(g.ax, id.x)
    ensures |b| == g.ay.Count(id.y) * g.ax.Count(id.x)
    ensures forall n: nat :: n < |b| ==> b[n] == BlockOf(s, s.Slice(whole, SliceOfJob(g, id, n)), c)
  {
    seq(Records(g, id), n requires 0 <= n < Records(g, id) => BlockOf(s, s.Slice(whole, SliceOfJob(g, id, n)), c))
  }

  function Records(g: Grid, id: Id): (n: nat)
    requires g.Valid() && id.y < g.ay.jobs && id.x < g.ax.jobs && Peopled(g.ay, id.y) && Peopled(g.ax, id.x)
    ensures n == g.ay.Count(id.y) * g.ax.Count(id.x)
  {
    Times(g.ay.Count(id.y), g.ax.Count(id.x))
  }

  function Times(a: nat, b: nat): (n: nat)
    ensures n == a * b
  {
    a * b
  }

  /** In every job and every component, each slot that a block leaves alone was last written as zero; and slices are
      decoded with the sides they were cut with. */
  ghost predicate SettledPicture(s: Source, g: Grid, whole: nat) {
    && g.Valid() && SameSides(g)
    && forall id: Id, c: nat :: id.y < g.ay.jobs && id.x < g.ax.jobs && c < 3 ==> SettledJob(s, g, whole, id, c)
  }

  ghost predicate SettledJob(s: Source, g: Grid, whole: nat, id: Id, c: nat)
    requires g.Valid() && id.y < g.ay.jobs && id.x < g.ax.jobs && c < 3
  {
    && Peopled(g.ay, id.y) && Peopled(g.ax, id.x)
    && Settled(JobBlocks(s, g, whole, id, c), ValuesOf(g, c), ValuesOf(g, c))
  }

  /** The block of every component of every slice writes all its values. */
  ghost predicate CleanPicture(s: Source, g: Grid, whole: nat) {
    forall k: nat, c: nat :: k < g.Slices() && c < 3 ==>
      Clean(BlockOf(s, s.Slice(whole, k), c), ValuesOf(g, c))
  }

  /** Such a picture is settled whatever the grid. */
  lemma CleanIsSettled(s: Source, g: Grid, whole: nat, depth: nat)
    requires Suits(g, depth) && SameSides(g) && CleanPicture(s, g, whole)
    ensures SettledPicture(s, g, whole)
  {
    hide Axis.Count, Axis.Start, Axis.Fits, Axis.Valid, Cut, Clean, BlockOf, s.Slice, Skipped, Written, SliceOfJob;
    forall id: Id, c: nat | id.y < g.ay.jobs && id.x < g.ax.jobs && c < 3 ensures SettledJob(s, g, whole, id, c) {
      EveryJobPeopled(g, depth, id);
      var blocks, size := JobBlocks(s, g, whole, id, c), ValuesOf(g, c);
      forall n: nat, k: nat | n < |blocks| && k < size ensures !Skipped(blocks[n], size, k) {
        assert Clean(BlockOf(s, s.Slice(whole, SliceOfJob(g, id, n)), c), size);
        CleanIsNothingSkipped(blocks[n], size);
      }
    }
  }

  /** Record n of a job is that of a slice of the picture, with its content. */
  lemma RecordOfJob(s: Source, g: Grid, v: View, whole: nat, id: Id, n: nat)
    requires g.Valid() && Shaped(g, v) && id.y < g.ay.jobs && id.x < g.ax.jobs
             && HoldsContent(s, g, v, whole, g.Slices())
    requires n < g.ay.Count(id.y) * g.ax.Count(id.x)
    ensures g.Number(id.y, id.x) < |v| && n < |v[g.Number(id.y, id.x)]|
    ensures s.Content(v[g.Number(id.y, id.x)][n]) == s.Content(s.Slice(whole, SliceOfJob(g, id, n)))
  {
    hide Axis.Count, Axis.Start, Axis.Fits, Axis.Valid, s.Content, s.Slice, g.Raster, Index;
    PlaceInWindow(g, id, n);
    var nx := g.ax.Count(id.x);
    var sy, sx := g.ay.Start(id.y) + n / nx, g.ax.Start(id.x) + n % nx;
    IndexInside(g, id.y, id.x, sy, sx);
    assert Slot(g, v, id.y, id.x, sy, sx) == v[g.Number(id.y, id.x)][n];
    assert s.Content(Slot(g, v, id.y, id.x, sy, sx)) == s.Content(s.Slice(whole, g.Raster(sy, sx)));
  }

  /** The blocks of a job's slots are those of its slices. */
  lemma BlocksOfJob(s: Source, g: Grid, v: View, whole: nat, id: Id, depth: nat, q: int -> Matrix, c: nat)
    requires Suits(g, depth) && Shaped(g, v) && id.y < g.ay.jobs && id.x < g.ax.jobs && c < 3
    requires HoldsContent(s, g, v, whole, g.Slices())
    requires g.Number(id.y, id.x) < |v| && Peopled(g.ay, id.y) && Peopled(g.ax, id.x)
    requires |v[g.Number(id.y, id.x)]| == g.ay.Count(id.y) * g.ax.Count(id.x)
    ensures var w := WorkOf(s, g, id, v[g.Number(id.y, id.x)], depth, q);
            w.Blocks(c) == JobBlocks(s, g, whole, id, c) && w.Size(c) == ValuesOf(g, c)
  {
    WorkIs(s, g, id, v[g.Number(id.y, id.x)], depth, q, c);
    hide Axis.Count, Axis.Start, Axis.Fits, Axis.Valid, Cut, Shaped, HoldsContent, s.Content, s.Slice;
    hide BlockOf, SliceOfJob, DecodeSide, WorkOf, Suits, ValuesOf;
    var recs := v[g.Number(id.y, id.x)];
    var w := WorkOf(s, g, id, recs, depth, q);
    forall n: nat | n < |recs| ensures w.Blocks(c)[n] == JobBlocks(s, g, whole, id, c)[n] {
      RecordOfJob(s, g, v, whole, id, n);
      BlockIsPart(s, recs[n], c);
      BlockIsPart(s, s.Slice(whole, SliceOfJob(g, id, n)), c);
    }
  }

  /** The coefficients of a component of the picture, every slice decoded by itself. */
  ghost function PlaneOf(s: Source, g: Grid, whole: nat, depth: nat, q: int -> Matrix, c: nat): (p: Plane)
    ensures var k := PlaneGrid(g, c); Rect(p, k.ay.slices * k.ay.size, k.ax.slices * k.ax.size)
  {
    var k := PlaneGrid(g, c);
    DecoderShape(q, depth, c, k.ay.size, k.ax.size);
    PictureCoefficients(s, k, whole, DecoderOf(q, depth, c, k.ay.size, k.ax.size))
  }

  /** A component of a job whose slices have all been loaded. */
  ghost predicate JobLoaded(s: Source, g: Grid, c: nat, v: View, id: Id, depth: nat, q: int -> Matrix,
                            before: seq<int>, now: Plane, was: Plane)
  {
    && Suits(g, depth) && Shaped(g, v) && id.y < g.ay.jobs && id.x < g.ax.jobs && c < 3
    && g.Number(id.y, id.x) < |v| && Peopled(g.ay, id.y) && Peopled(g.ax, id.x)
    && WorkOf(s, g, id, v[g.Number(id.y, id.x)], depth, q).Loaded(c, now, was, before)
    && Rect(now, g.ay.Count(id.y) * g.ay.size, g.ax.Count(id.x) * Across(g.ax.size, c))
  }

  /** And loaded as if each slice had been decoded by itself. */
  ghost predicate JobHolds(s: Source, g: Grid, c: nat, v: View, id: Id, depth: nat, q: int -> Matrix,
                           before: seq<int>, now: Plane, was: Plane)
  {
    && JobLoaded(s, g, c, v, id, depth, q, before, now, was) && SameSides(g)
    && LoadedExactly(WorkOf(s, g, id, v[g.Number(id.y, id.x)], depth, q), c, before)
  }

  /** What the job is in its component's plane. */
  ghost predicate InPlane(g: Grid, c: nat, v: View, id: Id, depth: nat, q: int -> Matrix) {
    var k := PlaneGrid(g, c);
    && g.Valid() && k.Valid() && id.y < k.ay.jobs == g.ay.jobs && id.x < k.ax.jobs == g.ax.jobs
    && Shaped(k, v) && Tall(k, id.y, id.x)
    && k.ay.size == DecodeSide(g.ay) && k.ax.size == Across(DecodeSide(g.ax), c)
    && k.ay.Count(id.y) == g.ay.Count(id.y) && k.ax.Count(id.x) == g.ax.Count(id.x)
    && k.ay.size > 0 && k.ax.size > 0
    && SliceDecoder(DecoderOf(q, depth, c, k.ay.size, k.ax.size), k.ay.size, k.ax.size)
  }

  /** What a job holds, sample by sample. */
  lemma HeldSample(s: Source, g: Grid, c: nat, v: View, id: Id, depth: nat, q: int -> Matrix,
                   before: seq<int>, now: Plane, was: Plane, i: nat, j: nat)
    requires JobHolds(s, g, c, v, id, depth, q, before, now, was)
    requires i < g.ay.Count(id.y) * g.ay.size && j < g.ax.Count(id.x) * Across(g.ax.size, c)
    requires g.ay.size > 0 && Across(g.ax.size, c) > 0
    ensures var w := WorkOf(s, g, id, v[g.Number(id.y, id.x)], depth, q);
            && w.Valid() && |before| == w.Size(c) && w.height == g.ay.size && w.Wide(c) == Across(g.ax.size, c)
            && LoadedExactly(w, c, before) && i < |now| && j < |now[i]|
            && var n := Number(w.nx, Quo(i, w.height), Quo(j, w.Wide(c)));
               n < |w.recs| && now[i][j] == PatchValue(w, c, n, before, i % w.height, j % w.Wide(c))
  {
    WorkIs(s, g, id, v[g.Number(id.y, id.x)], depth, q, c);
    hide Axis.Count, Axis.Fits, Axis.Valid, Cut, Shaped, DecodeSide, LoadedExactly, WorkOf, Work.LoadedUpTo;
    hide Number, PatchValue, ValuesOf, Quo;
    var w := WorkOf(s, g, id, v[g.Number(id.y, id.x)], depth, q);
    LoadedValue(w, c, now, was, before, i, j);
  }

  lemma LoadedSample(s: Source, g: Grid, c: nat, v: View, id: Id, depth: nat, q: int -> Matrix,
                     before: seq<int>, now: Plane, was: Plane, i: nat, j: nat)
    requires JobHolds(s, g, c, v, id, depth, q, before, now, was)
    requires InPlane(g, c, v, id, depth, q)
    requires var k := PlaneGrid(g, c);
             && i < k.ay.Count(id.y) * k.ay.size && j < k.ax.Count(id.x) * k.ax.size && i < |now| && j < |now[i]|
    ensures var k := PlaneGrid(g, c);
            now[i][j] == JobPlane(s, k, v, DecoderOf(q, depth, c, k.ay.size, k.ax.size), id.y, id.x)[i][j]
  {
    hide JobPlane, JobSample, DecoderOf, Axis.Count, Axis.Start, Axis.Fits, Axis.Valid, Cut, Shaped;
    hide Tall, SliceDecoder, DecodeSide, PlaneGrid, LoadedExactly, WorkOf, Number, ValuesOf, PatchValue, Work.Wide, Quo;
    hide Work.Valid, Work.Size, Work.Loaded;
    var k := PlaneGrid(g, c);
    HeldSample(s, g, c, v, id, depth, q, before, now, was, i, j);
    LoadedIsJobSample(s, g, c, v, id, depth, q, v[g.Number(id.y, id.x)], before, i, j);
    JobPlaneAt(s, k, v, DecoderOf(q, depth, c, k.ay.size, k.ax.size), id.y, id.x, i, j);
  }

  lemma LoadedIsJobPlane(s: Source, g: Grid, c: nat, v: View, id: Id, depth: nat, q: int -> Matrix,
                         before: seq<int>, now: Plane, was: Plane)
    requires JobHolds(s, g, c, v, id, depth, q, before, now, was)
    requires InPlane(g, c, v, id, depth, q)
    ensures var k := PlaneGrid(g, c);
            now == JobPlane(s, k, v, DecoderOf(q, depth, c, k.ay.size, k.ax.size), id.y, id.x)
  {
    NowShape(s, g, c, v, id, depth, q, before, now, was);
    hide JobHolds, JobPlane, DecoderOf, Axis.Count, Axis.Start, Axis.Fits, Axis.Valid, Shaped, Tall;
    hide SliceDecoder, DecodeSide, PlaneGrid;
    var k := PlaneGrid(g, c);
    var p := JobPlane(s, k, v, DecoderOf(q, depth, c, k.ay.size, k.ax.size), id.y, id.x);
    var h, x := k.ay.Count(id.y) * k.ay.size, k.ax.Count(id.x) * k.ax.size;
    forall i: nat, j: nat | i < h && j < x ensures now[i][j] == p[i][j] {
      LoadedSample(s, g, c, v, id, depth, q, before, now, was, i, j);
    }
    SamePlane(now, p, h, x);
  }

  lemma NowShape(s: Source, g: Grid, c: nat, v: View, id: Id, depth: nat, q: int -> Matrix,
                 before: seq<int>, now: Plane, was: Plane)
    requires JobHolds(s, g, c, v, id, depth, q, before, now, was)
    ensures Rect(now, g.ay.Count(id.y) * DecodeSide(g.ay), g.ax.Count(id.x) * Across(DecodeSide(g.ax), c))
  {
    hide WorkOf, LoadedExactly, Work.Loaded;
  }

  lemma JobPlaneGrid(g: Grid, c: nat, v: View, id: Id, depth: nat, q: int -> Matrix)
    requires Suits(g, depth) && Shaped(g, v) && id.y < g.ay.jobs && id.x < g.ax.jobs && c < 3 && SameSides(g)
    ensures InPlane(g, c, v, id, depth, q)
    ensures Cut(PlaneGrid(g, c).ay, depth) && Cut(PlaneGrid(g, c).ax, depth)
  {
    hide Axis.Count, Axis.Start, Axis.Fits, Axis.Valid, Shaped, SliceDecoder, DecoderOf;
    var k := PlaneGrid(g, c);
    SuitsPlane(g, depth, c);
    SameSlots(g, c, v);
    SameWindows(g.ax, id.x);
    WindowInside(k.ay, id.y);
    WindowInside(k.ax, id.x);
    DecoderShape(q, depth, c, k.ay.size, k.ax.size);
  }

  /** A job whose slices have been loaded exactly holds its window of the picture's coefficients. */
  lemma JobIsLoaded(s: Source, g: Grid, c: nat, v: View, whole: nat, id: Id, depth: nat, q: int -> Matrix,
                    before: seq<int>, video: Canvas, was: Plane)
    requires video.Valid() && JobHolds(s, g, c, v, id, depth, q, before, video.Snapshot(), was)
    requires HoldsContent(s, g, v, whole, g.Slices())
    ensures var k := PlaneGrid(g, c); k.Valid() && Cut(k.ay, depth) && Cut(k.ax, depth)
    ensures Loaded(PlaneGrid(g, c), depth, video, id, PlaneOf(s, g, whole, depth, q, c))
  {
    JobPlaneGrid(g, c, v, id, depth, q);
    SameContent(s, g, c, v, whole, g.Slices());
    PlaneGridValid(g, c);
    hide Axis.Count, Axis.Start, Axis.Fits, Axis.Valid, Cut, Shaped, DecodeSide, JobPlane;
    hide PlaneGrid, SpanOf, HoldsContent;
    hide Canvas.Snapshot, Canvas.Valid, SliceDecoder, DecoderOf, Tall, PictureCoefficients;
    hide Tiles.Window, Work.LoadedUpTo, LoadedExactly;
    var k := PlaneGrid(g, c);
    LoadedIsJobPlane(s, g, c, v, id, depth, q, before, video.Snapshot(), was);
    SpanOk(k.ay, id.y, depth);
    SpanOk(k.ax, id.x, depth);
    JobPlaneIsWindow(s, k, v, whole, DecoderOf(q, depth, c, k.ay.size, k.ax.size), id.y, id.x, depth);
  }

  // ----- the buffers suffice

  /** Every window is wide enough for the row kernels at the coarsest level, and delivers five samples. */
  predicate Roomy(a: Axis, depth: nat)
    requires a.Valid()
  {
    forall j: nat :: j < a.jobs ==> a.Count(j) * a.size >= 3 * Pow2(depth) && a.Own(j) * a.size >= 5
  }

  lemma {:induction false} DeepEnough(c: Canvas, top: nat, depth: nat)
    requires depth <= top && c.h > 0 && Divides(Pow2(top), c.h) && Divides(Pow2(top), c.w) && c.w >= 3 * Pow2(top)
    ensures Deep(LeGall53, c, depth)
  {
    if depth > 0 {
      DeepEnough(c, top, depth - 1);
      FinerDivides(c.h, top, depth);
      FinerDivides(c.w, top, depth);
      Pow2Grows(depth, top);
      LongLine(c.h, Pow2(depth - 1), 2);
      LongLine(c.w, Pow2(depth - 1), 6);
    }
  }

  lemma {:induction false} Pow2Grows(j: nat, k: nat)
    requires j <= k
    ensures Pow2(j) <= Pow2(k)
  {
    if j < k {
      Pow2Grows(j, k - 1);
    }
  }

  /** A side that is so many times an even multiple of the spacing has so many points. */
  lemma LongLine(side: nat, s: nat, n: nat)
    requires s > 0 && side > 0 && Divides(2 * s, side) && (n > 2 ==> side >= n * s)
    ensures side / s % 2 == 0 && side / s >= 2 && (n > 2 ==> side / s >= n)
  {
    var q := side / (2 * s);
    assert side == q * (2 * s) == 2 * q * s;
    MultipleDivides(2 * q, s);
    if n > 2 {
      SmallerFactor(n - 1, 2 * q, s) by { Sums(n, s); }
    }
  }

  lemma Sums(n: nat, s: nat)
    requires s > 0
    ensures (n - 1) * s < n * s
  {
    assert (n - 1) * s == n * s - s;
  }

  lemma WindowDivides(a: Axis, j: nat, depth: nat)
    requires Cut(a, depth) && j < a.jobs && a.Count(j) > 0
    ensures Divides(Pow2(depth), a.Count(j) * a.size) && a.Count(j) * a.size > 0
  {
    hide Axis.Count, Axis.Fits;
    MultipleOfMultiple(a.Count(j), a.size, Pow2(depth));
    Monotone(a.Count(j), 1, a.size);
  }

  /** What a job delivers lies inside its window and inside the picture. */
  lemma PartInWindow(a: Axis, j: nat, depth: nat)
    requires Cut(a, depth) && j < a.jobs
    ensures var x := if j > 0 then a.overlap * a.size else 0;
            && OutputSize(a, j) > 0 && x + OutputSize(a, j) <= a.Count(j) * a.size
            && x + a.Own(j) * a.size <= a.Count(j) * a.size
            && Target(a, j) + OutputSize(a, j) <= a.length
  {
    Offset(a, j, depth);
    WindowEnds(a, j, depth);
    SpanOk(a, j, depth);
    OutputEnds(a, j);
    Tops(a, j);
    Parts(a, j);
    hide Axis.Count, Axis.Own, Axis.Fits, SpanOf, Target, OutputSize, Covered;
  }

  lemma Parts(a: Axis, j: nat)
    requires a.Valid() && j < a.jobs
    ensures (if j > 0 then a.overlap * a.size else 0) + a.Own(j) * a.size <= a.Count(j) * a.size
  {
    var o, n, s := a.overlap, a.Own(j), a.size;
    hide Axis.Own;
    ThreeParts(if j > 0 then o else 0, n, if j < a.jobs - 1 then o else 0, s);
  }

  lemma ThreeParts(x: nat, n: int, y: nat, s: nat)
    ensures (x + n + y) * s == x * s + n * s + y * s && y * s >= 0
  {}

  lemma CanvasSuffices(k: Grid, depth: nat, c: Canvas, pic: Canvas, id: Id)
    requires k.Valid() && depth > 0 && Cut(k.ay, depth) && Cut(k.ax, depth) && id.y < k.ay.jobs && id.x < k.ax.jobs
    requires c.Valid() && c.h == k.ay.Count(id.y) * k.ay.size && c.w == k.ax.Count(id.x) * k.ax.size && c.h > 0
    requires Roomy(k.ax, depth) && pic.h == k.ay.length && pic.w == k.ax.length && c.mem != pic.mem
    ensures CanvasOk(k, depth, c, pic, id)
  {
    hide Axis.Count, Axis.Own, Axis.Fits, SpanOf, Target, OutputSize, Covered, Canvas.Valid, Axis.Valid, Deep, Cut;
    assert Cut(k.ay, depth) && Cut(k.ax, depth);
    WindowsFull(k, id, depth);
    WindowDivides(k.ay, id.y, depth);
    WindowDivides(k.ax, id.x, depth);
    DeepEnough(c, depth, depth);
    PartInWindow(k.ay, id.y, depth);
    PartInWindow(k.ax, id.x, depth);
    EvenWidth(c.w, depth);
  }

  lemma WindowsFull(k: Grid, id: Id, depth: nat)
    requires k.Valid() && Cut(k.ay, depth) && Cut(k.ax, depth) && id.y < k.ay.jobs && id.x < k.ax.jobs
    ensures k.ay.Count(id.y) > 0 && k.ax.Count(id.x) > 0
  {
    SomeSlices(k.ay, id.y);
    SomeSlices(k.ax, id.x);
  }

  lemma EvenWidth(w: nat, depth: nat)
    requires depth > 0 && Divides(Pow2(depth), w) && w >= 3 * Pow2(depth)
    ensures w % 2 == 0 && w >= 6
  {
    FinerDivides(w, depth, 1);
    Pow2Grows(1, depth);
    assert Pow2(1) == 2;
  }

  // ----- one job

  ghost predicate Usable(g: Grid, depth: nat) {
    Suits(g, depth) && Roomy(g.ax, depth) && Roomy(HalfAxis(g.ax), depth)
  }

  /** Three output planes with memory of their own. */
  predicate OutputsOk(g: Grid, outs: seq<Canvas>) {
    && |outs| == 3
    && (forall c: nat :: c < 3 ==>
          outs[c].Valid() && outs[c].h == g.ay.length && outs[c].w == PlaneGrid(g, c).ax.length)
    && (forall c, d :: 0 <= c < d < 3 ==> outs[c].mem != outs[d].mem)
  }

  ghost function Outputs(outs: seq<Canvas>): set<object> {
    set o | o in outs :: o.mem
  }

  /** A component's output when one job has run. */
  ghost predicate PlaneRan(s: Source, g: Grid, whole: nat, depth: nat, bits: nat, q: int -> Matrix, c: nat, id: Id,
                           was: Plane, now: Plane)
  {
    var k := PlaneGrid(g, c);
    && k.Valid() && Cut(k.ay, depth) && Cut(k.ax, depth) && id.y < k.ay.jobs && id.x < k.ax.jobs && bits > 0
    && LevelsOk(LeGall53, k.ay.slices * k.ay.size, k.ax.slices * k.ax.size, depth)
    && Rect(was, k.ay.length, k.ax.length) && Rect(now, k.ay.length, k.ax.length)
    && JobRan(k, depth, bits, PlaneOf(s, g, whole, depth, q, c), id, was, now)
  }

  /** The picture's levels, whatever the component. */
  lemma PlaneLevels(g: Grid, depth: nat, c: nat)
    requires Suits(g, depth)
    ensures var k := PlaneGrid(g, c);
            && k.Valid() && Cut(k.ay, depth) && Cut(k.ax, depth) && k.ay == g.ay && k.ax.jobs == g.ax.jobs
            && LevelsOk(LeGall53, k.ay.slices * k.ay.size, k.ax.slices * k.ax.size, depth)
  {
    SuitsPlane(g, depth, c);
    SpanDeep(PlaneGrid(g, c), 0, 0, depth);
    hide LevelsOk, Cut;
  }

  /** The plane of a component is one that the transforms can take. */
  lemma ComponentSuffices(g: Grid, depth: nat, id: Id, p: Component, pic: Canvas, c: nat)
    requires Usable(g, depth) && id.y < g.ay.jobs && id.x < g.ax.jobs && c < 3
    requires IsComponent(p, g.ay, id.y, g.ax, id.x, c) && p.video.mem != pic.mem
    requires pic.h == g.ay.length && pic.w == PlaneGrid(g, c).ax.length
    ensures var k := PlaneGrid(g, c);
            && k.Valid() && Cut(k.ay, depth) && Cut(k.ax, depth) && id.y < k.ay.jobs && id.x < k.ax.jobs
            && CanvasOk(k, depth, p.video, pic, id)
    ensures p.video.Valid()
  {
    hide Axis.Count, Axis.Own, Axis.Fits, Axis.Valid, Covered, Canvas.Valid, Cut, IsComponent, CanvasOk, Roomy;
    SuitsPlane(g, depth, c);
    SameWindows(g.ax, id.x);
    var k := PlaneGrid(g, c);
    ComponentFits(p, g.ay, id.y, g.ax, id.x, c);
    WindowsFull(k, id, depth);
    WindowDivides(k.ay, id.y, depth);
    WindowDivides(k.ax, id.x, depth);
    CanvasSuffices(k, depth, p.video, pic, id);
  }

  /** A component's plane holds the job's window of the picture's coefficients. */
  ghost predicate VideoLoaded(s: Source, g: Grid, whole: nat, depth: nat, q: int -> Matrix, c: nat, video: Canvas,
                              id: Id)
    reads video.mem
  {
    var k := PlaneGrid(g, c);
    && k.Valid() && Cut(k.ay, depth) && Cut(k.ax, depth) && id.y < k.ay.jobs && id.x < k.ax.jobs && video.Valid()
    && Loaded(k, depth, video, id, PlaneOf(s, g, whole, depth, q, c))
  }

  /** What a component's plane and buffer hold. */
  ghost function VideoOf(p: Component): Plane
    reads p.video.mem
  {
    if p.video.Valid() then p.video.Snapshot() else []
  }

  ghost function ValuesIn(p: Component): seq<int>
    reads p.scratch
  {
    if p.size <= p.scratch.Length then p.scratch[..p.size] else []
  }

  ghost function Videos(ps: seq<Component>): (r: seq<Plane>)
    reads Buffers(ps)
    ensures |r| == |ps| && forall c: nat :: c < |r| ==> r[c] == VideoOf(ps[c])
  {
    seq(|ps|, c requires 0 <= c < |ps| reads Buffers(ps) => VideoOf(ps[c]))
  }

  ghost function Values(ps: seq<Component>): (r: seq<seq<int>>)
    reads Buffers(ps)
    ensures |r| == |ps| && forall c: nat :: c < |r| ==> r[c] == ValuesIn(ps[c])
  {
    seq(|ps|, c requires 0 <= c < |ps| reads Buffers(ps) => ValuesIn(ps[c]))
  }

  /** A component's output is that of its tile. */
  ghost predicate ComponentShown(g: Grid, depth: nat, bits: nat, c: nat, id: Id, tile: Plane, was: Plane, now: Plane) {
    TileShown(PlaneGrid(g, c), depth, bits, id, tile, was, now)
  }

  /** The rectangle that was set up for a component of a job is the part that the job delivers of that plane: of chroma,
      half as wide, and half as far across. */
  lemma AreaIsPart(g: Grid, depth: nat, id: Id, c: nat)
    requires Suits(g, depth) && id.y < g.ay.jobs && id.x < g.ax.jobs
    ensures var k, a := PlaneGrid(g, c), AreaOf(g.ay, id.y, g.ax, id.x, c);
            && k.Valid() && Covered(k.ay) && Covered(k.ax) && a.y >= 0 && a.x >= 0 && a.h >= 0 && a.w >= 0
            && a.toY >= 0 && a.toX >= 0 && PartOf(k, id.y, id.x) == Output.Part(a.y, a.x, a.h, a.w, a.toY, a.toX)
  {
    hide Axis.Fits, Axis.Own, Axis.PerJob, Axis.Valid, Target, OutputSize, Covered;
    SuitsPlane(g, depth, c);
    OutputEnds(g.ay, id.y);
    OutputEnds(g.ax, id.x);
    if c > 0 {
      HalfOutput(g.ax, id.x);
    }
  }

  lemma AreaOfComponent(p: Component, g: Grid, id: Id, c: nat)
    requires g.Valid() && id.y < g.ay.jobs && id.x < g.ax.jobs && IsComponent(p, g.ay, id.y, g.ax, id.x, c)
    ensures g.ay.size > 0 && g.ax.size > 0 && p.area == AreaOf(g.ay, id.y, g.ax, id.x, c)
  {}

  lemma HalfOutput(a: Axis, j: nat)
    requires a.Valid() && Covered(a) && Covered(HalfAxis(a)) && j < a.jobs && a.size % 2 == 0
    ensures Target(a, j) == 2 * Target(HalfAxis(a), j) && OutputSize(a, j) / 2 == OutputSize(HalfAxis(a), j)
    ensures a.overlap * a.size == 2 * (a.overlap * HalfAxis(a).size)
  {
    var b := HalfAxis(a);
    OutputEnds(a, j);
    OutputEnds(b, j);
    TwiceAsMuch(a.overlap, b.size);
    TwiceAsMuch(a.First(j), b.size);
    if j + 1 < a.jobs {
      TwiceAsMuch(a.First(j + 1), b.size);
    }
    hide Axis.PerJob, PostMargin, OutputSize;
  }

  /** The transforms of one component of a job. */
  method RunComponent(s: Source, g: Grid, p: Component, pic: Canvas, id: Id, c: nat, ghost whole: nat,
                      depth: nat, bits: nat, q: int -> Matrix)
    requires Usable(g, depth) && id.y < g.ay.jobs && id.x < g.ax.jobs && c < 3 && bits > 0
    requires IsComponent(p, g.ay, id.y, g.ax, id.x, c) && p.video.mem != pic.mem && pic.Valid()
    requires pic.h == g.ay.length && pic.w == PlaneGrid(g, c).ax.length
    modifies p.video.mem, pic.mem
    ensures old(VideoLoaded(s, g, whole, depth, q, c, p.video, id)) ==>
              PlaneRan(s, g, whole, depth, bits, q, c, id, old(pic.Snapshot()), pic.Snapshot())
    ensures ComponentShown(g, depth, bits, c, id, old(VideoOf(p)), old(pic.Snapshot()), pic.Snapshot())
  {
    hide Axis.Count, Axis.Own, Axis.Fits, Axis.Valid, Covered, Canvas.Valid, Cut, IsComponent;
    hide CanvasOk, Roomy, LevelsOk, Loaded, JobRan;
    hide PlaneGrid, Canvas.Snapshot, TileShown, AreaOf, PartOf;
    PlaneLevels(g, depth, c);
    ComponentSuffices(g, depth, id, p, pic, c);
    AreaIsPart(g, depth, id, c);
    AreaOfComponent(p, g, id, c);
    var part := Output.Part(p.area.y, p.area.x, p.area.h, p.area.w, p.area.toY, p.area.toX);
    RunJob(PlaneGrid(g, c), depth, bits, PlaneOf(s, g, whole, depth, q, c), p.video, pic, id, part);
  }

  /** The slices of a settled picture are loaded exactly. */
  lemma SettledJobHolds(s: Source, g: Grid, c: nat, v: View, whole: nat, id: Id, depth: nat, q: int -> Matrix,
                        before: seq<int>, now: Plane, was: Plane)
    requires JobLoaded(s, g, c, v, id, depth, q, before, now, was)
    requires HoldsContent(s, g, v, whole, g.Slices()) && SettledPicture(s, g, whole)
    ensures JobHolds(s, g, c, v, id, depth, q, before, now, was)
  {
    hide HoldsContent, Settled, LoadedExactly, Work.LoadedUpTo, Work.Blocks, JobBlocks, Axis.Count;
    hide Axis.Fits, Axis.Valid, Cut;
    assert SettledJob(s, g, whole, id, c);
    BlocksOfJob(s, g, v, whole, id, depth, q, c);
    hide Shaped, Suits;
    SettledLoadsExactly(WorkOf(s, g, id, v[g.Number(id.y, id.x)], depth, q), c, before);
  }

  /** A plane as large as its window. */
  predicate WindowPlane(g: Grid, id: Id, c: nat, video: Canvas)
    requires g.Valid() && id.y < g.ay.jobs && id.x < g.ax.jobs
  {
    video.h == g.ay.Count(id.y) * g.ay.size && video.w == g.ax.Count(id.x) * Across(g.ax.size, c)
  }

  lemma ReadyIsLoaded(s: Source, g: Grid, c: nat, v: View, id: Id, depth: nat, q: int -> Matrix,
                      ps: seq<Component>, before: seq<int>, was: Plane)
    requires Suits(g, depth) && Shaped(g, v) && id.y < g.ay.jobs && id.x < g.ax.jobs && c < 3
    requires g.Number(id.y, id.x) < |v| && Peopled(g.ay, id.y) && Peopled(g.ax, id.x)
    requires var w := WorkOf(s, g, id, v[g.Number(id.y, id.x)], depth, q);
             Ready(w, ps) && w.Loaded(c, ps[c].video.Snapshot(), was, before)
    requires WindowPlane(g, id, c, ps[c].video)
    ensures JobLoaded(s, g, c, v, id, depth, q, before, ps[c].video.Snapshot(), was)
  {
    hide Axis.Count, Axis.Fits, Axis.Valid, Suits, Shaped, Work.LoadedUpTo, Work.Valid, Canvas.Valid;
  }

  lemma SettledVideo(s: Source, g: Grid, c: nat, v: View, whole: nat, id: Id, depth: nat, q: int -> Matrix,
                   before: seq<int>, video: Canvas, was: Plane)
    requires video.Valid() && JobLoaded(s, g, c, v, id, depth, q, before, video.Snapshot(), was)
    requires HoldsContent(s, g, v, whole, g.Slices()) && SettledPicture(s, g, whole)
    ensures VideoLoaded(s, g, whole, depth, q, c, video, id)
  {
    hide Axis.Count, Axis.Fits, Axis.Valid, Shaped, HoldsContent, SettledPicture, PlaneOf, JobHolds;
    hide Loaded, Cut, Canvas.Valid;
    hide Canvas.Snapshot, Work.LoadedUpTo;
    SettledJobHolds(s, g, c, v, whole, id, depth, q, before, video.Snapshot(), was);
    JobIsLoaded(s, g, c, v, whole, id, depth, q, before, video, was);
  }

  lemma SettledIsLoaded(s: Source, g: Grid, v: View, whole: nat, id: Id, depth: nat, q: int -> Matrix,
                      ps: seq<Component>, before: seq<seq<int>>, was: seq<Plane>)
    requires Suits(g, depth) && Shaped(g, v) && id.y < g.ay.jobs && id.x < g.ax.jobs
    requires g.Number(id.y, id.x) < |v| && Peopled(g.ay, id.y) && Peopled(g.ax, id.x)
    requires HoldsContent(s, g, v, whole, g.Slices()) && SettledPicture(s, g, whole) && |before| == |was| == 3
    requires var w := WorkOf(s, g, id, v[g.Number(id.y, id.x)], depth, q);
             && Ready(w, ps)
             && forall c: nat :: c < 3 ==>
                  WindowPlane(g, id, c, ps[c].video) && w.Loaded(c, Videos(ps)[c], was[c], before[c])
    ensures forall c: nat :: c < 3 ==> VideoLoaded(s, g, whole, depth, q, c, ps[c].video, id)
  {
    hide Axis.Count, Axis.Fits, Axis.Valid, Shaped, HoldsContent, SettledPicture, Cut;
    hide Work.LoadedUpTo, Work.Valid, PlaneOf, PlaneGrid;
    hide JobLoaded, VideoLoaded, Canvas.Valid, Canvas.Snapshot, WorkOf, Ready, Work.Loaded, VideoOf, ValuesIn;
    ReadyPlanes(WorkOf(s, g, id, v[g.Number(id.y, id.x)], depth, q), ps);
    forall c: nat | c < 3 ensures VideoLoaded(s, g, whole, depth, q, c, ps[c].video, id) {
      ReadyIsLoaded(s, g, c, v, id, depth, q, ps, before[c], was[c]);
      SettledVideo(s, g, c, v, whole, id, depth, q, before[c], ps[c].video, was[c]);
    }
  }

  lemma ReadyPlanes(w: Work, ps: seq<Component>)
    requires Ready(w, ps)
    ensures w.Valid() && |ps| == 3 && forall c: nat :: c < 3 ==>
      && ps[c].video.Valid() && ps[c].size == w.Size(c) <= ps[c].scratch.Length
      && Videos(ps)[c] == ps[c].video.Snapshot() && Values(ps)[c] == ps[c].scratch[..ps[c].size]
      && |Values(ps)[c]| == w.Size(c) && Rect(Videos(ps)[c], ps[c].video.h, ps[c].video.w)
  {
    hide Work.Valid, Canvas.Valid, Canvas.Snapshot;
  }

  /** The planes of a job when its slices have been loaded, from what the planes and buffers held before. */
  ghost predicate JobLoads(s: Source, g: Grid, id: Id, v: View, depth: nat, q: int -> Matrix, was: seq<Plane>,
                           before: seq<seq<int>>, now: seq<Plane>)
  {
    && g.Valid() && id.y < g.ay.jobs && id.x < g.ax.jobs && Peopled(g.ay, id.y) && Peopled(g.ax, id.x)
    && g.Number(id.y, id.x) < |v| && |was| == |before| == |now| == 3
    && forall c: nat :: c < 3 ==>
         WorkOf(s, g, id, v[g.Number(id.y, id.x)], depth, q).Loaded(c, now[c], was[c], before[c])
  }

  method LoadPlanes(w: Work, ps: seq<Component>)
    requires Ready(w, ps)
    modifies Buffers(ps)
    ensures forall c: nat :: c < 3 ==> w.Loaded(c, Videos(ps)[c], old(Videos(ps))[c], old(Values(ps))[c])
  {
    hide Canvas.Valid, Canvas.Snapshot, Work.Valid, Work.LoadedUpTo, Work.Size, Buffers;
    ReadyPlanes(w, ps);
    LoadSlices(w, ps);
    ReadyPlanes(w, ps);
  }

  /** Loads a job's planes from its slots. */
  method LoadJob(s: Source, g: Grid, job: Job, id: Id, ghost v: View, ghost whole: nat, depth: nat, q: int -> Matrix)
    requires Suits(g, depth) && id.y < g.ay.jobs && id.x < g.ax.jobs && IsJob(g, job, id.y, id.x)
    requires Shaped(g, v) && g.Number(id.y, id.x) < |v| && job.coded[..] == v[g.Number(id.y, id.x)]
    modifies Buffers(job.components)
    ensures JobLoads(s, g, id, v, depth, q, old(Videos(job.components)), old(Values(job.components)),
                     Videos(job.components))
    ensures HoldsContent(s, g, v, whole, g.Slices()) && SettledPicture(s, g, whole) ==>
      forall c: nat :: c < 3 ==> VideoLoaded(s, g, whole, depth, q, c, job.components[c].video, id)
  {
    hide Axis.Count, Axis.Fits, Axis.Valid, AreComponents, VideoLoaded, HoldsContent;
    hide SettledPicture, Shaped, Cut, DecodeSide;
    hide PlaneGrid, Canvas.Snapshot, Canvas.Valid, Work.LoadedUpTo, Work.Valid, PlaneOf, Ready, WorkOf, JobLoads;
    hide VideoOf, ValuesIn, PlanesOf, Scratches, WindowPlane, Work.Loaded;
    var ps := job.components;
    var recs := job.coded[..];
    JobReady(s, g, depth, id, recs, q, ps);
    var w := WorkOf(s, g, id, recs, depth, q);
    ReadyPlanes(w, ps);
    ghost var was, before := Videos(ps), Values(ps);
    LoadPlanes(w, ps);
    AllLoaded(s, g, id, v, depth, q, w, was, before, Videos(ps));
    if HoldsContent(s, g, v, whole, g.Slices()) && SettledPicture(s, g, whole) {
      SettledIsLoaded(s, g, v, whole, id, depth, q, ps, before, was);
    }
  }

  lemma AllLoaded(s: Source, g: Grid, id: Id, v: View, depth: nat, q: int -> Matrix, w: Work,
                  was: seq<Plane>, before: seq<seq<int>>, now: seq<Plane>)
    requires g.Valid() && id.y < g.ay.jobs && id.x < g.ax.jobs && Peopled(g.ay, id.y) && Peopled(g.ax, id.x)
    requires g.Number(id.y, id.x) < |v| && |was| == |before| == |now| == 3
    requires w == WorkOf(s, g, id, v[g.Number(id.y, id.x)], depth, q)
    requires forall c: nat :: c < 3 ==> w.Loaded(c, now[c], was[c], before[c])
    ensures JobLoads(s, g, id, v, depth, q, was, before, now)
  {
    hide WorkOf, Work.Loaded, Axis.Count, Axis.Fits, Axis.Valid;
  }

  /** The three outputs when one job has run. */
  ghost predicate JobDone(s: Source, g: Grid, whole: nat, depth: nat, bits: nat, q: int -> Matrix, id: Id,
                          was: seq<Plane>, now: seq<Plane>)
  {
    |was| == |now| == 3 && forall c: nat :: c < 3 ==> PlaneRan(s, g, whole, depth, bits, q, c, id, was[c], now[c])
  }

  /** The three outputs are those of the job's tiles. */
  ghost predicate JobShown(g: Grid, depth: nat, bits: nat, id: Id, tiles: seq<Plane>, was: seq<Plane>, now: seq<Plane>)
  {
    |tiles| == |was| == |now| == 3
    && forall c: nat :: c < 3 ==> ComponentShown(g, depth, bits, c, id, tiles[c], was[c], now[c])
  }

  ghost function Pictures(g: Grid, outs: seq<Canvas>): (p: seq<Plane>)
    requires OutputsOk(g, outs)
    reads Outputs(outs)
    ensures |p| == 3 && forall c: nat :: c < 3 ==> p[c] == outs[c].Snapshot()
  {
    [outs[0].Snapshot(), outs[1].Snapshot(), outs[2].Snapshot()]
  }

  lemma MemoryApart(g: Grid, ps: seq<Component>, outs: seq<Canvas>, id: Id)
    requires g.Valid() && id.y < g.ay.jobs && id.x < g.ax.jobs && AreComponents(ps, g.ay, id.y, g.ax, id.x)
    requires OutputsOk(g, outs) && Buffers(ps) !! Outputs(outs)
    ensures |ps| == |outs| == 3
    ensures forall c: nat :: c < 3 ==>
      && IsComponent(ps[c], g.ay, id.y, g.ax, id.x, c) && outs[c].Valid()
      && outs[c].h == g.ay.length && outs[c].w == PlaneGrid(g, c).ax.length
      && ps[c].video.mem in Buffers(ps) && outs[c].mem in Outputs(outs)
    ensures forall c: nat, d: nat :: c < 3 && d < 3 ==> ps[c].video.mem != outs[d].mem
    ensures forall c: nat, d: nat :: c < d < 3 ==> ps[c].video.mem != ps[d].video.mem && outs[c].mem != outs[d].mem
  {
    hide IsComponent, Canvas.Valid, PlaneGrid;
    forall c: nat | c < 3 ensures ps[c].video.mem in Buffers(ps) && outs[c].mem in Outputs(outs) {
      assert ps[c] in ps && outs[c] in outs;
    }
  }

  /** A job's slices, and then its transforms. */
  method DecodeJob(s: Source, g: Grid, job: Job, id: Id, outs: seq<Canvas>, ghost v: View, ghost whole: nat,
                   depth: nat, bits: nat, q: int -> Matrix) returns (ghost tiles: seq<Plane>)
    requires Usable(g, depth) && id.y < g.ay.jobs && id.x < g.ax.jobs && IsJob(g, job, id.y, id.x) && bits > 0
    requires Shaped(g, v) && g.Number(id.y, id.x) < |v| && job.coded[..] == v[g.Number(id.y, id.x)]
    requires OutputsOk(g, outs) && Buffers(job.components) !! Outputs(outs)
    modifies Buffers(job.components), Outputs(outs)
    ensures HoldsContent(s, g, v, whole, g.Slices()) && SettledPicture(s, g, whole) ==>
      JobDone(s, g, whole, depth, bits, q, id, old(Pictures(g, outs)), Pictures(g, outs))
    ensures JobLoads(s, g, id, v, depth, q, old(Videos(job.components)), old(Values(job.components)), tiles)
    ensures JobShown(g, depth, bits, id, tiles, old(Pictures(g, outs)), Pictures(g, outs))
  {
    hide Axis.Count, Axis.Fits, Axis.Valid, VideoLoaded, HoldsContent, SettledPicture, Shaped, Cut;
    hide DecodeSide, IsComponent, Roomy, OutputsOk, JobDone, JobShown, Pictures, Videos;
    hide PlaneGrid, Canvas.Snapshot, Canvas.Valid, PlaneOf, Ready, WorkOf, PlaneRan, JobLoads, ComponentShown;
    var ps := job.components;
    LoadJob(s, g, job, id, v, whole, depth, q);
    tiles := Videos(ps);
    RunComponents(s, g, ps, id, outs, whole, depth, bits, q);
  }

  /** The transforms of the three components. */
  method RunComponents(s: Source, g: Grid, ps: seq<Component>, id: Id, outs: seq<Canvas>, ghost whole: nat,
                       depth: nat, bits: nat, q: int -> Matrix)
    requires Usable(g, depth) && id.y < g.ay.jobs && id.x < g.ax.jobs && AreComponents(ps, g.ay, id.y, g.ax, id.x)
    requires OutputsOk(g, outs) && Buffers(ps) !! Outputs(outs) && bits > 0
    modifies Buffers(ps), Outputs(outs)
    ensures old(forall c: nat :: c < 3 ==> VideoLoaded(s, g, whole, depth, q, c, ps[c].video, id)) ==>
      JobDone(s, g, whole, depth, bits, q, id, old(Pictures(g, outs)), Pictures(g, outs))
    ensures JobShown(g, depth, bits, id, old(Videos(ps)), old(Pictures(g, outs)), Pictures(g, outs))
  {
    hide Axis.Count, Axis.Fits, Axis.Valid, VideoLoaded, Cut, IsComponent, Roomy, VideoOf;
    hide PlaneGrid, Canvas.Snapshot, Canvas.Valid, PlaneOf, PlaneRan, ComponentShown, JobDone, JobShown;
    MemoryApart(g, ps, outs, id);
    hide OutputsOk, AreComponents, Buffers, Outputs;
    ghost var was, tiles := Pictures(g, outs), Videos(ps);
    ghost var loaded := forall c: nat :: c < 3 ==> VideoLoaded(s, g, whole, depth, q, c, ps[c].video, id);
    RunComponent(s, g, ps[0], outs[0], id, 0, whole, depth, bits, q);
    RunComponent(s, g, ps[1], outs[1], id, 1, whole, depth, bits, q);
    RunComponent(s, g, ps[2], outs[2], id, 2, whole, depth, bits, q);
    AllShown(g, depth, bits, id, tiles, was, Pictures(g, outs));
    if loaded {
      AllDone(s, g, whole, depth, bits, q, id, was, Pictures(g, outs));
    }
  }

  lemma AllShown(g: Grid, depth: nat, bits: nat, id: Id, tiles: seq<Plane>, was: seq<Plane>, now: seq<Plane>)
    requires |tiles| == |was| == |now| == 3
    requires ComponentShown(g, depth, bits, 0, id, tiles[0], was[0], now[0])
    requires ComponentShown(g, depth, bits, 1, id, tiles[1], was[1], now[1])
    requires ComponentShown(g, depth, bits, 2, id, tiles[2], was[2], now[2])
    ensures JobShown(g, depth, bits, id, tiles, was, now)
  {
    hide ComponentShown;
  }

  lemma AllDone(s: Source, g: Grid, whole: nat, depth: nat, bits: nat, q: int -> Matrix, id: Id,
                was: seq<Plane>, now: seq<Plane>)
    requires |was| == |now| == 3
    requires PlaneRan(s, g, whole, depth, bits, q, 0, id, was[0], now[0])
    requires PlaneRan(s, g, whole, depth, bits, q, 1, id, was[1], now[1])
    requires PlaneRan(s, g, whole, depth, bits, q, 2, id, was[2], now[2])
    ensures JobDone(s, g, whole, depth, bits, q, id, was, now)
  {
    hide PlaneRan;
  }

  // ----- all the jobs

  /** The three outputs when the first n jobs of an order have run. */
  ghost predicate PlanesRan(s: Source, g: Grid, whole: nat, depth: nat, bits: nat, q: int -> Matrix, order: seq<Id>,
                            n: nat, was: seq<Plane>, now: seq<Plane>)
  {
    |was| == |now| == 3 && forall c: nat :: c < 3 ==>
        PlaneRanUpTo(s, g, whole, depth, bits, q, c, order, n, was[c], now[c])
  }

  ghost predicate PlaneRanUpTo(s: Source, g: Grid, whole: nat, depth: nat, bits: nat, q: int -> Matrix, c: nat,
                               order: seq<Id>, n: nat, was: Plane, now: Plane)
  {
    var k := PlaneGrid(g, c);
    && k.Valid() && Cut(k.ay, depth) && Cut(k.ax, depth) && Schedule(k, order) && bits > 0 && n <= |order|
    && LevelsOk(LeGall53, k.ay.slices * k.ay.size, k.ax.slices * k.ax.size, depth)
    && Rect(was, k.ay.length, k.ax.length) && Rect(now, k.ay.length, k.ax.length)
    && RanUpTo(k, depth, bits, PlaneOf(s, g, whole, depth, q, c), order, n, was, now)
  }

  lemma OneMorePlane(s: Source, g: Grid, whole: nat, depth: nat, bits: nat, q: int -> Matrix, c: nat,
                     order: seq<Id>, n: nat, was: Plane, mid: Plane, now: Plane)
    requires n < |order| && PlaneRanUpTo(s, g, whole, depth, bits, q, c, order, n, was, mid)
    requires PlaneRan(s, g, whole, depth, bits, q, c, order[n], mid, now)
    ensures PlaneRanUpTo(s, g, whole, depth, bits, q, c, order, n + 1, was, now)
  {
    hide PlaneOf, Cut, LevelsOk, RanUpTo, JobRan, Axis.Valid, Axis.Fits, Schedule;
    OneMoreRan(PlaneGrid(g, c), depth, bits, PlaneOf(s, g, whole, depth, q, c), order, n, was, mid, now);
  }

  lemma NoPlaneRan(s: Source, g: Grid, whole: nat, depth: nat, bits: nat, q: int -> Matrix, order: seq<Id>,
                   outs: seq<Canvas>)
    requires Usable(g, depth) && Schedule(g, order) && OutputsOk(g, outs) && bits > 0
    ensures PlanesRan(s, g, whole, depth, bits, q, order, 0, Pictures(g, outs), Pictures(g, outs))
  {
    hide PlaneOf, Cut, LevelsOk, RanUpTo, Axis.Valid, Axis.Fits, Canvas.Valid, Canvas.Snapshot;
    forall c: nat | c < 3
      ensures PlaneRanUpTo(s, g, whole, depth, bits, q, c, order, 0, Pictures(g, outs)[c], Pictures(g, outs)[c])
    {
      PlaneLevels(g, depth, c);
      NoneRan(PlaneGrid(g, c), depth, bits, PlaneOf(s, g, whole, depth, q, c), order, outs[c].Snapshot());
    }
  }

  function AllBuffers(jobs: seq<Job>): set<object> {
    set job, b | job in jobs && b in Buffers(job.components) :: b
  }

  /** Runs the jobs, one after the other in the order given. */
  method RunJobs(s: Source, g: Grid, jobs: seq<Job>, outs: seq<Canvas>, order: seq<Id>, ghost whole: nat,
                 depth: nat, bits: nat, q: int -> Matrix)
    requires Usable(g, depth) && JobsOk(g, jobs) && Schedule(g, order) && bits > 0
    requires OutputsOk(g, outs) && AllBuffers(jobs) !! Outputs(outs)
    modifies AllBuffers(jobs), Outputs(outs)
    ensures HoldsContent(s, g, old(ViewOf(g, jobs)), whole, g.Slices()) && SettledPicture(s, g, whole) ==>
      PlanesRan(s, g, whole, depth, bits, q, order, |order|, old(Pictures(g, outs)), Pictures(g, outs))
  {
    hide Axis.Count, Axis.Fits, Axis.Valid, HoldsContent, SettledPicture, Cut, DecodeSide, Roomy, IsJob, g.Number;
    hide Canvas.Snapshot, Canvas.Valid, PlanesRan, Suits;
    ghost var was, v := Pictures(g, outs), ViewOf(g, jobs);
    NoPlaneRan(s, g, whole, depth, bits, q, order, outs);
    var n := 0;
    while n < |order|
      invariant n <= |order| && ViewOf(g, jobs) == v
      invariant HoldsContent(s, g, v, whole, g.Slices()) && SettledPicture(s, g, whole) ==>
                  PlanesRan(s, g, whole, depth, bits, q, order, n, was, Pictures(g, outs))
    {
      RunNext(s, g, jobs, outs, order, n, v, whole, depth, bits, q, was);
      n := n + 1;
    }
  }

  method RunNext(s: Source, g: Grid, jobs: seq<Job>, outs: seq<Canvas>, order: seq<Id>, n: nat, ghost v: View,
                 ghost whole: nat, depth: nat, bits: nat, q: int -> Matrix, ghost was: seq<Plane>)
    requires Usable(g, depth) && JobsOk(g, jobs) && Schedule(g, order) && bits > 0 && n < |order|
    requires OutputsOk(g, outs) && AllBuffers(jobs) !! Outputs(outs) && ViewOf(g, jobs) == v
    modifies AllBuffers(jobs), Outputs(outs)
    ensures ViewOf(g, jobs) == v
    ensures HoldsContent(s, g, v, whole, g.Slices()) && SettledPicture(s, g, whole)
            && PlanesRan(s, g, whole, depth, bits, q, order, n, was, old(Pictures(g, outs))) ==>
              PlanesRan(s, g, whole, depth, bits, q, order, n + 1, was, Pictures(g, outs))
  {
    hide Axis.Count, Axis.Fits, Axis.Valid, HoldsContent, SettledPicture, Cut, DecodeSide, Roomy, IsJob, g.Number;
    hide Canvas.Snapshot, Canvas.Valid, PlaneRan, PlanesRan, JobDone, Suits, JobLoads, JobShown, Videos, Values;
    var id := order[n];
    ghost var mid := Pictures(g, outs);
    var job := jobs[g.Number(id.y, id.x)];
    ghost var tiles := DecodeJob(s, g, job, id, outs, v, whole, depth, bits, q);
    if HoldsContent(s, g, v, whole, g.Slices()) && SettledPicture(s, g, whole)
      && PlanesRan(s, g, whole, depth, bits, q, order, n, was, mid) {
      OneMoreDone(s, g, whole, depth, bits, q, order, n, was, mid, Pictures(g, outs));
    }
  }

  lemma OneMoreDone(s: Source, g: Grid, whole: nat, depth: nat, bits: nat, q: int -> Matrix, order: seq<Id>, n: nat,
                    was: seq<Plane>, mid: seq<Plane>, now: seq<Plane>)
    requires n < |order| && PlanesRan(s, g, whole, depth, bits, q, order, n, was, mid)
    requires JobDone(s, g, whole, depth, bits, q, order[n], mid, now)
    ensures PlanesRan(s, g, whole, depth, bits, q, order, n + 1, was, now)
  {
    hide PlaneRan, PlaneRanUpTo;
    forall c: nat | c < 3
      ensures PlaneRanUpTo(s, g, whole, depth, bits, q, c, order, n + 1, was[c], now[c])
    {
      OneMorePlane(s, g, whole, depth, bits, q, c, order, n, was[c], mid[c], now[c]);
    }
  }

  // ----- a picture

  /** Reads the slices of a picture into the jobs and decodes it, whatever the jobs' slots, planes and buffers held. */
  method DecodePicture(s: Source, g: Grid, jobs: seq<Job>, lutY: array<int>, lutX: array<int>, base: nat, ilength: nat,
                       outs: seq<Canvas>, order: seq<Id>, depth: nat, bits: nat, q: int -> Matrix) returns (ok: bool)
    requires Usable(g, depth) && Schedule(g, order) && JobsOk(g, jobs) && Tables(g, lutY, lutX) && bits > 0
    requires OutputsOk(g, outs) && AllBuffers(jobs) !! Outputs(outs) && Arrays(jobs) !! Outputs(outs)
    modifies Arrays(jobs), AllBuffers(jobs), Outputs(outs)
    ensures ok <==> Readable(s, base, base + ilength, g.Slices())
    ensures ok && SettledPicture(s, g, base) ==>
      PlanesRan(s, g, base, depth, bits, q, order, |order|, old(Pictures(g, outs)), Pictures(g, outs))
    ensures !ok ==> Pictures(g, outs) == old(Pictures(g, outs))
  {
    hide AllReadBack, Axis.Count, Axis.Fits, Axis.Valid, HoldsContent, SettledPicture, Cut, DecodeSide, Roomy;
    hide Tables, PlanesRan, Holds, s.Overruns, JobsOk, AllBuffers, Outputs;
    hide Canvas.Snapshot, Canvas.Valid, Suits, g.Slices, Schedule;
    var length, read;
    ok, length, read := SliceInput(s, g, jobs, lutY, lutX, base, ilength);
    if !ok {
      return;
    }
    WholeContent(s, g, ViewOf(g, jobs), base, g.Slices());
    RunJobs(s, g, jobs, outs, order, base, depth, bits, q);
  }

  /** The first picture under new parameters: the jobs are set up for it. */
  method DecodeFirst(s: Source, g: Grid, base: nat, ilength: nat, outs: seq<Canvas>, order: seq<Id>,
                     depth: nat, bits: nat, q: int -> Matrix, sampleSize: nat) returns (ok: bool)
    requires Usable(g, depth) && Schedule(g, order) && OutputsOk(g, outs) && bits > 0
    requires sampleSize == 2 || sampleSize == 4
    modifies Outputs(outs)
    ensures ok <==> Readable(s, base, base + ilength, g.Slices())
    ensures ok && SettledPicture(s, g, base) ==>
      PlanesRan(s, g, base, depth, bits, q, order, |order|, old(Pictures(g, outs)), Pictures(g, outs))
    ensures !ok ==> Pictures(g, outs) == old(Pictures(g, outs))
  {
    hide Axis.Count, Axis.Fits, Axis.Valid, SettledPicture, Cut, DecodeSide, Roomy, Tables, PlanesRan, s.Overruns;
    hide Canvas.Snapshot, Canvas.Valid, Suits, g.Slices, Schedule;
    AllPeopled(g, depth);
    var jobs, lutY, lutX := SetUp(g, sampleSize);
    ok := DecodePicture(s, g, jobs, lutY, lutX, base, ilength, outs, order, depth, bits, q);
  }

  /** A picture in fragments: nothing is decoded before the last of them, and then what would be of the whole data. */
  method DecodeFragments(c: Collector, s: Source, g: Grid, jobs: seq<Job>, lutY: array<int>, lutX: array<int>,
                         ghost whole: nat, parts: seq<Part>, outs: seq<Canvas>, order: seq<Id>,
                         depth: nat, bits: nat, q: int -> Matrix) returns (r: Outcome)
    requires Usable(g, depth) && Schedule(g, order) && JobsOk(g, jobs) && Tables(g, lutY, lutX) && bits > 0
    requires OutputsOk(g, outs) && AllBuffers(jobs) !! Outputs(outs) && Arrays(jobs) !! Outputs(outs)
    requires Carry(s, g, whole, parts) && c.sliced == 0
    modifies c, Arrays(jobs), AllBuffers(jobs), Outputs(outs)
    ensures r == Picture && SettledPicture(s, g, whole) ==>
      PlanesRan(s, g, whole, depth, bits, q, order, |order|, old(Pictures(g, outs)), Pictures(g, outs))
    ensures r == Picture || (r == Overrun && Pictures(g, outs) == old(Pictures(g, outs)))
  {
    hide Axis.Count, Axis.Fits, Axis.Valid, HoldsContent, SettledPicture, Cut, DecodeSide, Roomy;
    hide Tables, PlanesRan, Holds, s.Overruns, JobsOk, AllBuffers, Outputs, Carry;
    hide Canvas.Snapshot, Canvas.Valid, Suits, g.Slices, Schedule;
    var handled;
    r, handled := Collect(c, s, g, jobs, lutY, lutX, whole, parts);
    if r == Picture {
      RunJobs(s, g, jobs, outs, order, whole, depth, bits, q);
    }
  }

  lemma AllPeopled(g: Grid, depth: nat)
    requires Usable(g, depth)
    ensures g.Valid()
    ensures forall j: nat :: j < g.ay.jobs ==> Peopled(g.ay, j)
    ensures forall j: nat :: j < g.ax.jobs ==> Peopled(g.ax, j)
  {
    forall j: nat | j < g.ay.jobs ensures Peopled(g.ay, j) {
      SomeSlices(g.ay, j);
    }
    forall j: nat | j < g.ax.jobs ensures Peopled(g.ax, j) {
      SomeSlices(g.ax, j);
    }
  }

  /** Every sample of the three outputs belongs to one job, and is the whole picture's, reconstructed from its
      slices' bytes, but for the columns that the last pass does not store. */
  lemma EverySample(s: Source, g: Grid, whole: nat, depth: nat, bits: nat, q: int -> Matrix, order: seq<Id>,
                    was: seq<Plane>, now: seq<Plane>, c: nat, i: nat, j: nat) returns (id: Id)
    requires PlanesRan(s, g, whole, depth, bits, q, order, |order|, was, now) && c < 3
    requires i < PlaneGrid(g, c).ay.length && j < PlaneGrid(g, c).ax.length
    ensures var k := PlaneGrid(g, c);
            && k.Valid() && Cut(k.ay, depth) && Cut(k.ax, depth) && bits > 0
            && LevelsOk(LeGall53, k.ay.slices * k.ay.size, k.ax.slices * k.ax.size, depth)
            && i < k.ay.slices * k.ay.size && j < k.ax.slices * k.ax.size && i < |now[c]| == |was[c]|
            && j < |now[c][i]| == |was[c][i]|
            && id.y < k.ay.jobs && id.x < k.ax.jobs && Delivering(k, id.y, id.x, i, j)
            && now[c][i][j] == if ColumnMissed(k, id.y, id.x, j) then was[c][i][j]
                               else Finished(k, depth, bits, PlaneOf(s, g, whole, depth, q, c), i, j)
  {
    hide Axis.Valid, Axis.Fits, Cut, LevelsOk, RanUpTo, ColumnMissed, Schedule, Delivering, PlaneOf;
    hide PlaneGrid, Finished;
    assert PlaneRanUpTo(s, g, whole, depth, bits, q, c, order, |order|, was[c], now[c]);
    var k := PlaneGrid(g, c);
    id := EveryPixel(k, depth, bits, PlaneOf(s, g, whole, depth, q, c), order, was[c], now[c], i, j);
  }

  /** The coefficients do not depend on the jobs. */
  lemma SamePlaneOf(s: Source, g: Grid, k: Grid, whole: nat, depth: nat, q: int -> Matrix, c: nat)
    requires SamePictureShape(g, k)
    ensures PlaneOf(s, g, whole, depth, q, c) == PlaneOf(s, k, whole, depth, q, c)
    ensures SamePictureShape(PlaneGrid(g, c), PlaneGrid(k, c))
  {
    hide DecoderOf, PictureCoefficients, SliceDecoder;
    var u, v := PlaneGrid(g, c), PlaneGrid(k, c);
    DecoderShape(q, depth, c, u.ay.size, u.ax.size);
    SameCoefficients(s, u, v, whole, DecoderOf(q, depth, c, u.ay.size, u.ax.size));
  }

  /** Two decoders that cut the picture into different jobs, and run them in different orders, agree on every
      sample that both store. */
  lemma DecodersAgree(s: Source, g: Grid, k: Grid, whole: nat, depth: nat, bits: nat, q: int -> Matrix,
                      orderG: seq<Id>, orderK: seq<Id>, wasG: seq<Plane>, wasK: seq<Plane>,
                      nowG: seq<Plane>, nowK: seq<Plane>, c: nat, i: nat, j: nat) returns (a: Id, b: Id)
    requires PlanesRan(s, g, whole, depth, bits, q, orderG, |orderG|, wasG, nowG)
    requires PlanesRan(s, k, whole, depth, bits, q, orderK, |orderK|, wasK, nowK)
    requires SamePictureShape(g, k) && c < 3 && i < PlaneGrid(g, c).ay.length && j < PlaneGrid(g, c).ax.length
    ensures var u, v := PlaneGrid(g, c), PlaneGrid(k, c);
            && u.Valid() && v.Valid() && Covered(u.ay) && Covered(u.ax) && Covered(v.ay) && Covered(v.ax)
            && a.y < u.ay.jobs && a.x < u.ax.jobs && Delivering(u, a.y, a.x, i, j)
            && b.y < v.ay.jobs && b.x < v.ax.jobs && Delivering(v, b.y, b.x, i, j)
            && i < |nowG[c]| && i < |nowK[c]| && j < |nowG[c][i]| && j < |nowK[c][i]|
            && (!ColumnMissed(u, a.y, a.x, j) && !ColumnMissed(v, b.y, b.x, j) ==> nowG[c][i][j] == nowK[c][i][j])
  {
    hide Axis.Valid, Axis.Fits, LevelsOk, RanUpTo, ColumnMissed, Schedule, Delivering, PlaneOf, PlaneGrid, Covered;
    SamePlaneOf(s, g, k, whole, depth, q, c);
    assert PlaneRanUpTo(s, g, whole, depth, bits, q, c, orderG, |orderG|, wasG[c], nowG[c]);
    assert PlaneRanUpTo(s, k, whole, depth, bits, q, c, orderK, |orderK|, wasK[c], nowK[c]);
    a, b := GridsAgree(PlaneGrid(g, c), PlaneGrid(k, c), depth, bits, PlaneOf(s, g, whole, depth, q, c), orderG, orderK,
                       wasG[c], wasK[c], nowG[c], nowK[c], i, j);
  }

  /** A picture of 1920 by 1080 samples, two levels deep, in eight by eight jobs: every condition is met. */
  lemma HighDefinition()
    ensures var g := Grid(Axis(135, 8, 1, 8, 1080), Axis(120, 8, 2, 16, 1920)); Usable(g, 2) && SameSides(g)
  {
    assert Pow2(2) == 4;
    var v, h := Axis(135, 8, 1, 8, 1080), Axis(120, 8, 2, 16, 1920);
    assert v.PerJob() == 17 && h.PerJob() == 15 && HalfAxis(h).PerJob() == 15;
  }
}
