/** Slices that are decoded with another side than they were cut with. */
module ShortSides {
  import opened VlcMachine
  import opened VlcDecode
  import opened Planes
  import opened Dequantiser
  import opened JobGrid
  import opened JobBuffers
  import opened SliceStream
  import opened SliceLoading
  import opened Jobs
  import opened Fragments
  import opened Picture
  import opened Decoding
  import opened Lifting
  import opened Leftovers
  import Seams
  import Output

  // ----- the side of a slice

  /** A job decodes its slices with the side they were cut with exactly when less than a sample a slice was padded;
      and otherwise with a smaller one, which does not hold whole points of the coarsest level. */
  lemma OtherSide(length: nat, depth: nat, slices: nat, jobs: nat, overlap: nat)
    requires Divides(slices, JobGrid.Padded(length, depth)) && 0 < jobs <= 64
    requires Divides(Pow2(depth), AxisOf(length, depth, slices, jobs, overlap).size)
    ensures var a := AxisOf(length, depth, slices, jobs, overlap);
            && a.Valid() && DecodeSide(a) <= a.size
            && (DecodeSide(a) == a.size <==> JobGrid.Padded(length, depth) - length < slices)
            && (Divides(Pow2(depth), DecodeSide(a)) <==> DecodeSide(a) == a.size)
  {
    var p, m := JobGrid.Padded(length, depth), Pow2(depth);
    WholePart(p, slices);
    DecodeSliceSide(length, depth, slices);
    SideBelow(length, p / slices, slices, m);
  }

  lemma SideBelow(length: nat, size: nat, slices: nat, m: nat)
    requires slices > 0 && length <= slices * size < length + m && Divides(m, size)
    ensures var side := (length + slices - 1) / slices;
            side <= size && (Divides(m, side) <==> side == size)
  {
    var n := length + slices - 1;
    DivMod(n, slices);
    Close(size, n / slices, n % slices, slices, length, m);
    if Divides(m, n / slices) {
      CloseMultiples(size, n / slices, m);
    }
  }

  lemma Close(size: nat, side: nat, r: nat, slices: nat, length: nat, m: nat)
    requires length <= slices * size < length + m && length + slices - 1 == side * slices + r && r < slices
    ensures side <= size < side + m
  {
    var d := size - side;
    Difference(size, side, slices);
    if side > size {
      Monotone(-1, d, slices);
    } else if d >= m {
      Monotone(d, m, slices);
      Monotone(slices, 1, m);
    }
  }

  lemma DivMod(n: nat, s: nat)
    requires s > 0
    ensures n == n / s * s + n % s
  {}

  lemma Next(n: nat, s: nat)
    ensures (n + 1) * s == n * s + s
  {}

  lemma Difference(n: nat, k: nat, s: nat)
    ensures (n - k) * s == n * s - k * s && s * n == n * s
  {}

  /** Two multiples less than one apart are the same. */
  lemma CloseMultiples(a: nat, b: nat, m: nat)
    requires Divides(m, a) && Divides(m, b) && b <= a < b + m
    ensures a == b
  {
    var u, v := a / m, b / m;
    assert a == u * m && b == v * m;
    Next(v, m);
    SmallerFactor(u, v + 1, m);
    Monotone(u, v, m);
    if u < v {
      Monotone(v, u + 1, m);
      Next(u, m);
    }
  }

  /** Four slices of 16 samples for a side of 50 are decoded as if they had 13. */
  lemma ThirteenForSixteen()
    ensures var a := AxisOf(50, 4, 4, 2, 2);
            a == Axis(4, 2, 2, 16, 50) && Cut(a, 4) && DecodeSide(a) == 13
  {
    assert Pow2(4) == 16;
    assert Axis(4, 2, 2, 16, 50).PerJob() == 2;
  }

  // ----- what a shorter side leaves alone

  /** Rows and columns of the window past the last slice keep what they held. */
  lemma PastTheSlices(w: Work, c: nat, now: Plane, was: Plane, before: seq<int>, i: nat, j: nat)
    requires c < 3 && w.Loaded(c, now, was, before) && i < |now| && j < |now[i]|
    requires w.ny * w.height <= i || w.Left(c, w.nx) <= j
    ensures i < |was| && j < |was[i]| && now[i][j] == was[i][j]
  {
    hide PatchValue, Work.Left;
    forall y: nat, x: nat | y < w.ny && x < w.nx ensures !w.InSlice(c, y, x, i, j) {
      Dequantiser.Products(w.ny, y, w.height);
      w.LeftApart(c, x, w.nx);
    }
    assert w.Outside(c, |w.recs|, i, j);
  }

  /** A picture of one slice, 16 samples wide. */
  function OneSlice(height: nat): Grid {
    Grid(Axis(1, 1, 1, 16, height), Axis(1, 1, 2, 16, 16))
  }

  lemma OddHeightUsable(height: nat, depth: nat)
    requires height == 15 && depth == 1
    ensures Usable(OneSlice(height), depth)
    ensures DecodeSide(OneSlice(height).ay) == 15 && DecodeSide(OneSlice(height).ax) == 16
  {
    assert Pow2(1) == 2;
    var g := OneSlice(height);
    assert g.ay.PerJob() == g.ax.PerJob() == HalfAxis(g.ax).PerJob() == 1;
  }

  /** Nothing but empty slices. */
  function Empty(): Source {
    Source(k => 0, 1, 0)
  }

  lemma EmptySlice()
    ensures BlockOf(Empty(), Empty().Slice(0, 0), 0) == [] && Empty().Slice(0, 0).q == 0
  {}

  lemma OddAxes(g: Grid, id: Id, depth: nat)
    requires g == OneSlice(g.ay.length) && g.ay.length == 15 && id.y == id.x == 0 && depth == 1
    ensures Usable(g, depth) && id.y < g.ay.jobs == 1 && id.x < g.ax.jobs == 1
    ensures g.ay.First(0) == g.ax.First(0) == 0 && g.ay.Own(0) == g.ax.Own(0) == 1
    ensures g.ay.size == g.ax.size == 16 && g.ax.length == 16 && g.ay.slices == g.ax.slices == 1
  {
    OddHeightUsable(g.ay.length, depth);
    assert g.ay.PerJob() == g.ax.PerJob() == 1;
    hide Usable;
  }

  lemma OddCounts(g: Grid, id: Id, depth: nat)
    requires g == OneSlice(g.ay.length) && g.ay.length == 15 && id.y == id.x == 0 && depth == 1
    ensures Usable(g, depth) && id.y < g.ay.jobs && id.x < g.ax.jobs
    ensures Peopled(g.ay, id.y) && Peopled(g.ax, id.x) && ValuesOf(g, 0) == 256
    ensures g.ay.Count(id.y) == g.ax.Count(id.x) == 1 && g.ay.Start(id.y) == g.ax.Start(id.x) == 0
    ensures DecodeSide(g.ay) == 15 && DecodeSide(g.ax) == 16
  {
    hide OneSlice, Axis.First, Axis.Own, Axis.PerJob, Axis.Fits, Usable, DecodeSide, Cut;
    OddHeightUsable(g.ay.length, depth);
    OddAxes(g, id, depth);
  }

  lemma OnlySlice(g: Grid, id: Id, n: nat)
    requires g.Valid() && id.y < g.ay.jobs && id.x < g.ax.jobs && n == 0
    requires g.ay.Count(id.y) == g.ax.Count(id.x) == 1 && g.ay.Start(id.y) == g.ax.Start(id.x) == 0
    ensures SliceOfJob(g, id, n) == 0
  {
    hide Axis.Count, Axis.Start, Axis.Fits, Axis.Valid;
  }

  lemma OddHeightJob(g: Grid, id: Id, depth: nat, v: View)
    requires g == OneSlice(g.ay.length) && g.ay.length == 15 && id.y == id.x == 0 && depth == 1 && Shaped(g, v)
    ensures Usable(g, depth) && Peopled(g.ay, id.y) && Peopled(g.ax, id.x) && g.Number(id.y, id.x) < |v|
    ensures g.ay.Count(id.y) == g.ax.Count(id.x) == 1 && |v[g.Number(id.y, id.x)]| == 1
    ensures SliceOfJob(g, id, 0) == 0 && ValuesOf(g, 0) == 256
    ensures DecodeSide(g.ay) == 15 && DecodeSide(g.ax) == 16
  {
    hide OneSlice, Axis.Count, Axis.Start, Axis.Fits, Usable, DecodeSide, ValuesOf, SliceOfJob;
    OddCounts(g, id, depth);
    OnlySlice(g, id, 0);
    g.NumberInside(id.y, id.x);
  }

  /** One empty slice, dequantised one row short. */
  ghost predicate OddWork(w: Work) {
    && w.Valid() && w.height == 15 && w.full == 16 && w.Size(0) == 256 && w.ny == w.nx == |w.recs| == 1
    && EmptyBut(w.Blocks(0), false)
  }

  /** The job, and what it is loaded from. */
  lemma OddHeightWork(g: Grid, id: Id, depth: nat, q: int -> Matrix, v: View)
    requires g == OneSlice(g.ay.length) && g.ay.length == 15 && id.y == id.x == 0 && depth == 1
    requires Shaped(g, v) && HoldsContent(Empty(), g, v, 0, g.Slices())
    ensures Peopled(g.ay, id.y) && Peopled(g.ax, id.x) && g.Number(id.y, id.x) < |v|
    ensures OddWork(WorkOf(Empty(), g, id, v[g.Number(id.y, id.x)], depth, q))
  {
    hide Axis.PerJob, Axis.Start, Axis.Count, Axis.Fits, Empty, Source.Content, Source.Slice, OneSlice, WorkOf;
    hide HoldsContent, Shaped, SliceOfJob, ValuesOf, BlockOf, DecodeSide, Cut, Work.Valid, EmptyBut, JobBlocks;
    hide Work.Blocks, Work.Wide;
    OddHeightJob(g, id, depth, v);
    OddSides(g, id, depth, q, v[g.Number(id.y, id.x)]);
    OddBlocks(g, id, depth, q, v);
  }

  lemma OddSides(g: Grid, id: Id, depth: nat, q: int -> Matrix, recs: seq<Record>)
    requires g == OneSlice(g.ay.length) && g.ay.length == 15 && id.y == id.x == 0 && Usable(g, depth)
             && Peopled(g.ay, id.y) && Peopled(g.ax, id.x)
    requires |recs| == g.ay.Count(id.y) == g.ax.Count(id.x) == 1 && ValuesOf(g, 0) == 256
    requires DecodeSide(g.ay) == 15 && DecodeSide(g.ax) == 16
    ensures var w := WorkOf(Empty(), g, id, recs, depth, q);
            w.Valid() && w.height == 15 && w.full == 16 && w.Size(0) == 256 && w.ny == w.nx == |w.recs| == 1
  {
    hide Axis.PerJob, Axis.Start, Axis.Count, Axis.Fits, Empty, OneSlice, WorkOf, ValuesOf, DecodeSide, Cut, Work.Valid;
    WorkValid(Empty(), g, depth, id, recs, q);
    WorkIs(Empty(), g, id, recs, depth, q, 0);
  }

  lemma OddBlocks(g: Grid, id: Id, depth: nat, q: int -> Matrix, v: View)
    requires g == OneSlice(g.ay.length) && g.ay.length == 15 && id.y == id.x == 0 && depth == 1
    requires Shaped(g, v) && HoldsContent(Empty(), g, v, 0, g.Slices())
    requires Peopled(g.ay, id.y) && Peopled(g.ax, id.x) && g.Number(id.y, id.x) < |v|
    ensures EmptyBut(WorkOf(Empty(), g, id, v[g.Number(id.y, id.x)], depth, q).Blocks(0), false)
  {
    hide Axis.PerJob, Axis.Start, Axis.Count, Axis.Fits, Empty, Source.Content, Source.Slice, OneSlice, WorkOf;
    hide HoldsContent, Shaped, SliceOfJob, ValuesOf, BlockOf, DecodeSide, Cut, Work.Valid, EmptyBut, JobBlocks;
    hide Work.Blocks, Work.Wide, OddWork;
    OddHeightJob(g, id, depth, v);
    BlocksOfJob(Empty(), g, v, 0, id, depth, q, 0);
    OnlyEmpty(g, id, depth, JobBlocks(Empty(), g, 0, id, 0));
  }

  lemma OnlyEmpty(g: Grid, id: Id, depth: nat, blocks: seq<seq<Byte>>)
    requires g == OneSlice(g.ay.length) && g.ay.length == 15 && id.y == id.x == 0 && Usable(g, depth)
             && Peopled(g.ay, id.y) && Peopled(g.ax, id.x)
    requires blocks == JobBlocks(Empty(), g, 0, id, 0) && |blocks| == 1 && SliceOfJob(g, id, 0) == 0
    ensures EmptyBut(blocks, false)
  {
    hide Empty, Source.Slice, SliceOfJob, BlockOf, Axis.Count, Axis.Fits;
    EmptySlice();
    assert blocks[0] == BlockOf(Empty(), Empty().Slice(0, SliceOfJob(g, id, 0)), 0);
  }

  /** The slice's samples are zeroes. */
  lemma OddValue(w: Work, values: seq<int>, n: nat, y: nat, x: nat)
    requires OddWork(w) && n == 0 && y < w.height && x < w.Wide(0)
    requires |values| == w.Size(0) && forall k :: 0 <= k < w.Size(0) ==> values[k] == 0
    ensures PatchValue(w, 0, n, values, y, x) == 0
  {
    hide OriginOf, ScratchAt, Matrix.Scaled, EmptyBut, Work.Blocks, Work.Wide;
    InputOfSample(w, 0, y, x);
    var o := OriginOf(w.height, w.Wide(0), w.depth, 0, y, x);
    StaysBehind(w.Blocks(0), w.Size(0), values, false, n + 1, o.index);
    ZeroScales(w.q(w.recs[n].q), o.level, o.band);
  }

  /** Its tile: the slice's zeroes, and in the last row what the plane held before. */
  lemma OddTile(w: Work, tile: Plane, video: Plane, values: seq<int>, i: nat, j: nat)
    requires OddWork(w) && w.Loaded(0, tile, video, values) && Rect(tile, 16, 16) && i < 16 && j < 16
    requires forall k :: 0 <= k < |values| ==> values[k] == 0
    ensures |video| == 16 && |video[15]| == 16 && tile[i][j] == if i < 15 then 0 else video[15][j]
  {
    hide PatchValue, EmptyBut, Work.Blocks, Work.LoadedIn, Work.Outside, Quo;
    if i < 15 {
      OddSlot(w, i, j);
      LoadedValue(w, 0, tile, video, values, i, j);
      OddValue(w, values, Number(w.nx, Quo(i, w.height), Quo(j, w.Wide(0))), i % w.height, j % w.Wide(0));
    } else {
      PastTheSlices(w, 0, tile, video, values, i, j);
    }
  }

  lemma OddSlot(w: Work, i: nat, j: nat)
    requires OddWork(w) && i < 15 && j < 16
    ensures w.Wide(0) == 16 && i < w.ny * w.height && j < w.nx * w.Wide(0)
    ensures Number(w.nx, Quo(i, w.height), Quo(j, w.Wide(0))) == 0
  {}

  /** The job's window is the whole plane of 16 by 16, and it delivers all but the last row. */
  ghost predicate OddSpans(g: Grid, id: Id, depth: nat) {
    && Usable(g, depth) && id.y < g.ay.jobs && id.x < g.ax.jobs && g.ax.length == 16
    && var v, h := SpanOf(g.ay, id.y, depth), SpanOf(g.ax, id.x, depth);
       && v.Valid() && h.Valid() && v.Len() == 16 && h.Len() == 16
       && PartOf(g, id.y, id.x) == Output.Part(0, 0, 15, 16, 0, 0)
  }

  lemma OddPart(g: Grid, id: Id, depth: nat)
    requires g == OneSlice(g.ay.length) && g.ay.length == 15 && id.y == id.x == 0 && depth == 1
    ensures OddSpans(g, id, depth)
  {
    hide OneSlice, Axis.First, Axis.Own, Axis.PerJob, Axis.Fits, Roomy, Pow2, Divides, SpanOf;
    OddAxes(g, id, depth);
    SpanOk(g.ay, id.y, depth);
    SpanOk(g.ax, id.x, depth);
    OutputEnds(g.ay, id.y);
    OutputEnds(g.ax, id.x);
  }

  ghost function At(p: Plane, i: nat, j: nat): int {
    if i < |p| && j < |p[i]| then p[i][j] else 0
  }

  ghost function Luma(p: seq<Plane>): Plane {
    if |p| > 0 then p[0] else []
  }

  /** The sample is that of the tile, reconstructed. */
  ghost predicate OddSample(depth: nat, bits: nat, tile: Plane, h: nat, v: int) {
    bits > 0 && Rect(tile, h, h) && LevelsOk(LeGall53, h, h, depth)
    && v == Output.Shown(bits, At(Reconstruct(LeGall53, tile, h, h, depth), 14, 0))
  }

  lemma OddShown(g: Grid, id: Id, depth: nat, bits: nat, tile: Plane, was: Plane, now: Plane, h: nat)
    requires g.ay.length == 15 && OddSpans(g, id, depth) && bits > 0 && h == 16
    requires TileShown(g, depth, bits, id, tile, was, now)
    ensures Rect(now, 15, 16) && OddSample(depth, bits, tile, h, At(now, 14, 0))
  {
    hide Output.Shown, Reconstruct, LevelsOk, SpanOf, PartOf, Usable, Cut, Axis.Count, Axis.Fits;
  }

  /** The sample that shows when d stands in the row below and nothing else. */
  predicate ShowsBelow(bits: nat, v: int, d: int) {
    bits > 0 && v == Output.Shown(bits, (1 - (d + 2) / 4) / 2)
  }

  /** What DecodeJob leaves of the picture's only job: its slot holds the empty slice, and its buffer held zeroes. */
  ghost predicate RunShort(g: Grid, id: Id, depth: nat, bits: nat, q: int -> Matrix, v: View, videos: seq<Plane>,
                           values: seq<seq<int>>, tiles: seq<Plane>, was: seq<Plane>, now: seq<Plane>)
  {
    && g == OneSlice(g.ay.length) && g.ay.length == 15 && id.y == id.x == 0 && depth == 1 && bits > 0
    && Shaped(g, v) && HoldsContent(Empty(), g, v, 0, g.Slices())
    && JobLoads(Empty(), g, id, v, depth, q, videos, values, tiles) && JobShown(g, depth, bits, id, tiles, was, now)
    && forall k :: 0 <= k < |values[0]| ==> values[0][k] == 0
  }

  /** A job that decodes its only slice one row short shows, in the last row that it delivers, what its plane held in
      the row below before the picture came. */
  lemma OldRowShows(g: Grid, id: Id, depth: nat, bits: nat, q: int -> Matrix, v: View, videos: seq<Plane>,
                    values: seq<seq<int>>, tiles: seq<Plane>, was: seq<Plane>, now: seq<Plane>)
    requires RunShort(g, id, depth, bits, q, v, videos, values, tiles, was, now)
    ensures Rect(Luma(now), 15, 16) && OneRowShort(g, depth)
    ensures At(Luma(videos), 15, 1) == 0 ==> ShowsBelow(bits, At(Luma(now), 14, 0), At(Luma(videos), 15, 0))
  {
    hide WorkOf, Work.Loaded, TileShown, Output.Shown, OneSlice, HoldsContent, Shaped, OddWork, Axis.Count, Axis.Fits;
    hide Source.Content, Source.Slice, OddSpans, At, JobLoads, JobShown, Empty, OneRowShort;
    IsOneRowShort(g, depth);
    LumaLoads(Empty(), g, id, v, depth, q, videos, values, tiles);
    LumaShown(g, depth, bits, id, tiles, was, now);
    OddHeightWork(g, id, depth, q, v);
    OddPart(g, id, depth);
    OldRowOne(g, id, depth, bits, WorkOf(Empty(), g, id, v[g.Number(id.y, id.x)], depth, q),
              tiles[0], videos[0], values[0], was[0], now[0]);
  }

  lemma LumaLoads(s: Source, g: Grid, id: Id, v: View, depth: nat, q: int -> Matrix, videos: seq<Plane>,
                  values: seq<seq<int>>, tiles: seq<Plane>)
    requires JobLoads(s, g, id, v, depth, q, videos, values, tiles)
    ensures g.Valid() && id.y < g.ay.jobs && id.x < g.ax.jobs && Peopled(g.ay, id.y) && Peopled(g.ax, id.x)
    ensures g.Number(id.y, id.x) < |v| && |videos| == |values| == |tiles| == 3
    ensures WorkOf(s, g, id, v[g.Number(id.y, id.x)], depth, q).Loaded(0, tiles[0], videos[0], values[0])
  {
    hide WorkOf, Work.Loaded, Axis.Count, Axis.Fits, Axis.Valid;
  }

  lemma LumaShown(g: Grid, depth: nat, bits: nat, id: Id, tiles: seq<Plane>, was: seq<Plane>, now: seq<Plane>)
    requires JobShown(g, depth, bits, id, tiles, was, now)
    ensures |tiles| == |was| == |now| == 3 && TileShown(g, depth, bits, id, tiles[0], was[0], now[0])
  {
    hide TileShown;
    assert ComponentShown(g, depth, bits, 0, id, tiles[0], was[0], now[0]);
  }

  lemma OldRowOne(g: Grid, id: Id, depth: nat, bits: nat, w: Work, tile: Plane, video: Plane, values: seq<int>,
                  was: Plane, now: Plane)
    requires g.ay.length == 15 && OddSpans(g, id, depth) && bits > 0 && depth == 1
    requires OddWork(w) && w.Loaded(0, tile, video, values) && TileShown(g, depth, bits, id, tile, was, now)
    requires forall k :: 0 <= k < |values| ==> values[k] == 0
    ensures Rect(now, 15, 16)
    ensures At(video, 15, 1) == 0 ==> ShowsBelow(bits, At(now, 14, 0), At(video, 15, 0))
  {
    hide Work.Loaded, TileShown, Output.Shown, OddWork, OddSpans, OddSample, At;
    OddShown(g, id, depth, bits, tile, was, now, 16);
    if At(video, 15, 1) == 0 {
      OddReconstructed(w, depth, bits, tile, video, values, 16, At(now, 14, 0));
    }
  }

  lemma OddReconstructed(w: Work, depth: nat, bits: nat, tile: Plane, video: Plane, values: seq<int>, h: nat, v: int)
    requires OddWork(w) && depth == 1 && h == 16 && w.Loaded(0, tile, video, values)
    requires forall k :: 0 <= k < |values| ==> values[k] == 0
    requires OddSample(depth, bits, tile, h, v) && At(video, 15, 1) == 0
    ensures ShowsBelow(bits, v, At(video, 15, 0))
  {
    hide Work.Loaded, Output.Shown, OddWork, SynthLevel, LevelOk, Reconstruct, LevelsOk;
    OddTile(w, tile, video, values, 13, 0);
    OddTile(w, tile, video, values, 13, 1);
    OddTile(w, tile, video, values, 14, 0);
    OddTile(w, tile, video, values, 14, 1);
    OddTile(w, tile, video, values, 15, 0);
    OddTile(w, tile, video, values, 15, 1);
    LastOfOne(tile, h, h, depth);
    Seams.AboveRow(tile, h, h, 14);
  }

  /** The grid meets every condition, but slices are decoded one row short. */
  ghost predicate OneRowShort(g: Grid, depth: nat) {
    Usable(g, depth) && DecodeSide(g.ay) == g.ay.size - 1 && DecodeSide(g.ax) == g.ax.size
  }

  lemma IsOneRowShort(g: Grid, depth: nat)
    requires g == OneSlice(g.ay.length) && g.ay.length == 15 && depth == 1
    ensures OneRowShort(g, depth)
  {
    OddHeightUsable(g.ay.length, depth);
  }

  /** Zero and 8 in that row show apart. */
  lemma OldRowsDiffer(bits: nat, v: int, u: int)
    requires ShowsBelow(bits, v, 0) && ShowsBelow(bits, u, 8)
    ensures v != u
  {
    assert Pow2(bits) == 2 * Pow2(bits - 1);
  }
}
