/** Every picture can be coded without loss: its coefficients, slice by slice, in blocks of one unit each. */
module Encoder {
  import opened VlcMachine
  import opened VlcTheorems
  import opened BitLayout
  import opened Planes
  import opened Dequantiser
  import opened JobGrid
  import opened JobBuffers
  import opened SliceStream
  import opened Jobs
  import opened Picture
  import opened Decoding
  import opened CodedPicture
  import SliceLayout

  /** The quantiser that leaves every coefficient as it is: a factor of four quarters, and no offset. */
  ghost predicate Lossless(q: Matrix) {
    forall level: nat, band: nat :: q.factor(level, band) == 4 && q.offset(level, band) == 0
  }

  lemma LosslessLeaves(q: Matrix, level: nat, band: nat, d: int)
    requires Lossless(q)
    ensures q.IsScaled(level, band, d, d)
  {}

  lemma HasPoint(h: nat, w: nat, depth: nat, k: nat)
    requires k < h * w
    ensures exists y: nat, x: nat :: y < h && x < w && OriginOf(h, w, depth, 0, y, x).index == k
  {
    hide OriginOf, Points;
    PointsInside(h, w, 0);
    var y, x := EveryInput(h, w, depth, 0, k);
  }

  /** The sample whose coefficient comes k-th. */
  ghost function PointAt(h: nat, w: nat, depth: nat, k: nat): (p: (nat, nat))
    requires k < h * w
    ensures p.0 < h && p.1 < w && OriginOf(h, w, depth, 0, p.0, p.1).index == k
  {
    HasPoint(h, w, depth, k);
    var y: nat, x: nat :| y < h && x < w && OriginOf(h, w, depth, 0, y, x).index == k;
    (y, x)
  }

  lemma PointOf(h: nat, w: nat, depth: nat, y: nat, x: nat)
    requires y < h && x < w
    ensures OriginOf(h, w, depth, 0, y, x).index < h * w
    ensures PointAt(h, w, depth, OriginOf(h, w, depth, 0, y, x).index) == (y, x)
  {
    hide OriginOf, Points;
    PointsInside(h, w, 0);
    OriginInside(h, w, depth, 0, y, x);
    var p := PointAt(h, w, depth, OriginOf(h, w, depth, 0, y, x).index);
    OriginUnique(h, w, depth, 0, y, x, p.0, p.1);
  }

  /** The coefficients of a slice in their order; the plane is zero beyond its sides. */
  ghost function Ordered(p: Plane, y0: nat, x0: nat, h: nat, w: nat, depth: nat): (vs: seq<int>)
    ensures |vs| == h * w
  {
    seq(h * w, k requires 0 <= k < h * w =>
      var (y, x) := PointAt(h, w, depth, k);
      if y0 + y < |p| && x0 + x < |p[y0 + y]| then p[y0 + y][x0 + x] else 0)
  }

  ghost function Block(p: Plane, y0: nat, x0: nat, h: nat, w: nat, depth: nat): seq<Byte> {
    Bytes(EncodeAll(Ordered(p, y0, x0, h, w, depth)))
  }

  lemma BlockCodes(p: Plane, y0: nat, x0: nat, h: nat, w: nat, depth: nat, q: Matrix, rest: seq<Byte>)
    requires Lossless(q) && y0 + h <= |p| && forall y :: y0 <= y < y0 + h ==> x0 + w <= |p[y]|
    ensures BlockCoded(Block(p, y0, x0, h, w, depth) + rest, p, y0, x0, h, w, depth, q)
  {
    hide OriginOf, EncodeAll, BitsAt, q.IsScaled, Lossless;
    var vs := Ordered(p, y0, x0, h, w, depth);
    BytesHold(EncodeAll(vs), rest);
    forall y: nat, x: nat | y < h && x < w
      ensures var o := OriginOf(h, w, depth, 0, y, x);
              o.index < |vs| && q.IsScaled(o.level, o.band, vs[o.index], p[y0 + y][x0 + x])
    {
      PointOf(h, w, depth, y, x);
      var o := OriginOf(h, w, depth, 0, y, x);
      LosslessLeaves(q, o.level, o.band, p[y0 + y][x0 + x]);
    }
    assert Codes(Block(p, y0, x0, h, w, depth) + rest, p, y0, x0, h, w, depth, q, vs);
  }

  /** The block of component c of slice k. */
  ghost function BlockOfSlice(g: Grid, planes: seq<Plane>, depth: nat, k: nat, c: nat): seq<Byte>
    requires |planes| == 3 && c < 3
  {
    if g.ax.slices == 0 then []
    else
      var h: nat, w: nat := g.ay.size, Across(g.ax.size, c);
      Block(planes[c], k / g.ax.slices * h, k % g.ax.slices * w, h, w, depth)
  }

  /** As long as all blocks of the first n slices together. */
  ghost function Together(g: Grid, planes: seq<Plane>, depth: nat, n: nat): nat
    requires |planes| == 3
  {
    if n == 0 then 0 else Together(g, planes, depth, n - 1) + LengthOfSlice(g, planes, depth, n - 1)
  }

  ghost function LengthOfSlice(g: Grid, planes: seq<Plane>, depth: nat, k: nat): nat
    requires |planes| == 3
  {
    |BlockOfSlice(g, planes, depth, k, 0)| + |BlockOfSlice(g, planes, depth, k, 1)|
    + |BlockOfSlice(g, planes, depth, k, 2)|
  }

  lemma {:induction false} PartOfAll(g: Grid, planes: seq<Plane>, depth: nat, n: nat, k: nat)
    requires |planes| == 3 && k < n
    ensures LengthOfSlice(g, planes, depth, k) <= Together(g, planes, depth, n)
  {
    hide LengthOfSlice;
    if k < n - 1 {
      PartOfAll(g, planes, depth, n - 1, k);
    }
  }

  function NoBytes(n: nat): (b: seq<Byte>)
    ensures |b| == n
  {
    seq<Byte>(n, i => 0)
  }

  /** A block, filled up to one unit. */
  function OneUnit(block: seq<Byte>, unit: nat): SliceLayout.Part {
    SliceLayout.Part(1, block + NoBytes(if |block| <= unit then unit - |block| else 0))
  }

  ghost function SliceOf(g: Grid, planes: seq<Plane>, depth: nat, qi: Byte, prefix: nat, unit: nat, k: nat)
    : SliceLayout.Slice
    requires |planes| == 3
  {
    SliceLayout.Slice(NoBytes(prefix), qi, OneUnit(BlockOfSlice(g, planes, depth, k, 0), unit),
                      OneUnit(BlockOfSlice(g, planes, depth, k, 1), unit),
                      OneUnit(BlockOfSlice(g, planes, depth, k, 2), unit))
  }

  ghost function AllSlices(g: Grid, planes: seq<Plane>, depth: nat, qi: Byte, prefix: nat, unit: nat)
    : (r: seq<SliceLayout.Slice>)
    requires |planes| == 3
    ensures |r| == g.Slices() && forall k: nat :: k < |r| ==> r[k] == SliceOf(g, planes, depth, qi, prefix, unit, k)
  {
    seq(g.Slices(), k requires 0 <= k < g.Slices() => SliceOf(g, planes, depth, qi, prefix, unit, k))
  }

  function MemoryOf(bytes: seq<Byte>): nat -> Byte {
    (i: nat) => if i < |bytes| then bytes[i] else 0
  }

  lemma SliceFits(g: Grid, planes: seq<Plane>, depth: nat, qi: Byte, s: Source, n: nat, k: nat)
    requires |planes| == 3 && k < n && s.scalar == Together(g, planes, depth, n)
    ensures SliceOf(g, planes, depth, qi, s.prefix, s.scalar, k).Fits(s)
  {
    hide BlockOfSlice;
    PartOfAll(g, planes, depth, n, k);
  }

  lemma SliceHolds(g: Grid, planes: seq<Plane>, depth: nat, q: int -> Matrix, qi: Byte, prefix: nat, unit: nat,
                   c: nat, sy: nat, sx: nat)
    requires |planes| == 3 && Suits(g, depth) && Lossless(q(qi)) && c < 3 && InShape(g, planes[c], c)
    requires sy < g.ay.slices && sx < g.ax.slices
    ensures SliceCoded(g, AllSlices(g, planes, depth, qi, prefix, unit), planes[c], c, depth, q, sy, sx)
  {
    hide Block, Lossless, Suits, BlockCoded, g.Valid;
    PlaneHasValues(g, depth, c);
    g.RasterInside(sy, sx);
    var h: nat, w: nat := g.ay.size, Across(g.ax.size, c);
    DivUnique(g.Raster(sy, sx), sy, sx, g.ax.slices);
    Inside(sy, g.ay.slices, h);
    Inside(sx, g.ax.slices, w);
    var block := BlockOfSlice(g, planes, depth, g.Raster(sy, sx), c);
    BlockCodes(planes[c], sy * h, sx * w, h, w, depth, q(qi), NoBytes(if |block| <= unit then unit - |block| else 0));
  }

  lemma Inside(k: nat, n: nat, size: nat)
    requires k < n
    ensures k * size + size <= n * size
  {
    if size > 0 {
      Monotone(n, k + 1, size);
    }
  }

  /** Whatever the planes of coefficients, the grid and the prefix, there is data in which they are coded. */
  lemma EveryPictureCanBeCoded(g: Grid, planes: seq<Plane>, depth: nat, q: int -> Matrix, qi: Byte, prefix: nat)
    returns (s: Source, ilength: nat, slices: seq<SliceLayout.Slice>)
    requires Suits(g, depth) && Lossless(q(qi)) && |planes| == 3
    requires forall c: nat :: c < 3 ==> InShape(g, planes[c], c)
    ensures s.prefix == prefix && PictureCoded(s, g, 0, ilength, depth, q, slices, planes)
  {
    hide Suits, Lossless, SliceOf, Together, SliceLayout.Slice.Fits, InShape, SliceCoded, SliceLayout.Written;
    hide g.Valid, g.Raster;
    var unit := Together(g, planes, depth, g.Slices());
    slices := AllSlices(g, planes, depth, qi, prefix, unit);
    var bytes := SliceLayout.Written(slices);
    s, ilength := Source(MemoryOf(bytes), unit, prefix), |bytes|;
    forall k | 0 <= k < |slices| ensures slices[k].Fits(s) {
      SliceFits(g, planes, depth, qi, s, g.Slices(), k);
    }
    assert SliceLayout.LaidOut(s, 0, ilength, slices);
    PlaneHasValues(g, depth, 0);
    forall c: nat, sy: nat, sx: nat | c < 3 && sy < g.ay.slices && sx < g.ax.slices
      ensures SliceCoded(g, slices, planes[c], c, depth, q, sy, sx)
    {
      SliceHolds(g, planes, depth, q, qi, prefix, unit, c, sy, sx);
    }
  }
}
