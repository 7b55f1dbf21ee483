/** Pictures that were coded: from their samples to the bytes of their slices, and back. */
module CodedPicture {
  import opened VlcMachine
  import opened VlcDecode
  import opened VlcTheorems
  import opened BitLayout
  import opened Lifting
  import opened Planes
  import opened Dequantiser
  import opened JobGrid
  import opened JobBuffers
  import opened SliceStream
  import opened SliceLoading
  import opened Jobs
  import opened Slices
  import opened Picture
  import opened Decoding
  import Output
  import SliceLayout

  // ----- a block

  /** The bits of the first k bytes. */
  function AllBits(block: seq<Byte>, k: nat): (b: seq<Bit>)
    requires k <= |block|
    ensures |b| == 8 * k
  {
    if k == 0 then [] else AllBits(block, k - 1) + ByteBits(block[k - 1])
  }

  lemma {:induction false} BitOfAll(block: seq<Byte>, k: nat, i: nat)
    requires k <= |block| && i < 8 * k
    ensures AllBits(block, k)[i] == BitNo(block, i)
  {
    if i < 8 * (k - 1) {
      BitOfAll(block, k - 1, i);
    } else {
      var n := i - 8 * (k - 1);
      assert i / 8 == k - 1 && i % 8 == n;
      BitOfByte(block[k - 1], n);
    }
  }

  lemma BitOfByte(b: Byte, n: nat)
    requires n < 8
    ensures ByteBits(b)[n] == BitAt(b, 7 - n)
  {}

  lemma {:induction false} EmittedByAll(block: seq<Byte>, k: nat)
    requires k <= |block|
    ensures ConfigAt(block, k) == Run(INITIAL, AllBits(block, k))
    ensures EmittedBy(block, k) == Emit(INITIAL, AllBits(block, k))
  {
    hide ByteBits;
    if k > 0 {
      EmittedByAll(block, k - 1);
      RunEmitAppend(INITIAL, AllBits(block, k - 1), ByteBits(block[k - 1]));
    }
  }

  /** A block that begins with the code of some values is decoded to them, and leaves no slot alone. */
  lemma CodedBlock(block: seq<Byte>, vs: seq<int>)
    requires vs != [] && BitsAt(block, 0, EncodeAll(vs))
    ensures Coefficients(block, |vs|) == vs && Clean(block, |vs|)
  {
    hide ByteBits, Emit, EncodeAll, AllBits, BitNo, Encode;
    var n, code := |block|, EncodeAll(vs);
    SomeCode(vs);
    var bits := AllBits(block, n);
    forall i | 0 <= i < |code| ensures bits[i] == code[i] {
      BitOfAll(block, n, i);
      assert BitNo(block, 0 + i) == code[i];
    }
    assert bits == code + bits[|code|..];
    EmittedByAll(block, n);
    EncodeAllEmits(vs);
    RunEmitAppend(INITIAL, code, bits[|code|..]);
    PaddedLength(block);
    ReadBytes(block, n, |vs|);
  }

  lemma SomeCode(vs: seq<int>)
    requires vs != []
    ensures |EncodeAll(vs)| > 0
  {}

  // ----- a slice of a plane of coefficients

  /** The block begins with the code of values that are scaled to coefficients of the plane: h rows of w of them, from
      (y0, x0) on. */
  ghost predicate Codes(block: seq<Byte>, p: Plane, y0: nat, x0: nat, h: nat, w: nat, depth: nat, q: Matrix,
                        vs: seq<int>)
  {
    && |vs| == h * w && BitsAt(block, 0, EncodeAll(vs))
    && forall y: nat, x: nat :: y < h && x < w ==>
         var o := OriginOf(h, w, depth, 0, y, x);
         o.index < |vs| && y0 + y < |p| && x0 + x < |p[y0 + y]|
         && q.IsScaled(o.level, o.band, vs[o.index], p[y0 + y][x0 + x])
  }

  ghost predicate BlockCoded(block: seq<Byte>, p: Plane, y0: nat, x0: nat, h: nat, w: nat, depth: nat, q: Matrix) {
    exists vs: seq<int> :: Codes(block, p, y0, x0, h, w, depth, q, vs)
  }

  lemma CodedValue(block: seq<Byte>, p: Plane, y0: nat, x0: nat, h: nat, w: nat, depth: nat, q: Matrix, y: nat, x: nat)
    requires BlockCoded(block, p, y0, x0, h, w, depth, q) && y < h && x < w
    ensures y0 + y < |p| && x0 + x < |p[y0 + y]|
    ensures ValueOf(h, w, depth, 0, q, Coefficients(block, h * w), y, x) == p[y0 + y][x0 + x]
  {
    hide OriginOf, Coefficients, EncodeAll, BitsAt, q.IsScaled, q.Scaled, Clean;
    var vs :| Codes(block, p, y0, x0, h, w, depth, q, vs);
    CodedBlock(block, vs);
    var o := OriginOf(h, w, depth, 0, y, x);
    q.ScaledExactly(o.level, o.band, vs[o.index], p[y0 + y][x0 + x]);
  }

  lemma CodedIsClean(block: seq<Byte>, p: Plane, y0: nat, x0: nat, h: nat, w: nat, depth: nat, q: Matrix)
    requires BlockCoded(block, p, y0, x0, h, w, depth, q) && h * w > 0
    ensures Clean(block, h * w)
  {
    hide OriginOf, Coefficients, EncodeAll, BitsAt, q.IsScaled, Clean;
    var vs :| Codes(block, p, y0, x0, h, w, depth, q, vs);
    CodedBlock(block, vs);
  }

  // ----- a picture

  /** Component c of slice (sy, sx) is coded in its block. */
  ghost predicate SliceCoded(g: Grid, slices: seq<SliceLayout.Slice>, p: Plane, c: nat, depth: nat, q: int -> Matrix,
                             sy: nat, sx: nat)
  {
    var n, h: nat, w: nat := g.Raster(sy, sx), g.ay.size, Across(g.ax.size, c);
    && n < |slices|
    && BlockCoded(PartOfContent(slices[n].Content(), c), p, sy * h, sx * w, h, w, depth, q(slices[n].q))
  }

  /** The data at base is that of slices in which these coefficients are coded, one slice after the other. */
  ghost predicate PictureCoded(s: Source, g: Grid, base: nat, ilength: nat, depth: nat, q: int -> Matrix,
                               slices: seq<SliceLayout.Slice>, planes: seq<Plane>)
  {
    && SliceLayout.LaidOut(s, base, ilength, slices) && |slices| == g.Slices() && |planes| == 3
    && (forall c: nat :: c < 3 ==> InShape(g, planes[c], c))
    && forall c: nat, sy: nat, sx: nat :: c < 3 && sy < g.ay.slices && sx < g.ax.slices ==>
         SliceCoded(g, slices, planes[c], c, depth, q, sy, sx)
  }

  ghost predicate InShape(g: Grid, p: Plane, c: nat) {
    Rect(p, PlaneGrid(g, c).ay.slices * PlaneGrid(g, c).ay.size, PlaneGrid(g, c).ax.slices * PlaneGrid(g, c).ax.size)
  }

  /** Such data can be read, and the decoder finds the planes that were coded. */
  lemma CodedIsRead(s: Source, g: Grid, base: nat, ilength: nat, depth: nat, q: int -> Matrix,
                    slices: seq<SliceLayout.Slice>, planes: seq<Plane>, k: nat)
    requires PictureCoded(s, g, base, ilength, depth, q, slices, planes) && k < g.Slices()
    ensures !s.Overruns(s.Addr(base, k), base + ilength)
    ensures s.Content(s.Slice(base, k)) == slices[k].Content()
  {
    hide SliceLayout.Laid, SliceLayout.EndsInside, SliceCoded, InShape;
    SliceLayout.WrittenIsRead(s, base, slices, k, ilength);
    SliceLayout.LaidOutEndsInside(s, base, ilength, slices, k);
  }

  lemma RasterOf(g: Grid, k: nat) returns (sy: nat, sx: nat)
    requires g.Valid() && k < g.Slices()
    ensures sy < g.ay.slices && sx < g.ax.slices && g.Raster(sy, sx) == k
  {
    RowAndColumn(k, g.ay.slices, g.ax.slices);
    sy, sx := k / g.ax.slices, k % g.ax.slices;
  }

  lemma CodedIsCleanPicture(s: Source, g: Grid, base: nat, ilength: nat, depth: nat, q: int -> Matrix,
                            slices: seq<SliceLayout.Slice>, planes: seq<Plane>)
    requires PictureCoded(s, g, base, ilength, depth, q, slices, planes) && Suits(g, depth)
    ensures CleanPicture(s, g, base)
  {
    hide SliceLayout.LaidOut, InShape, Cut, Clean, BlockCoded, s.Slice, Suits, g.Valid, g.Raster, s.Content;
    forall k: nat, c: nat | k < g.Slices() && c < 3
      ensures Clean(BlockOf(s, s.Slice(base, k), c), ValuesOf(g, c))
    {
      PlaneHasValues(g, depth, c);
      var sy, sx := RasterOf(g, k);
      assert SliceCoded(g, slices, planes[c], c, depth, q, sy, sx);
      CodedIsRead(s, g, base, ilength, depth, q, slices, planes, k);
      BlockIsPart(s, s.Slice(base, k), c);
      var h: nat, w: nat := g.ay.size, Across(g.ax.size, c);
      CodedIsClean(PartOfContent(slices[k].Content(), c), planes[c], sy * h, sx * w, h, w, depth, q(slices[k].q));
    }
  }

  lemma PlaneHasValues(g: Grid, depth: nat, c: nat)
    requires Suits(g, depth)
    ensures g.Valid() && g.ay.size > 0 && Across(g.ax.size, c) > 0 && g.ay.size * Across(g.ax.size, c) > 0
    ensures PlaneGrid(g, c).Valid() && PlaneGrid(g, c).ay == g.ay && PlaneGrid(g, c).ax.slices == g.ax.slices
    ensures PlaneGrid(g, c).ax.size == Across(g.ax.size, c)
  {
    hide Axis.Fits, Covered, Axis.Valid;
    SuitsPlane(g, depth, c);
    OverlapReaches(g.ay, depth);
    OverlapReaches(PlaneGrid(g, c).ax, depth);
    Monotone(g.ay.size, 1, Across(g.ax.size, c));
  }

  /** The coefficients of the picture are those that were coded. */
  lemma CodedIsPlane(s: Source, g: Grid, base: nat, ilength: nat, depth: nat, q: int -> Matrix,
                     slices: seq<SliceLayout.Slice>, planes: seq<Plane>, c: nat)
    requires PictureCoded(s, g, base, ilength, depth, q, slices, planes) && Suits(g, depth) && c < 3
    ensures PlaneOf(s, g, base, depth, q, c) == planes[c]
  {
    hide SliceLayout.LaidOut, Cut, SliceCoded, DecoderOf, Suits, g.Valid, Picture.Sample, PictureCoefficients;
    PlaneHasValues(g, depth, c);
    var k := PlaneGrid(g, c);
    var h, w, d := k.ay.slices * k.ay.size, k.ax.slices * k.ax.size, DecoderOf(q, depth, c, k.ay.size, k.ax.size);
    DecoderShape(q, depth, c, k.ay.size, k.ax.size);
    forall y: nat, x: nat | y < h && x < w ensures PlaneOf(s, g, base, depth, q, c)[y][x] == planes[c][y][x] {
      CoefficientAt(s, k, base, d, y, x);
      CodedSample(s, g, base, ilength, depth, q, slices, planes, c, y, x);
    }
    SamePlane(PlaneOf(s, g, base, depth, q, c), planes[c], h, w);
  }

  lemma DecodedAt(q: int -> Matrix, depth: nat, c: nat, h: nat, w: nat, content: Content, y: nat, x: nat)
    requires y < h && x < w
    ensures DecoderOf(q, depth, c, h, w)(content)[y][x]
         == ValueOf(h, w, depth, 0, q(content.q), Coefficients(PartOfContent(content, c), h * w), y, x)
  {
    hide ValueOf, Coefficients;
  }

  lemma CodedSample(s: Source, g: Grid, base: nat, ilength: nat, depth: nat, q: int -> Matrix,
                    slices: seq<SliceLayout.Slice>, planes: seq<Plane>, c: nat, y: nat, x: nat)
    requires PictureCoded(s, g, base, ilength, depth, q, slices, planes) && Suits(g, depth) && c < 3
    requires var k := PlaneGrid(g, c); y < k.ay.slices * k.ay.size && x < k.ax.slices * k.ax.size
    ensures var k := PlaneGrid(g, c); var d := DecoderOf(q, depth, c, k.ay.size, k.ax.size);
            && SliceDecoder(d, k.ay.size, k.ax.size) && y < |planes[c]| && x < |planes[c][y]|
            && Picture.Sample(s, k, base, d, y, x) == planes[c][y][x]
  {
    hide SliceLayout.LaidOut, Cut, BlockCoded, Suits, g.Valid, ValueOf, Coefficients, s.Slice, s.Content, g.Raster;
    hide SliceDecoder, InShape, DecoderOf, PartOfContent, g.Slices, Grid.Slices, PictureCoded;
    PlaneHasValues(g, depth, c);
    var k := PlaneGrid(g, c);
    var h: nat, w: nat := k.ay.size, k.ax.size;
    DecoderShape(q, depth, c, h, w);
    SliceOfSample(y, k.ay.slices, h);
    SliceOfSample(x, k.ax.slices, w);
    var content := s.Content(s.Slice(base, k.Raster(y / h, x / w)));
    CodedSlice(s, g, base, ilength, depth, q, slices, planes, c, y / h, x / w);
    WholeAndRest(y, h);
    WholeAndRest(x, w);
    CodedValue(PartOfContent(content, c), planes[c], y / h * h, x / w * w, h, w, depth, q(content.q), y % h, x % w);
    DecodedAt(q, depth, c, h, w, content, y % h, x % w);
  }

  lemma WholeAndRest(y: nat, h: nat)
    requires h > 0
    ensures y / h * h + y % h == y && 0 <= y / h * h && y % h < h
  {}

  /** The content that the decoder finds of a slice of a component. */
  lemma CodedSlice(s: Source, g: Grid, base: nat, ilength: nat, depth: nat, q: int -> Matrix,
                   slices: seq<SliceLayout.Slice>, planes: seq<Plane>, c: nat, sy: nat, sx: nat)
    requires PictureCoded(s, g, base, ilength, depth, q, slices, planes) && Suits(g, depth) && c < 3
    requires sy < g.ay.slices && sx < g.ax.slices
    ensures |planes| == 3
    ensures var k := PlaneGrid(g, c); var content := s.Content(s.Slice(base, k.Raster(sy, sx)));
            BlockCoded(PartOfContent(content, c), planes[c], Times(sy, k.ay.size), Times(sx, k.ax.size), k.ay.size,
                       k.ax.size,
                  depth, q(content.q))
  {
    hide SliceLayout.LaidOut, Cut, BlockCoded, Suits, g.Valid, s.Slice, s.Content, InShape, PartOfContent;
    PlaneHasValues(g, depth, c);
    var n := g.Raster(sy, sx);
    g.RasterInside(sy, sx);
    assert SliceCoded(g, slices, planes[c], c, depth, q, sy, sx);
    CodedIsRead(s, g, base, ilength, depth, q, slices, planes, n);
  }

  /** A picture that was coded can be read, and nothing that earlier slices left shows. */
  lemma CodedIsSettled(s: Source, g: Grid, base: nat, ilength: nat, depth: nat, q: int -> Matrix,
                       slices: seq<SliceLayout.Slice>, planes: seq<Plane>)
    requires PictureCoded(s, g, base, ilength, depth, q, slices, planes) && Suits(g, depth) && SameSides(g)
    ensures Readable(s, base, base + ilength, g.Slices()) && SettledPicture(s, g, base)
  {
    hide PictureCoded, CleanPicture, Suits, SettledPicture, s.Overruns;
    CodedIsCleanPicture(s, g, base, ilength, depth, q, slices, planes);
    CleanIsSettled(s, g, base, depth);
    forall k: nat | k < g.Slices() ensures !s.Overruns(s.Addr(base, k), base + ilength) {
      CodedIsRead(s, g, base, ilength, depth, q, slices, planes, k);
    }
  }

  /** The planes are the coefficients of a video. */
  ghost predicate Decomposed(g: Grid, depth: nat, video: seq<Plane>, planes: seq<Plane>) {
    && |video| == |planes| == 3
    && forall c: nat :: c < 3 ==> PlaneDecomposed(PlaneGrid(g, c), depth, video[c], planes[c])
  }

  ghost predicate PlaneDecomposed(k: Grid, depth: nat, video: Plane, p: Plane) {
    var h, w := k.ay.slices * k.ay.size, k.ax.slices * k.ax.size;
    Rect(video, h, w) && LevelsOk(LeGall53, h, w, depth) && p == Decompose(LeGall53, video, h, w, depth)
  }

  /** Every sample of a video that was coded, cut into whatever slices, comes out of the decoder, whatever its jobs and
      their order: raised by half of the range, and clipped to it; but for the columns that the last pass does not
      store. */
  lemma VideoComesBack(s: Source, g: Grid, base: nat, ilength: nat, depth: nat, bits: nat, q: int -> Matrix,
                       slices: seq<SliceLayout.Slice>, planes: seq<Plane>, video: seq<Plane>, order: seq<Id>,
                       was: seq<Plane>, now: seq<Plane>, c: nat, i: nat, j: nat) returns (id: Id)
    requires PictureCoded(s, g, base, ilength, depth, q, slices, planes) && Decomposed(g, depth, video, planes)
    requires Suits(g, depth) && PlanesRan(s, g, base, depth, bits, q, order, |order|, was, now) && c < 3 && bits > 0
    requires i < PlaneGrid(g, c).ay.length && j < PlaneGrid(g, c).ax.length
    ensures i < |now[c]| == |was[c]| && j < |now[c][i]| == |was[c][i]| && i < |video[c]| && j < |video[c][i]|
    ensures var k := PlaneGrid(g, c);
            && k.Valid() && Covered(k.ay) && Covered(k.ax) && id.y < k.ay.jobs && id.x < k.ax.jobs
            && Delivering(k, id.y, id.x, i, j)
            && if ColumnMissed(k, id.y, id.x, j) then now[c][i][j] == was[c][i][j]
               else Output.Holds(bits, now[c][i][j], video[c][i][j])
  {
    hide PictureCoded, Suits, PlanesRan, PlaneOf, ColumnMissed, Delivering, Output.Shown, Output.Holds;
    hide Axis.Valid, Axis.Fits, Covered, LevelsOk, Reconstruct, Decompose, PlaneGrid;
    id := EverySample(s, g, base, depth, bits, q, order, was, now, c, i, j);
    CodedIsPlane(s, g, base, ilength, depth, q, slices, planes, c);
    var k := PlaneGrid(g, c);
    assert PlaneDecomposed(k, depth, video[c], planes[c]);
    PerfectReconstruction(LeGall53, video[c], k.ay.slices * k.ay.size, k.ax.slices * k.ax.size, depth);
    Output.ShownExactly(bits, Output.Shown(bits, video[c][i][j]), video[c][i][j]);
  }
}
