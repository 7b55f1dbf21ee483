/** A job's slices, decoded one after the other through the same buffer and dequantised into the planes of its
    window. The buffer is not cleared between slices. */
module SliceLoading {
  import opened VlcMachine
  import opened VlcDecode
  import opened Planes
  import opened Pyramid
  import opened Dequantiser
  import opened SliceStream
  import opened JobBuffers
  import VlcTheorems

  function BlockOf(s: Source, r: Record, c: nat): seq<Byte>
    requires c < 3
  {
    s.Bytes(r.data[c], r.length[c])
  }

  /** The first n values of the buffer after a block: those left alone are as they were. */
  function After(block: seq<Byte>, n: nat, before: seq<int>): (r: seq<int>)
    requires |before| == n
    ensures |r| == n
    ensures forall i :: 0 <= i < n ==> r[i] == if Skipped(block, n, i) then before[i] else Coefficients(block, n)[i]
  {
    seq(n, i requires 0 <= i < n => if Skipped(block, n, i) then before[i] else Coefficients(block, n)[i])
  }

  /** And after the first k blocks. */
  function ScratchAt(blocks: seq<seq<Byte>>, n: nat, before: seq<int>, k: nat): (r: seq<int>)
    requires |before| == n && k <= |blocks|
    ensures |r| == n
  {
    if k == 0 then before else After(blocks[k - 1], n, ScratchAt(blocks, n, before, k - 1))
  }

  /** One component of one slice, into its place in the plane. */
  method DecodeSlice(block: seq<Byte>, p: Component, t: Patch, q: Matrix, depth: nat)
    requires p.scratch.Length >= p.size + 8 && p.size >= t.h * t.w && t.canvas == p.video && t.Valid()
    requires p.scratch != p.video.mem
    modifies p.scratch, p.video.mem
    ensures p.scratch[..p.size] == After(block, p.size, old(p.scratch[..p.size]))
    ensures forall y, x :: 0 <= y < t.h && 0 <= x < t.w ==>
      t.Snapshot()[y][x] == ValueOf(t.h, t.w, depth, 0, q, p.scratch[..p.size], y, x)
    ensures t.Kept(old(p.video.Snapshot()), p.video.Snapshot())
  {
    hide Skipped, Coefficients, ValueOf, t.Kept, Canvas.Snapshot, Canvas.Valid, Patch.Snapshot;
    var before := p.scratch[..p.size];
    var padding := DecodeC(block, p.scratch, p.size);
    assert p.scratch[..p.size] == After(block, p.size, before);
    var used := Dequantise(t, q, p.scratch[..p.size], depth);
  }

  // ----- all the slices of a job

  /** The records of ny rows of nx slices, dequantised height by full samples of luma each, from as many values as
      sizes says for each component; the quantiser of an index. */
  datatype Work = Work(s: Source, recs: seq<Record>, ny: nat, nx: nat, height: nat, full: nat, sizes: seq<nat>,
                       depth: nat, q: int -> Matrix) {
    predicate Valid() {
      |recs| == ny * nx && |sizes| == 3 && forall c: nat :: c < 3 ==> Used(c) <= Size(c)
    }

    function Wide(c: nat): nat {
      Across(full, c)
    }

    /** The values of a slice that are dequantised. */
    function Used(c: nat): nat {
      height * Wide(c)
    }

    /** The column at which slice x begins. */
    function Left(c: nat, x: nat): nat {
      Across(x * full, c)
    }

    /** The values that are decoded. */
    function Size(c: nat): nat {
      if c < |sizes| then sizes[c] else 0
    }

    function Blocks(c: nat): (b: seq<seq<Byte>>)
      requires c < 3
      ensures |b| == |recs|
    {
      seq(|recs|, i requires 0 <= i < |recs| => BlockOf(s, recs[i], c))
    }

    /** The plane of a component has room for the slices, and there is room for a decoded one. */
    predicate Fits(p: Component, c: nat)
      requires Valid() && c < 3
    {
      && p.size == Size(c) && p.scratch.Length >= p.size + 8 && p.scratch != p.video.mem
      && p.video.Valid() && ny * height <= p.video.h && Left(c, nx) <= p.video.w
    }

    /** The place of slice (y, x). */
    function PatchOf(p: Component, c: nat, y: nat, x: nat): Patch {
      Patch(p.video, y * height, Left(c, x), height, Wide(c))
    }

    lemma PatchInside(p: Component, c: nat, y: nat, x: nat)
      requires Valid() && c < 3 && Fits(p, c) && y < ny && x < nx
      ensures PatchOf(p, c, y, x).Valid() && Number(nx, y, x) < |recs|
    {
      Products(ny, y, height);
      LeftApart(c, x, nx);
      Products(ny, y, nx);
    }

    /** Slices lie side by side. */
    lemma LeftApart(c: nat, x: nat, k: nat)
      requires x < k
      ensures Left(c, x) + Wide(c) <= Left(c, k)
    {
      Products(k, x, full);
      Halves(x * full, full, k * full);
    }

    /** Sample (i, j) lies in slice (y, x). */
    predicate InSlice(c: nat, y: nat, x: nat, i: int, j: int) {
      y * height <= i < y * height + height && Left(c, x) <= j < Left(c, x) + Wide(c)
    }

    /** The slice that a sample lies in, when the slices' chroma lies without gaps. */
    lemma SliceOf(c: nat, i: nat, j: nat)
      requires height > 0 && Wide(c) > 0 && (c == 0 || full % 2 == 0) && i < ny * height && j < nx * Wide(c)
      ensures var y, x := i / height, j / Wide(c);
              && y < ny && x < nx && InSlice(c, y, x, i, j) && Number(nx, y, x) < ny * nx
              && i - y * height == i % height && j - Left(c, x) == j % Wide(c)
    {
      var y, x := i / height, j / Wide(c);
      assert i == y * height + i % height && j == x * Wide(c) + j % Wide(c);
      SmallerFactor(y, ny, height);
      SmallerFactor(x, nx, Wide(c));
      Products(ny, y, nx);
      if c != 0 {
        var h := full / 2;
        assert x * full == x * h * 2;
        MultipleDivides(x * h, 2);
      }
    }

    /** No sample lies in two slices. */
    lemma SlicesApart(c: nat, y: nat, x: nat, v: nat, u: nat, i: int, j: int)
      requires InSlice(c, y, x, i, j) && InSlice(c, v, u, i, j)
      ensures y == v && x == u
    {
      if y != v {
        Products(if y < v then v else y, if y < v then y else v, height);
      }
      if x != u {
        LeftApart(c, if x < u then x else u, if x < u then u else x);
      }
    }

    /** A sample of a slice that has been loaded has its value. */
    ghost predicate LoadedIn(c: nat, now: Plane, before: seq<int>, y: nat, x: nat)
      requires Valid() && c < 3 && |before| == Size(c) && y < ny && x < nx
    {
      Products(ny, y, nx);
      forall i: nat, j: nat :: i < |now| && j < |now[i]| && InSlice(c, y, x, i, j) ==>
        now[i][j] == PatchValue(this, c, Number(nx, y, x), before, i - y * height, j - Left(c, x))
    }

    /** No slice before number k has this sample. */
    ghost predicate Outside(c: nat, k: nat, i: nat, j: nat) {
      forall y: nat, x: nat :: y < ny && x < nx && Number(nx, y, x) < k ==> !InSlice(c, y, x, i, j)
    }

    /** The plane when k slices have been loaded. */
    ghost predicate LoadedUpTo(c: nat, now: Plane, was: Plane, before: seq<int>, k: nat)
      requires Valid() && c < 3 && |before| == Size(c)
    {
      && Alike(now, was)
      && (forall y: nat, x: nat :: y < ny && x < nx && Number(nx, y, x) < k ==> LoadedIn(c, now, before, y, x))
      && (forall i: nat, j: nat :: i < |now| && j < |now[i]| && Outside(c, k, i, j) ==> now[i][j] == was[i][j])
    }

    /** And when all have been. */
    ghost predicate Loaded(c: nat, now: Plane, was: Plane, before: seq<int>)
      requires c < 3
    {
      Valid() && |before| == Size(c) && LoadedUpTo(c, now, was, before, |recs|)
    }
  }

  predicate Alike(p: Plane, q: Plane) {
    |p| == |q| && forall i :: 0 <= i < |p| ==> |p[i]| == |q[i]|
  }

  lemma Halves(a: nat, b: nat, d: nat)
    requires a + b <= d
    ensures a / 2 + b / 2 <= d / 2
  {}

  /** What a sample of a patch is loaded with: the value at its place, from the buffer as it is after the slice. */
  function PatchValue(w: Work, c: nat, n: nat, before: seq<int>, y: int, x: int): int
    requires w.Valid() && c < 3 && |before| == w.Size(c) && n < |w.recs| && y >= 0 && x >= 0
  {
    ValueOf(w.height, w.Wide(c), w.depth, 0, w.q(w.recs[n].q), ScratchAt(w.Blocks(c), w.Size(c), before, n + 1), y, x)
  }

  /** A sample of slices without gaps has the value of its place in its slice. */
  lemma LoadedValue(w: Work, c: nat, now: Plane, was: Plane, before: seq<int>, i: nat, j: nat)
    requires c < 3 && w.Loaded(c, now, was, before) && i < |now| && j < |now[i]|
    requires w.height > 0 && w.Wide(c) > 0 && (c == 0 || w.full % 2 == 0)
    requires i < w.ny * w.height && j < w.nx * w.Wide(c)
    ensures var n := Number(w.nx, Quo(i, w.height), Quo(j, w.Wide(c)));
            n < |w.recs| && now[i][j] == PatchValue(w, c, n, before, i % w.height, j % w.Wide(c))
  {
    hide PatchValue, Number, Work.InSlice, Work.Outside, Work.Left;
    w.SliceOf(c, i, j);
    assert w.LoadedIn(c, now, before, i / w.height, j / w.Wide(c));
  }

  /** The slices before one that is next in number are those before it, and it. */
  lemma OutsideNext(w: Work, c: nat, y: nat, x: nat, i: nat, j: nat)
    requires y < w.ny && x < w.nx && w.Outside(c, Number(w.nx, y, x) + 1, i, j)
    ensures w.Outside(c, Number(w.nx, y, x), i, j) && !w.InSlice(c, y, x, i, j)
  {
    hide Number, Work.InSlice;
  }

  /** One more slice is in its patch. */
  lemma OneMoreLoaded(w: Work, p: Component, c: nat, y: nat, x: nat, was: Plane, before: seq<int>, mid: Plane,
                      now: Plane)
    requires w.Valid() && c < 3 && w.Fits(p, c) && |before| == w.Size(c) && y < w.ny && x < w.nx
    requires Number(w.nx, y, x) < |w.recs|
    requires Rect(was, p.video.h, p.video.w) && Rect(mid, p.video.h, p.video.w) && Rect(now, p.video.h, p.video.w)
    requires w.LoadedUpTo(c, mid, was, before, Number(w.nx, y, x)) && w.PatchOf(p, c, y, x).Kept(mid, now)
    requires var n, t := Number(w.nx, y, x), w.PatchOf(p, c, y, x);
             forall i, j :: 0 <= i < p.video.h && 0 <= j < p.video.w && t.Covers(i, j) ==>
               now[i][j] == PatchValue(w, c, n, before, i - t.y, j - t.x)
    ensures w.LoadedUpTo(c, now, was, before, Number(w.nx, y, x) + 1)
  {
    hide PatchValue, Work.Wide, Work.Size, Work.Left, Work.Valid, Work.Outside, Canvas.Valid, Work.Fits, Number;
    forall v: nat, u: nat | v < w.ny && u < w.nx && Number(w.nx, v, u) < Number(w.nx, y, x) + 1
      ensures w.LoadedIn(c, now, before, v, u)
    {
      NumberUnique(w.nx, y, x, v, u);
      if v == y && u == x {
        JustLoaded(w, p, c, y, x, before, now);
      } else {
        StillLoaded(w, p, c, y, x, v, u, before, mid, now);
      }
    }
    forall i: nat, j: nat | i < |now| && j < |now[i]| && w.Outside(c, Number(w.nx, y, x) + 1, i, j)
      ensures now[i][j] == was[i][j]
    {
      OutsideNext(w, c, y, x, i, j);
      assert mid[i][j] == was[i][j];
    }
  }

  lemma JustLoaded(w: Work, p: Component, c: nat, y: nat, x: nat, before: seq<int>, now: Plane)
    requires w.Valid() && c < 3 && |before| == w.Size(c) && y < w.ny && x < w.nx && Number(w.nx, y, x) < |w.recs|
    requires Rect(now, p.video.h, p.video.w)
    requires var n, t := Number(w.nx, y, x), w.PatchOf(p, c, y, x);
             forall i, j :: 0 <= i < p.video.h && 0 <= j < p.video.w && t.Covers(i, j) ==>
               now[i][j] == PatchValue(w, c, n, before, i - t.y, j - t.x)
    ensures w.LoadedIn(c, now, before, y, x)
  {
    hide PatchValue, Work.Wide, Work.Size, Work.Left, Work.Valid, Canvas.Valid, Number;
  }

  lemma StillLoaded(w: Work, p: Component, c: nat, y: nat, x: nat, v: nat, u: nat, before: seq<int>, mid: Plane,
                    now: Plane)
    requires w.Valid() && c < 3 && |before| == w.Size(c) && v < w.ny && u < w.nx && (v != y || u != x)
    requires Rect(mid, p.video.h, p.video.w) && Rect(now, p.video.h, p.video.w)
    requires w.PatchOf(p, c, y, x).Kept(mid, now) && w.LoadedIn(c, mid, before, v, u)
    ensures w.LoadedIn(c, now, before, v, u)
  {
    forall i: nat, j: nat | i < |now| && j < |now[i]| && w.InSlice(c, v, u, i, j) ensures now[i][j] == mid[i][j] {
      if w.InSlice(c, y, x, i, j) {
        w.SlicesApart(c, y, x, v, u, i, j);
        assert false;
      }
    }
    hide PatchValue, Work.Wide, Work.Size, Work.Left, Work.Valid, Canvas.Valid, Number, Work.InSlice;
  }

  /** A component when k slices have been loaded. */
  ghost predicate Loading(w: Work, p: Component, c: nat, was: Plane, before: seq<int>, k: nat)
    requires w.Valid() && c < 3 && w.Fits(p, c)
    reads p.scratch, p.video.mem
  {
    && k <= |w.recs| && |before| == w.Size(c) && Rect(was, p.video.h, p.video.w)
    && p.scratch[..p.size] == ScratchAt(w.Blocks(c), w.Size(c), before, k)
    && w.LoadedUpTo(c, p.video.Snapshot(), was, before, k)
  }

  method LoadComponent(w: Work, p: Component, c: nat, y: nat, x: nat, ghost was: Plane, ghost before: seq<int>)
    requires w.Valid() && c < 3 && w.Fits(p, c) && y < w.ny && x < w.nx
    requires Loading(w, p, c, was, before, Number(w.nx, y, x))
    modifies p.scratch, p.video.mem
    ensures Loading(w, p, c, was, before, Number(w.nx, y, x) + 1)
  {
    hide Number, ValueOf, BlockOf, Canvas.Valid, Canvas.Snapshot, Work.LoadedUpTo, Patch.Kept;
    var n := y * w.nx + x;
    assert n == Number(w.nx, y, x) by { NumberIs(w.nx, y, x); }
    w.PatchInside(p, c, y, x);
    var t := Patch(p.video, y * w.height, if c == 0 then x * w.full else x * w.full / 2,
                   w.height, if c == 0 then w.full else w.full / 2);
    assert t == w.PatchOf(p, c, y, x);
    hide Across;
    ghost var mid := p.video.Snapshot();
    DecodeSlice(BlockOf(w.s, w.recs[n], c), p, t, w.q(w.recs[n].q), w.depth);
    PatchValues(w, p, c, t, w.q(w.recs[n].q), p.scratch[..p.size]);
    OneMoreLoaded(w, p, c, y, x, was, before, mid, p.video.Snapshot());
  }

  lemma NumberIs(n: nat, i: nat, j: nat)
    ensures Number(n, i, j) == i * n + j
  {}

  lemma PatchValues(w: Work, p: Component, c: nat, t: Patch, q: Matrix, data: seq<int>)
    requires w.Valid() && c < 3 && w.Fits(p, c) && t.Valid() && t.canvas == p.video
    requires forall y, x :: 0 <= y < t.h && 0 <= x < t.w ==>
               t.Snapshot()[y][x] == ValueOf(t.h, t.w, w.depth, 0, q, data, y, x)
    ensures forall i, j :: 0 <= i < p.video.h && 0 <= j < p.video.w && t.Covers(i, j) ==>
              p.video.Snapshot()[i][j] == ValueOf(t.h, t.w, w.depth, 0, q, data, i - t.y, j - t.x)
  {
    hide ValueOf, Canvas.Valid, Canvas.Snapshot;
    forall i: nat, j: nat | i < p.video.h && j < p.video.w && t.Covers(i, j)
      ensures p.video.Snapshot()[i][j] == ValueOf(t.h, t.w, w.depth, 0, q, data, i - t.y, j - t.x)
    {
      assert t.Snapshot()[i - t.y][j - t.x] == p.video.Snapshot()[i][j];
    }
  }

  /** The three components have memory of their own. */
  predicate Ready(w: Work, ps: seq<Component>) {
    && w.Valid() && |ps| == 3 && (forall c: nat :: c < 3 ==> w.Fits(ps[c], c))
    && (forall c, d :: 0 <= c < 3 && 0 <= d < 3 ==> ps[c].scratch != ps[d].video.mem)
    && (forall c, d :: 0 <= c < d < 3 ==> ps[c].scratch != ps[d].scratch && ps[c].video.mem != ps[d].video.mem)
  }

  ghost predicate AllLoading(w: Work, ps: seq<Component>, was: seq<Plane>, before: seq<seq<int>>, k: nat)
    requires Ready(w, ps)
    reads Buffers(ps)
  {
    |was| == |before| == 3 && forall c: nat :: c < 3 ==> Loading(w, ps[c], c, was[c], before[c], k)
  }

  /** The three components of one slice. */
  method LoadSlice(w: Work, ps: seq<Component>, y: nat, x: nat, ghost was: seq<Plane>, ghost before: seq<seq<int>>)
    requires Ready(w, ps) && y < w.ny && x < w.nx && AllLoading(w, ps, was, before, Number(w.nx, y, x))
    modifies Buffers(ps)
    ensures AllLoading(w, ps, was, before, Number(w.nx, y, x) + 1)
  {
    hide Loading, Number, Work.Valid, Work.Fits;
    LoadComponent(w, ps[0], 0, y, x, was[0], before[0]);
    LoadComponent(w, ps[1], 1, y, x, was[1], before[1]);
    LoadComponent(w, ps[2], 2, y, x, was[2], before[2]);
  }

  /** All slices of the job, row by row. */
  method LoadSlices(w: Work, ps: seq<Component>)
    requires Ready(w, ps)
    modifies Buffers(ps)
    ensures forall c: nat :: c < 3 ==>
      w.LoadedUpTo(c, ps[c].video.Snapshot(), old(ps[c].video.Snapshot()), old(ps[c].scratch[..ps[c].size]), |w.recs|)
  {
    hide Loading, Number, Work.Valid, Work.Fits, Work.LoadedUpTo, Canvas.Snapshot, Canvas.Valid;
    ghost var was, before := PlanesOf(w, ps), Scratches(w, ps);
    NothingLoaded(w, ps);
    RowEnds(w, 0);
    var y := 0;
    while y < w.ny
      invariant y <= w.ny && AllLoading(w, ps, was, before, Number(w.nx, y, 0))
    {
      var x := 0;
      RowEnds(w, y);
      while x < w.nx
        invariant x <= w.nx && AllLoading(w, ps, was, before, Number(w.nx, y, x))
      {
        LoadSlice(w, ps, y, x, was, before);
        NextNumber(w.nx, y, x);
        x := x + 1;
      }
      y := y + 1;
    }
    RowEnds(w, y);
    AllOfThem(w, ps, was, before);
  }

  lemma NextNumber(n: nat, i: nat, j: nat)
    ensures Number(n, i, j) + 1 == Number(n, i, j + 1)
  {}

  lemma RowEnds(w: Work, y: nat)
    requires w.Valid()
    ensures Number(w.nx, 0, 0) == 0 && Number(w.nx, y, w.nx) == Number(w.nx, y + 1, 0)
    ensures Number(w.nx, w.ny, 0) == |w.recs|
  {}

  ghost function PlanesOf(w: Work, ps: seq<Component>): (r: seq<Plane>)
    requires Ready(w, ps)
    reads Buffers(ps)
    ensures |r| == 3 && forall c: nat :: c < 3 ==> r[c] == ps[c].video.Snapshot()
  {
    [ps[0].video.Snapshot(), ps[1].video.Snapshot(), ps[2].video.Snapshot()]
  }

  ghost function Scratches(w: Work, ps: seq<Component>): (r: seq<seq<int>>)
    requires Ready(w, ps)
    reads Buffers(ps)
    ensures |r| == 3 && forall c: nat :: c < 3 ==> r[c] == ps[c].scratch[..ps[c].size]
  {
    [ps[0].scratch[..ps[0].size], ps[1].scratch[..ps[1].size], ps[2].scratch[..ps[2].size]]
  }

  lemma NothingLoaded(w: Work, ps: seq<Component>)
    requires Ready(w, ps)
    ensures AllLoading(w, ps, PlanesOf(w, ps), Scratches(w, ps), 0)
  {
    hide Number, Canvas.Snapshot, Canvas.Valid;
  }

  lemma AllOfThem(w: Work, ps: seq<Component>, was: seq<Plane>, before: seq<seq<int>>)
    requires Ready(w, ps) && AllLoading(w, ps, was, before, |w.recs|)
    ensures forall c: nat :: c < 3 ==>
      && |before[c]| == w.Size(c) && Rect(was[c], ps[c].video.h, ps[c].video.w)
      && w.LoadedUpTo(c, ps[c].video.Snapshot(), was[c], before[c], |w.recs|)
  {
    hide Work.LoadedUpTo, Canvas.Snapshot, Canvas.Valid;
  }

  // ----- when the buffer's old contents do not show

  /** The value of a sample when its slice is decoded by itself. */
  function ByItself(w: Work, c: nat, n: nat, y: nat, x: nat): int
    requires w.Valid() && c < 3 && n < |w.recs|
  {
    ValueOf(w.height, w.Wide(c), w.depth, 0, w.q(w.recs[n].q), Coefficients(w.Blocks(c)[n], w.Size(c)), y, x)
  }

  /** Every sample of the job is loaded as if its slice had been decoded by itself. */
  ghost predicate LoadedExactly(w: Work, c: nat, before: seq<int>)
    requires w.Valid() && c < 3 && |before| == w.Size(c)
  {
    forall n: nat, y: nat, x: nat :: n < |w.recs| && y < w.height && x < w.Wide(c) ==>
      PatchValue(w, c, n, before, y, x) == ByItself(w, c, n, y, x)
  }

  /** The value that the last of the first n blocks to write slot k left there, if any did. */
  function Written(blocks: seq<seq<Byte>>, size: nat, n: nat, k: nat): Option
    requires n <= |blocks| && k < size
  {
    if n == 0 then None
    else if Skipped(blocks[n - 1], size, k) then Written(blocks, size, n - 1, k)
    else Some(Coefficients(blocks[n - 1], size)[k])
  }

  datatype Option = None | Some(value: int)

  lemma {:induction false} ScratchIsWritten(blocks: seq<seq<Byte>>, size: nat, before: seq<int>, n: nat, k: nat)
    requires |before| == size && n <= |blocks| && k < size
    ensures ScratchAt(blocks, size, before, n)[k]
            == match Written(blocks, size, n, k) case None => before[k] case Some(v) => v
  {
    hide Skipped, Coefficients;
    if n > 0 {
      ScratchIsWritten(blocks, size, before, n - 1, k);
    }
  }

  /** Every slot, of those that are used, that a block leaves alone has been written by an earlier one, and last
      as zero. */
  predicate Settled(blocks: seq<seq<Byte>>, size: nat, used: nat)
    requires used <= size
  {
    forall n: nat, k: nat :: n < |blocks| && k < used && Skipped(blocks[n], size, k) ==>
        Written(blocks, size, n, k) == Some(0)
  }

  /** A quantiser takes nothing but zero to zero. */
  ghost predicate Faithful(q: Matrix) {
    forall level: nat, band: nat, d: int :: q.Scaled(level, band, d) == 0 ==> d == 0
  }

  lemma SkippedCoefficient(block: seq<Byte>, size: nat, k: nat)
    requires k < size && Skipped(block, size, k)
    ensures Coefficients(block, size)[k] == 0
  {
    VlcTheorems.SkippedIsZero(block, size, k);
  }

  /** The sample that takes input k of a slice. */
  lemma SampleOfInput(w: Work, c: nat, k: nat) returns (y: nat, x: nat)
    requires w.Valid() && c < 3 && k < w.Used(c)
    ensures y < w.height && x < w.Wide(c) && OriginOf(w.height, w.Wide(c), w.depth, 0, y, x).index == k
  {
    PointsInside(w.height, w.Wide(c), 0);
    y, x := EveryInput(w.height, w.Wide(c), w.depth, 0, k);
  }

  lemma InputOfSample(w: Work, c: nat, y: nat, x: nat)
    requires w.Valid() && c < 3 && y < w.height && x < w.Wide(c)
    ensures OriginOf(w.height, w.Wide(c), w.depth, 0, y, x).index < w.Used(c) <= w.Size(c)
  {
    PointsInside(w.height, w.Wide(c), 0);
    OriginInside(w.height, w.Wide(c), w.depth, 0, y, x);
  }

  /** One sample is loaded exactly when its input was written for this slice, or was zero before. */
  lemma SampleExactly(w: Work, c: nat, before: seq<int>, n: nat, y: nat, x: nat)
    requires w.Valid() && c < 3 && |before| == w.Size(c) && n < |w.recs| && y < w.height && x < w.Wide(c)
    requires Faithful(w.q(w.recs[n].q))
    ensures var k := OriginOf(w.height, w.Wide(c), w.depth, 0, y, x).index;
            && k < w.Size(c)
            && (PatchValue(w, c, n, before, y, x) == ByItself(w, c, n, y, x) <==>
                (Skipped(w.Blocks(c)[n], w.Size(c), k) ==> ScratchAt(w.Blocks(c), w.Size(c), before, n)[k] == 0))
  {
    hide Skipped, Coefficients, OriginOf, Work.Blocks, Matrix.Scaled;
    InputOfSample(w, c, y, x);
    var o := OriginOf(w.height, w.Wide(c), w.depth, 0, y, x);
    if Skipped(w.Blocks(c)[n], w.Size(c), o.index) {
      SkippedCoefficient(w.Blocks(c)[n], w.Size(c), o.index);
      ZeroScales(w.q(w.recs[n].q), o.level, o.band);
    }
  }

  lemma ZeroScales(q: Matrix, level: nat, band: nat)
    ensures q.Scaled(level, band, 0) == 0
  {}

  lemma SettledLoadsExactly(w: Work, c: nat, before: seq<int>)
    requires w.Valid() && c < 3 && |before| == w.Size(c) && Settled(w.Blocks(c), w.Size(c), w.Used(c))
    ensures LoadedExactly(w, c, before)
  {
    hide Skipped, Written, Settled, Work.Blocks, Work.Size, ScratchAt, Coefficients, OriginOf, Matrix.Scaled;
    forall n: nat, y: nat, x: nat | n < |w.recs| && y < w.height && x < w.Wide(c)
      ensures PatchValue(w, c, n, before, y, x) == ByItself(w, c, n, y, x)
    {
      InputOfSample(w, c, y, x);
      var k := OriginOf(w.height, w.Wide(c), w.depth, 0, y, x).index;
      SettledAfter(w.Blocks(c), w.Size(c), w.Used(c), before, n, k);
    }
  }

  /** In settled blocks the buffer holds a block's coefficients after it, though not all were written. */
  lemma SettledAfter(blocks: seq<seq<Byte>>, size: nat, used: nat, before: seq<int>, n: nat, k: nat)
    requires |before| == size && k < used <= size && n < |blocks| && Settled(blocks, size, used)
    ensures ScratchAt(blocks, size, before, n + 1)[k] == Coefficients(blocks[n], size)[k]
  {
    hide Skipped, Coefficients, Written;
    if Skipped(blocks[n], size, k) {
      ScratchIsWritten(blocks, size, before, n, k);
      SkippedCoefficient(blocks[n], size, k);
    }
  }

  /** An unsettled slot shows on a buffer that holds ones. */
  lemma UnsettledShows(w: Work, c: nat, n: nat, k: nat)
    requires w.Valid() && c < 3 && n < |w.recs| && k < w.Used(c) && Faithful(w.q(w.recs[n].q))
    requires Skipped(w.Blocks(c)[n], w.Size(c), k) && Written(w.Blocks(c), w.Size(c), n, k) != Some(0)
    ensures !LoadedExactly(w, c, seq(w.Size(c), i => 1))
  {
    hide PatchValue, ByItself, Skipped, OriginOf, ScratchAt, Written, Faithful, Work.Blocks, Work.Size;
    var ones := seq(w.Size(c), i => 1);
    ScratchIsWritten(w.Blocks(c), w.Size(c), ones, n, k);
    var y, x := SampleOfInput(w, c, k);
    SampleExactly(w, c, ones, n, y, x);
    assert PatchValue(w, c, n, ones, y, x) != ByItself(w, c, n, y, x);
  }

  /** Whatever the buffer held, the slices are loaded as if each were decoded by itself, exactly when every slot
      that one leaves alone was last written, by an earlier one of the job, as zero. */
  lemma HarmlessExactly(w: Work, c: nat)
    requires w.Valid() && c < 3 && forall n :: 0 <= n < |w.recs| ==> Faithful(w.q(w.recs[n].q))
    ensures (forall before: seq<int> :: |before| == w.Size(c) ==> LoadedExactly(w, c, before))
       <==> Settled(w.Blocks(c), w.Size(c), w.Used(c))
  {
    hide LoadedExactly, Skipped, Written, Faithful, Work.Blocks, Work.Size;
    if Settled(w.Blocks(c), w.Size(c), w.Used(c)) {
      forall before: seq<int> | |before| == w.Size(c) ensures LoadedExactly(w, c, before) {
        SettledLoadsExactly(w, c, before);
      }
    } else {
      var n: nat, k: nat :| n < |w.Blocks(c)| && k < w.Used(c) && Skipped(w.Blocks(c)[n], w.Size(c), k)
        && Written(w.Blocks(c), w.Size(c), n, k) != Some(0);
      UnsettledShows(w, c, n, k);
    }
  }

  /** An empty block of twelve values or more leaves four slots alone. */
  lemma EmptyBlockSkips(n: nat, i: nat)
    requires n >= 12 && 8 <= i < 12
    ensures Skipped([], n, i) && !Clean([], n)
  {
    VlcTheorems.EmptyBlock();
  }
}
