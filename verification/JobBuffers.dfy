/** What a decoding job needs besides its slices: for each of the three components a buffer for one decoded
    slice, a plane for its window, and the rectangle of the output that it writes. */
module JobBuffers {
  import opened Planes
  import opened Pyramid
  import opened JobGrid

  /** Where a job's part begins in its plane, its extent, and where it goes in the output. */
  datatype Area = Area(y: int, x: int, h: int, w: int, toY: int, toX: int)

  /** The buffer of the one decoded slice, of which size values are used. */
  datatype Component = Component(scratch: array<int>, size: nat, video: Canvas, area: Area)

  /** The chroma components have half the width. */
  function Across(n: int, c: nat): int {
    if c == 0 then n else if n < 0 then -(-n / 2) else n / 2
  }

  /** A job's window has slices to decode, and slices have samples. */
  predicate Peopled(a: Axis, j: nat)
    requires a.Valid() && j < a.jobs
  {
    a.size > 0 && a.Count(j) > 0
  }

  function Height(ay: Axis, jy: nat): (h: nat)
    requires ay.Valid() && jy < ay.jobs && Peopled(ay, jy)
  {
    ay.Count(jy) * ay.size
  }

  function Width(ax: Axis, jx: nat, c: nat): (w: nat)
    requires ax.Valid() && jx < ax.jobs && Peopled(ax, jx)
  {
    Across(ax.Count(jx) * ax.size, c)
  }

  /** The values of one slice. */
  function SliceSize(ay: Axis, jy: nat, ax: Axis, jx: nat, c: nat): nat
    requires ay.Valid() && jy < ay.jobs && Peopled(ay, jy) && ax.Valid() && jx < ax.jobs && Peopled(ax, jx)
  {
    Share(Width(ax, jx, c), Height(ay, jy), ax.Count(jx), ay.Count(jy))
  }

  /** A plane's samples, shared out to n by m slices. */
  function Share(w: nat, h: nat, n: nat, m: nat): nat
    requires n > 0 && m > 0
  {
    w * h / n / m
  }

  /** Room for a slice and the eight stores past its end, in blocks of sixteen. */
  function Allocated(size: nat): (n: nat)
    ensures n % 16 == 0 && size + 8 <= n < size + 8 + 16
  {
    (size + 8 + 15) / 16 * 16
  }

  /** Rows begin 64 bytes apart or a multiple of it. */
  function Stride(w: nat, sampleSize: nat): (n: nat)
    requires sampleSize == 2 || sampleSize == 4
    ensures n * sampleSize % 64 == 0 && n >= w && (n - w) * sampleSize < 64
  {
    var align := 64 / sampleSize;
    (w + align - 1) / align * align
  }

  function AreaOf(ay: Axis, jy: nat, ax: Axis, jx: nat, c: nat): Area
    requires ay.Valid() && jy < ay.jobs && ay.size > 0 && ax.Valid() && jx < ax.jobs && ax.size > 0
  {
    Area(if jy > 0 then ay.overlap * ay.size else 0, Across(if jx > 0 then ax.overlap * ax.size else 0, c),
         OutputSize(ay, jy), Across(OutputSize(ax, jx), c), Target(ay, jy), Across(Target(ax, jx), c))
  }

  predicate IsComponent(p: Component, ay: Axis, jy: nat, ax: Axis, jx: nat, c: nat)
    requires ay.Valid() && jy < ay.jobs && ax.Valid() && jx < ax.jobs
  {
    && Peopled(ay, jy) && Peopled(ax, jx)
    && p.size == SliceSize(ay, jy, ax, jx, c) && p.scratch.Length == Allocated(p.size)
    && p.video.h == Height(ay, jy) && p.video.w == Width(ax, jx, c)
    && p.video.w <= p.video.stride && p.video.mem.Length == 2 * p.video.stride * p.video.h
    && p.area == AreaOf(ay, jy, ax, jx, c)
  }

  function Buffers(ps: seq<Component>): set<object> {
    (set p | p in ps :: p.scratch) + set p | p in ps :: p.video.mem
  }

  /** Three components with memory of their own. */
  predicate AreComponents(ps: seq<Component>, ay: Axis, jy: nat, ax: Axis, jx: nat)
    requires ay.Valid() && jy < ay.jobs && ax.Valid() && jx < ax.jobs
  {
    && |ps| == 3 && (forall c :: 0 <= c < 3 ==> IsComponent(ps[c], ay, jy, ax, jx, c))
    && (forall c, d :: 0 <= c < 3 && 0 <= d < 3 ==> ps[c].scratch != ps[d].video.mem)
    && (forall c, d :: 0 <= c < d < 3 ==> ps[c].scratch != ps[d].scratch && ps[c].video.mem != ps[d].video.mem)
  }

  method NewComponent(ay: Axis, jy: nat, ax: Axis, jx: nat, c: nat, sampleSize: nat) returns (p: Component)
    requires ay.Valid() && jy < ay.jobs && Peopled(ay, jy) && ax.Valid() && jx < ax.jobs && Peopled(ax, jx)
    requires sampleSize == 2 || sampleSize == 4
    ensures IsComponent(p, ay, jy, ax, jx, c) && p.video.stride == Stride(Width(ax, jx, c), sampleSize)
    ensures fresh(p.scratch) && fresh(p.video.mem) && p.scratch != p.video.mem
  {
    hide Axis.Count, Axis.Valid, Height, Width, Stride, Allocated;
    var h, w, size := Height(ay, jy), Width(ax, jx, c), SliceSize(ay, jy, ax, jx, c);
    var stride := Stride(w, sampleSize);
    var scratch := new int[Allocated(size)];
    var mem := new int[2 * stride * h];
    p := Component(scratch, size, Canvas(mem, h, w, stride), AreaOf(ay, jy, ax, jx, c));
  }

  /** The plane is as large as its window, for slices of even width. */
  lemma ComponentFits(p: Component, ay: Axis, jy: nat, ax: Axis, jx: nat, c: nat)
    requires ay.Valid() && jy < ay.jobs && ax.Valid() && jx < ax.jobs && IsComponent(p, ay, jy, ax, jx, c)
    requires c == 0 || ax.size % 2 == 0
    ensures p.video.w == ax.Count(jx) * Across(ax.size, c) && p.video.h == ay.Count(jy) * ay.size
    ensures p.size == ay.size * Across(ax.size, c)
    ensures p.video.w > 0 ==> p.video.Valid()
  {
    hide Axis.Count, Axis.Valid;
    var n, m, s, t := ax.Count(jx), ay.Count(jy), Across(ax.size, c), ay.size;
    TwiceAsMuch(n, s);
    assert Width(ax, jx, c) == n * s;
    Divided(n, s, m, t);
    RowsInside(p.video.h, p.video.stride);
  }

  lemma Divided(n: nat, s: nat, m: nat, t: nat)
    requires n > 0 && m > 0
    ensures Share(n * s, m * t, n, m) == t * s
  {
    assert n * s * (m * t) == m * (t * s) * n;
    MultipleDivides(m * (t * s), n);
    assert m * (t * s) == t * s * m;
    MultipleDivides(t * s, m);
  }

  lemma RowsInside(h: nat, stride: nat)
    ensures h * stride <= 2 * stride * h
  {
    assert 2 * stride * h == 2 * (h * stride);
  }
}
