/** What one slice leaves behind for the next in the buffer that they share: the grid of jobs can show. */
module Leftovers {
  import opened VlcMachine
  import opened VlcDecode
  import opened Planes
  import opened Dequantiser
  import opened JobGrid
  import opened JobBuffers
  import opened SliceStream
  import opened SliceLoading
  import opened Jobs
  import opened Fragments
  import opened Picture
  import opened Decoding
  import opened Lifting
  import VlcTheorems
  import Losses
  import Seams
  import Output

  // ----- what a slice leaves behind

  /** Slices that are empty but for the first, whose luma is two bytes long: eight zeroes, a one and four zeroes. */
  function OneThenEmpty(): Source {
    Source(k => if k == 1 then 2 else if k == 2 then 0xFF else if k == 3 then 0x2F else 0, 1, 0)
  }

  lemma {:induction false} WhereSlicesAre(k: nat)
    ensures OneThenEmpty().Addr(0, k) == if k == 0 then 0 else 2 + 4 * k
  {
    if k > 0 {
      WhereSlicesAre(k - 1);
    }
  }

  lemma BlocksOf(k: nat)
    ensures var s := OneThenEmpty();
            && BlockOf(s, s.Slice(0, k), 0) == (if k == 0 then [0xFF, 0x2F] else []) && s.Slice(0, k).q == 0
  {
    WhereSlicesAre(k);
  }

  /** Empty blocks, but for the first if it is the picture's. */
  ghost predicate EmptyBut(blocks: seq<seq<Byte>>, first: bool) {
    forall i :: 0 <= i < |blocks| ==> blocks[i] == if i == 0 && first then [0xFF, 0x2F] else []
  }

  /** The first block's coefficient stays in the buffer through all the empty ones. */
  lemma {:induction false} StaysBehind(blocks: seq<seq<Byte>>, size: nat, before: seq<int>, first: bool, n: nat, k: nat)
    requires |before| == size >= 12 && n <= |blocks| && EmptyBut(blocks, first) && k < size
    requires forall i :: 0 <= i < size ==> before[i] == 0
    ensures ScratchAt(blocks, size, before, n)[k] == if k == 8 && first && n > 0 then 1 else 0
  {
    hide After, EmptyBut, Skipped, Coefficients;
    if n > 0 {
      StaysBehind(blocks, size, before, first, n - 1, k);
      EmptyAt(blocks, first, n - 1);
      OneBehind(blocks[n - 1], size, ScratchAt(blocks, size, before, n - 1), k);
    }
  }

  lemma EmptyAt(blocks: seq<seq<Byte>>, first: bool, i: nat)
    requires EmptyBut(blocks, first) && i < |blocks|
    ensures blocks[i] == if i == 0 && first then [0xFF, 0x2F] else []
  {}

  lemma OneBehind(block: seq<Byte>, size: nat, before: seq<int>, k: nat)
    requires |before| == size >= 12 && k < size && (block == [] || block == [0xFF, 0x2F]) && (k != 8 ==> before[k] == 0)
    ensures After(block, size, before)[k] == if k != 8 then 0 else if block == [] then before[8] else 1
  {
    hide Skipped, Coefficients;
    if block == [] {
      EmptyBlockSkips(size, 8);
      VlcTheorems.EmptyIsZero(size);
    } else {
      VlcTheorems.BlockWithOne(block, size);
    }
  }

  /** Two rows of four slices of 32 by 16 samples, in one job or in two by two. */
  function FourByTwo(jobs: nat): Grid {
    Grid(Axis(2, jobs, 1, 16, 32), Axis(4, jobs, Losses.OverlapOf(32), 32, 128))
  }

  lemma SmallPowers(depth: nat)
    requires 0 < depth <= 4
    ensures Pow2(depth) <= 16 && 16 % Pow2(depth) == 0 && 32 % Pow2(depth) == 0
  {
    assert Pow2(4) == 16 && Pow2(3) == 8 && Pow2(2) == 4 && Pow2(1) == 2;
  }

  lemma PerJobs(jobs: nat)
    requires 1 <= jobs <= 2
    ensures var g := FourByTwo(jobs);
            && g.ay.Valid() && g.ax.Valid() && g.ay.PerJob() == 2 / jobs
            && g.ax.PerJob() == HalfAxis(g.ax).PerJob() == 4 / jobs
  {}

  lemma FourByTwoCut(jobs: nat, depth: nat)
    requires 0 < depth <= 4 && 1 <= jobs <= 2
    ensures var g := FourByTwo(jobs); g.Valid() && Cut(g.ay, depth) && Cut(g.ax, depth) && Cut(HalfAxis(g.ax), depth)
  {
    SmallPowers(depth);
    PerJobs(jobs);
    hide Pow2, Axis.PerJob;
  }

  lemma FourRoomy(a: Axis, depth: nat)
    requires a.Valid() && a.slices == 4 && 1 <= a.jobs <= 2 && a.overlap == 1 && a.PerJob() == 4 / a.jobs
    requires a.size >= 16 && 0 < depth <= 4
    ensures Roomy(a, depth)
  {
    SmallPowers(depth);
    hide Pow2, Axis.PerJob;
    forall j: nat | j < a.jobs ensures a.Count(j) * a.size >= 3 * Pow2(depth) && a.Own(j) * a.size >= 5 {
      Monotone(a.Count(j), 3, a.size);
      Monotone(a.Own(j), 1, a.size);
    }
  }

  lemma FourByTwoRoomy(jobs: nat, depth: nat)
    requires 0 < depth <= 4 && 1 <= jobs <= 2
    ensures var g := FourByTwo(jobs);
            && g.ay.Valid() && g.ax.Valid() && Roomy(g.ax, depth) && Roomy(HalfAxis(g.ax), depth)
  {
    hide Roomy, Axis.PerJob;
    PerJobs(jobs);
    FourRoomy(FourByTwo(jobs).ax, depth);
    FourRoomy(HalfAxis(FourByTwo(jobs).ax), depth);
  }

  lemma FourByTwoWindows(jobs: nat)
    requires 1 <= jobs <= 2
    ensures FourByTwo(jobs).ay.Valid() && FourByTwo(jobs).ax.Valid()
    ensures var a := FourByTwo(jobs).ax; a.Start(jobs - 1) == jobs - 1 && a.Count(jobs - 1) == 5 - jobs
    ensures var a := FourByTwo(jobs).ay; a.Start(0) == 0 && a.Count(0) == 2
  {
    PerJobs(jobs);
    hide Axis.PerJob;
  }

  lemma FourByTwoUsable(jobs: nat, depth: nat)
    requires 0 < depth <= 4 && 1 <= jobs <= 2
    ensures Usable(FourByTwo(jobs), depth) && SameSides(FourByTwo(jobs))
    ensures var a := FourByTwo(jobs).ax; a.Start(jobs - 1) == jobs - 1 && a.Count(jobs - 1) == 5 - jobs
    ensures var a := FourByTwo(jobs).ay; a.Start(0) == 0 && a.Count(0) == 2
  {
    FourByTwoCut(jobs, depth);
    FourByTwoRoomy(jobs, depth);
    FourByTwoWindows(jobs);
    hide Pow2, Cut, Roomy, Axis.PerJob, Axis.Start, Axis.Count;
  }

  /** The only job, or the first row's second one. */
  function JobIn(jobs: nat): Id
    requires jobs > 0
  {
    Id(0, jobs - 1)
  }

  lemma SlicesIn(jobs: nat, n: nat)
    requires 1 <= jobs <= 2 && n < 2 * (5 - jobs)
    ensures var g, id := FourByTwo(jobs), JobIn(jobs);
            && g.Valid() && id.y < g.ay.jobs && id.x < g.ax.jobs && n < g.ay.Count(id.y) * g.ax.Count(id.x)
            && SliceOfJob(g, id, n) == Quo(n, 5 - jobs) * 4 + (jobs - 1 + n % (5 - jobs))
  {
    FourByTwoUsable(jobs, 1);
    InWindow(FourByTwo(jobs), JobIn(jobs), jobs - 1, 5 - jobs, n);
    hide Axis.PerJob, Axis.Start, Axis.Count, Axis.Fits, Usable, SliceOfJob;
  }

  lemma InWindow(g: Grid, id: Id, start: nat, nx: nat, n: nat)
    requires g.Valid() && id.y < g.ay.jobs && id.x < g.ax.jobs && g.ax.slices == 4
    requires g.ay.Start(id.y) == 0 && g.ay.Count(id.y) == 2 && g.ax.Start(id.x) == start && g.ax.Count(id.x) == nx
    requires nx > 0 && n < 2 * nx
    ensures SliceOfJob(g, id, n) == Quo(n, nx) * 4 + (start + n % nx)
  {
    hide Axis.PerJob, Axis.Start, Axis.Count, Axis.Fits, Axis.Valid;
  }

  /** Slice 0 is the single job's first, and not among the other's; the last of the first row is slice 3 in both. */
  lemma PlacesIn(jobs: nat, n: nat)
    requires 1 <= jobs <= 2 && n < 2 * (5 - jobs)
    ensures var k := Quo(n, 5 - jobs) * 4 + (jobs - 1 + n % (5 - jobs));
            && (k == 0 <==> jobs == 1 && n == 0) && (n == 4 - jobs ==> k == 3)
  {}

  lemma JobPlace(jobs: nat)
    requires 1 <= jobs <= 2
    ensures var g, id := FourByTwo(jobs), JobIn(jobs);
            && g.Valid() && id.y < g.ay.jobs && id.x < g.ax.jobs && Peopled(g.ay, id.y) && Peopled(g.ax, id.x)
            && g.ay.Count(id.y) == 2 && g.ax.Count(id.x) == 5 - jobs
  {
    FourByTwoUsable(jobs, 1);
    EveryJobPeopled(FourByTwo(jobs), 1, JobIn(jobs));
    hide Axis.PerJob, Axis.Start, Axis.Count, Axis.Fits, Usable;
  }

  /** Block i of a job's luma. */
  lemma BlockThere(jobs: nat, g: Grid, id: Id, i: nat)
    requires 1 <= jobs <= 2 && g == FourByTwo(jobs) && id == JobIn(jobs) && i < 2 * (5 - jobs)
    requires g.Valid() && id.y < g.ay.jobs && id.x < g.ax.jobs && i < g.ay.Count(id.y) * g.ax.Count(id.x)
    ensures var s := OneThenEmpty();
            BlockOf(s, s.Slice(0, SliceOfJob(g, id, i)), 0) == if i == 0 && jobs == 1 then [0xFF, 0x2F] else []
  {
    hide FourByTwo, JobIn, Axis.Count, Axis.Fits, SliceOfJob, BlockOf, Source.Slice;
    SlicesIn(jobs, i);
    PlacesIn(jobs, i);
    BlocksOf(SliceOfJob(g, id, i));
  }

  /** The blocks of a job's luma. */
  lemma BlocksThere(jobs: nat, g: Grid, id: Id, blocks: seq<seq<Byte>>)
    requires 1 <= jobs <= 2 && g == FourByTwo(jobs) && id == JobIn(jobs)
    requires g.Valid() && id.y < g.ay.jobs && id.x < g.ax.jobs && Peopled(g.ay, id.y) && Peopled(g.ax, id.x)
    requires g.ay.Count(id.y) == 2 && g.ax.Count(id.x) == 5 - jobs && blocks == JobBlocks(OneThenEmpty(), g, 0, id, 0)
    ensures EmptyBut(blocks, jobs == 1)
  {
    hide FourByTwo, JobIn, Axis.Count, Axis.Fits, SliceOfJob, BlockOf, Source.Slice;
    forall i: nat | i < |blocks| ensures blocks[i] == if i == 0 && jobs == 1 then [0xFF, 0x2F] else [] {
      BlockThere(jobs, g, id, i);
    }
  }

  /** Slots that hold the slices of the picture. */
  ghost predicate HoldsThem(jobs: nat, v: View) {
    Shaped(FourByTwo(jobs), v) && HoldsContent(OneThenEmpty(), FourByTwo(jobs), v, 0, FourByTwo(jobs).Slices())
  }

  /** The job's work. */
  ghost function WorkIn(jobs: nat, depth: nat, q: int -> Matrix, v: View): Work
    requires 1 <= jobs <= 2 && 0 < depth <= 4 && HoldsThem(jobs, v)
  {
    JobThere(jobs, depth, v);
    var g, id := FourByTwo(jobs), JobIn(jobs);
    WorkOf(OneThenEmpty(), g, id, v[g.Number(id.y, id.x)], depth, q)
  }

  lemma JobThere(jobs: nat, depth: nat, v: View)
    requires 1 <= jobs <= 2 && 0 < depth <= 4 && Shaped(FourByTwo(jobs), v)
    ensures var g, id := FourByTwo(jobs), JobIn(jobs);
            && Usable(g, depth) && SameSides(g) && id.y < g.ay.jobs && id.x < g.ax.jobs
            && Peopled(g.ay, id.y) && Peopled(g.ax, id.x) && g.ay.Count(id.y) == 2 && g.ax.Count(id.x) == 5 - jobs
            && g.Number(id.y, id.x) < |v| && |v[g.Number(id.y, id.x)]| == 2 * (5 - jobs)
  {
    FourByTwoUsable(jobs, depth);
    var g, id := FourByTwo(jobs), JobIn(jobs);
    EveryJobPeopled(g, depth, id);
    g.NumberInside(id.y, id.x);
    hide Axis.PerJob, Axis.Start, Axis.Count, Axis.Fits, Usable;
  }

  lemma WorkThere(jobs: nat, depth: nat, q: int -> Matrix, v: View)
    requires 1 <= jobs <= 2 && 0 < depth <= 4 && HoldsThem(jobs, v)
    ensures var w := WorkIn(jobs, depth, q, v);
            && w.Valid() && w.height == 16 && w.Wide(0) == 32 && w.full == 32 && w.Size(0) == 512 && w.depth == depth
            && w.nx == 5 - jobs && w.ny == 2 && |w.recs| == 2 * (5 - jobs)
            && w.Blocks(0) == JobBlocks(OneThenEmpty(), FourByTwo(jobs), 0, JobIn(jobs), 0)
            && w.q == q && forall n :: 0 <= n < |w.recs| ==> w.recs[n].q == 0
  {
    JobThere(jobs, depth, v);
    var s, g, id := OneThenEmpty(), FourByTwo(jobs), JobIn(jobs);
    var recs := v[g.Number(id.y, id.x)];
    hide Axis.PerJob, Axis.Start, Axis.Count, Axis.Fits, OneThenEmpty, Shaped, HoldsContent;
    hide Source.Content, Source.Slice;
    WorkValid(s, g, depth, id, recs, q);
    WorkIs(s, g, id, recs, depth, q, 0);
    BlocksOfJob(s, g, v, 0, id, depth, q, 0);
    hide WorkOf, JobBlocks, SliceOfJob, Usable;
    forall n: nat | n < |recs| ensures recs[n].q == 0 {
      RecordOfJob(s, g, v, 0, id, n);
      ContentIndex(s, recs[n]);
      ContentIndex(s, s.Slice(0, SliceOfJob(g, id, n)));
      BlocksOf(SliceOfJob(g, id, n));
    }
  }

  /** What a sample of slot n is loaded with: zero, but for the single job's that are fed by input 8. */
  lemma ValueIn(jobs: nat, depth: nat, q: int -> Matrix, v: View, before: seq<int>, n: nat, y: nat, x: nat)
    requires 1 <= jobs <= 2 && 0 < depth <= 4 && HoldsThem(jobs, v) && n < 2 * (5 - jobs) && y < 16 && x < 32
    requires |before| == 512 && forall i :: 0 <= i < 512 ==> before[i] == 0
    ensures var w, o := WorkIn(jobs, depth, q, v), OriginOf(16, 32, depth, 0, y, x);
            && w.Valid() && w.Size(0) == 512 && n < |w.recs|
            && PatchValue(w, 0, n, before, y, x)
               == if o.index == 8 && jobs == 1 then q(0).Scaled(o.level, o.band, 1) else 0
  {
    hide WorkIn, OriginOf, JobBlocks, HoldsThem, Matrix.Scaled, Work.Wide, Work.Blocks, OneThenEmpty, EmptyBut;
    hide FourByTwo, JobIn, Axis.Count, Axis.Fits, PatchValue;
    WorkThere(jobs, depth, q, v);
    var w := WorkIn(jobs, depth, q, v);
    JobPlace(jobs);
    BlocksThere(jobs, FourByTwo(jobs), JobIn(jobs), w.Blocks(0));
    ValueBehind(w, jobs == 1, before, n, y, x);
  }

  lemma ValueBehind(w: Work, first: bool, before: seq<int>, n: nat, y: nat, x: nat)
    requires w.Valid() && n < |w.recs| && y < w.height && x < w.Wide(0) && EmptyBut(w.Blocks(0), first)
    requires |before| == w.Size(0) >= 12 && w.recs[n].q == 0 && forall i :: 0 <= i < |before| ==> before[i] == 0
    ensures var o := OriginOf(w.height, w.Wide(0), w.depth, 0, y, x);
            PatchValue(w, 0, n, before, y, x) == if o.index == 8 && first then w.q(0).Scaled(o.level, o.band, 1) else 0
  {
    hide OriginOf, ScratchAt, EmptyBut, Matrix.Scaled, Work.Wide, Work.Blocks;
    InputOfSample(w, 0, y, x);
    var o := OriginOf(w.height, w.Wide(0), w.depth, 0, y, x);
    StaysBehind(w.Blocks(0), w.Size(0), before, first, n + 1, o.index);
    ZeroScales(w.q(0), o.level, o.band);
  }

  /** A sample of the slice in slot n is loaded with zero, or is not. */
  ghost predicate LoadedWith(w: Work, n: nat, before: seq<int>, y: nat, x: nat, zero: bool) {
    w.Valid() && |before| == w.Size(0) && n < |w.recs| && (PatchValue(w, 0, n, before, y, x) == 0 <==> zero)
  }

  /** A coefficient of slice 3, the last of the first row: in the single job it is the first slice's, in the second of
      the two jobs of its row it is zero. */
  lemma GridsDiffer(depth: nat, q: int -> Matrix, before: seq<int>) returns (y: nat, x: nat)
    requires 0 < depth <= 4 && Faithful(q(0)) && |before| == 512 && forall i :: 0 <= i < 512 ==> before[i] == 0
    ensures y < 16 && x < 32
    ensures forall jobs: nat, v: View | 1 <= jobs <= 2 && HoldsThem(jobs, v) ::
      SlotHolds(jobs, depth, q, v, 4 - jobs) && LoadedWith(WorkIn(jobs, depth, q, v), 4 - jobs, before, y, x, jobs == 2)
  {
    hide WorkIn, OriginOf, HoldsThem, Faithful, LoadedWith, SlotHolds;
    y, x := FedBy(16, 32, depth, 8);
    forall jobs: nat, v: View | 1 <= jobs <= 2 && HoldsThem(jobs, v)
      ensures SlotHolds(jobs, depth, q, v, 4 - jobs)
      ensures LoadedWith(WorkIn(jobs, depth, q, v), 4 - jobs, before, y, x, jobs == 2)
    {
      LastOfRow(jobs, depth, q, v, 4 - jobs);
      FedByEighth(jobs, depth, q, v, before, y, x);
    }
  }

  lemma FedBy(h: nat, w: nat, depth: nat, k: nat) returns (y: nat, x: nat)
    requires k < h * w
    ensures y < h && x < w && OriginOf(h, w, depth, 0, y, x).index == k
  {
    PointsInside(h, w, 0);
    y, x := EveryInput(h, w, depth, 0, k);
  }

  lemma FedByEighth(jobs: nat, depth: nat, q: int -> Matrix, v: View, before: seq<int>, y: nat, x: nat)
    requires 1 <= jobs <= 2 && 0 < depth <= 4 && Faithful(q(0)) && HoldsThem(jobs, v) && y < 16 && x < 32
    requires |before| == 512 && forall i :: 0 <= i < 512 ==> before[i] == 0
    requires OriginOf(16, 32, depth, 0, y, x).index == 8
    ensures LoadedWith(WorkIn(jobs, depth, q, v), 4 - jobs, before, y, x, jobs == 2)
  {
    hide WorkIn, OriginOf, HoldsThem, Matrix.Scaled, PatchValue, Work.Valid, Work.Size;
    ValueIn(jobs, depth, q, v, before, 4 - jobs, y, x);
    var o := OriginOf(16, 32, depth, 0, y, x);
    assert q(0).Scaled(o.level, o.band, 1) == 0 ==> false;
  }

  /** That slot of the job holds slice 3. */
  ghost predicate SlotHolds(jobs: nat, depth: nat, q: int -> Matrix, v: View, n: nat)
    requires 1 <= jobs <= 2 && 0 < depth <= 4 && HoldsThem(jobs, v)
  {
    var s, w := OneThenEmpty(), WorkIn(jobs, depth, q, v);
    w.s == s && n < |w.recs| && s.Content(w.recs[n]) == s.Content(s.Slice(0, 3))
  }

  lemma LastOfRow(jobs: nat, depth: nat, q: int -> Matrix, v: View, n: nat)
    requires 1 <= jobs <= 2 && 0 < depth <= 4 && HoldsThem(jobs, v) && n == 4 - jobs
    ensures SlotHolds(jobs, depth, q, v, n)
  {
    RecordThere(jobs, depth, q, v, n);
    hide WorkIn, HoldsThem, OneThenEmpty, Source.Content, Source.Slice;
  }

  lemma RecordThere(jobs: nat, depth: nat, q: int -> Matrix, v: View, n: nat)
    requires 1 <= jobs <= 2 && 0 < depth <= 4 && HoldsThem(jobs, v) && n == 4 - jobs
    ensures var s, w := OneThenEmpty(), WorkIn(jobs, depth, q, v);
            w.s == s && n < |w.recs| && s.Content(w.recs[n]) == s.Content(s.Slice(0, 3))
  {
    JobThere(jobs, depth, v);
    SlicesIn(jobs, n);
    PlacesIn(jobs, n);
    hide Axis.PerJob, Axis.Start, Axis.Count, Axis.Fits, OneThenEmpty, Source.Content, Source.Slice, SliceOfJob;
    RecordOfJob(OneThenEmpty(), FourByTwo(jobs), v, 0, JobIn(jobs), n);
  }

  /** Of a slice of 16 rows of 32 samples, one level deep, input 8 is the coefficient at (0, 16). */
  lemma EighthPlace(h: nat, w: nat, depth: nat, y: nat, x: nat)
    requires h == 16 && w == 32 && depth == 1 && y < h && x < w
    ensures OriginOf(h, w, depth, 0, y, x).index == 8 <==> y == 0 && x == 16
    ensures y == 0 && x == 16 ==> OriginOf(h, w, depth, 0, y, x) == Origin(0, 0, 8)
  {
    EighthOrigin(h, w, depth);
    hide OriginOf;
    if OriginOf(h, w, depth, 0, y, x).index == 8 {
      OriginUnique(h, w, depth, 0, y, x, 0, 16);
    }
  }

  lemma EighthOrigin(h: nat, w: nat, depth: nat)
    requires h == 16 && w == 32 && depth == 1
    ensures OriginOf(h, w, depth, 0, 0, 16) == Origin(0, 0, 8)
  {
    assert Pow2(1) == 2 && Pow2(0) == 1;
  }

  /** A tile loaded through a buffer of zeroes is zero, but for one coefficient of every slice of the single job. */
  lemma TileLoaded(jobs: nat, depth: nat, q: int -> Matrix, v: View, tile: Plane, video: Plane, values: seq<int>,
                   i: nat, j: nat)
    requires 1 <= jobs <= 2 && depth == 1 && HoldsThem(jobs, v)
    requires WorkIn(jobs, depth, q, v).Loaded(0, tile, video, values)
    requires |values| == 512 && forall k :: 0 <= k < 512 ==> values[k] == 0
    requires i < 32 && j < 32 * (5 - jobs) && i < |tile| && j < |tile[i]|
    ensures tile[i][j] == if jobs == 1 && i % 16 == 0 && j % 32 == 16 then q(0).Scaled(0, 0, 1) else 0
  {
    WorkThere(jobs, depth, q, v);
    var w := WorkIn(jobs, depth, q, v);
    hide HoldsThem, WorkIn, JobBlocks, OriginOf, Matrix.Scaled, PatchValue, Work.Loaded;
    LoadedValue(w, 0, tile, video, values, i, j);
    SlotInside(jobs, i, j);
    ValueIn(jobs, depth, q, v, values, Number(w.nx, Quo(i, w.height), Quo(j, w.Wide(0))), i % 16, j % 32);
    EighthPlace(16, 32, depth, i % 16, j % 32);
  }

  lemma SlotInside(jobs: nat, i: nat, j: nat)
    requires 1 <= jobs <= 2 && i < 32 && j < 32 * (5 - jobs)
    ensures Number(5 - jobs, Quo(i, 16), Quo(j, 32)) < 2 * (5 - jobs)
  {}

  /** Where the sample at (0, 112) of the picture is in the job's tile. */
  function ColumnIn(jobs: nat): nat {
    if jobs == 1 then 112 else 80
  }

  lemma AxesThere(jobs: nat, depth: nat)
    requires 1 <= jobs <= 2 && 0 < depth <= 4
    ensures var g, id := FourByTwo(jobs), JobIn(jobs);
            && Usable(g, depth) && id.y == 0 && id.x == jobs - 1 && g.ay.jobs == g.ax.jobs == jobs
            && g.ay.Count(id.y) == 2 && g.ax.Count(id.x) == 5 - jobs
            && Target(g.ay, id.y) == 0 && Target(g.ax, id.x) == 64 * (jobs - 1)
            && (jobs > 1 ==> Target(g.ay, 1) == 16)
    ensures var g := FourByTwo(jobs);
            && g.ay.size == 16 && g.ax.size == 32 && g.ay.length == 32 && g.ax.length == 128
            && g.ay.overlap == g.ax.overlap == 1
  {
    FourByTwoUsable(jobs, depth);
    PerJobs(jobs);
    hide Usable;
  }

  lemma PartThere(jobs: nat, depth: nat)
    requires 1 <= jobs <= 2 && 0 < depth <= 4
    ensures var g, id := FourByTwo(jobs), JobIn(jobs);
            && Usable(g, depth) && id.y < g.ay.jobs && id.x < g.ax.jobs
            && SpanOf(g.ay, id.y, depth).Valid() && SpanOf(g.ax, id.x, depth).Valid()
            && SpanOf(g.ay, id.y, depth).Len() == 32 && SpanOf(g.ax, id.x, depth).Len() == 32 * (5 - jobs)
            && PartOf(g, id.y, id.x)
               == if jobs == 1 then Output.Part(0, 0, 32, 128, 0, 0) else Output.Part(0, 32, 16, 64, 0, 64)
  {
    hide FourByTwo, JobIn, Axis.First, Axis.Own, Axis.PerJob, Axis.Fits, Axis.Count, Roomy, Pow2, Divides, SpanOf;
    hide Target, OutputSize;
    AxesThere(jobs, depth);
    var g, id := FourByTwo(jobs), JobIn(jobs);
    SpanOk(g.ay, id.y, depth);
    SpanOk(g.ax, id.x, depth);
    OutputEnds(g.ay, id.y);
    OutputEnds(g.ax, id.x);
  }

  /** The sample of the tile, reconstructed: half the coefficient, or zero. */
  lemma Reconstructed(jobs: nat, depth: nat, tile: Plane, h: nat, w: nat, v: int)
    requires 1 <= jobs <= 2 && depth == 1 && h == 32 && w == 32 * (5 - jobs) && Rect(tile, h, w)
    requires LevelsOk(LeGall53, h, w, depth)
    requires forall i: nat, j: nat :: i < h && j < w ==>
      tile[i][j] == if jobs == 1 && i % 16 == 0 && j % 32 == 16 then v else 0
    ensures Reconstruct(LeGall53, tile, h, w, depth)[0][ColumnIn(jobs)] == if jobs == 1 then (v + 1) / 2 else 0
  {
    hide SynthLevel, LevelOk;
    if jobs == 1 {
      LastOfOne(tile, h, w, depth);
      assert LevelOk(LeGall53, h, w, 1) by { OneLevel(h, w, depth); }
      Seams.LoneSample(tile, h, w, 112);
    } else {
      Seams.ZeroStays(tile, h, w, depth);
    }
  }

  lemma OneLevel(h: nat, w: nat, depth: nat)
    requires depth == 1 && LevelsOk(LeGall53, h, w, depth)
    ensures LevelOk(LeGall53, h, w, 1)
  {
    assert Pow2(0) == 1;
  }

  lemma LastOfOne(p: Plane, h: nat, w: nat, depth: nat)
    requires depth == 1 && Rect(p, h, w) && LevelsOk(LeGall53, h, w, depth)
    ensures LevelOk(LeGall53, h, w, 1)
    ensures Reconstruct(LeGall53, p, h, w, depth) == SynthLevel(LeGall53, p, h, w, 1)
  {
    hide SynthLevel;
    OneLevel(h, w, depth);
    assert Pow2(0) == 1;
  }

  /** What the job shows at (0, 112) is what its tile has there. */
  lemma ShownInTile(jobs: nat, depth: nat, bits: nat, tile: Plane, was: Plane, now: Plane, h: nat, w: nat)
    requires 1 <= jobs <= 2 && 0 < depth <= 4 && bits > 0 && h == 32 && w == 32 * (5 - jobs)
    requires TileShown(FourByTwo(jobs), depth, bits, JobIn(jobs), tile, was, now)
    ensures Rect(tile, h, w) && LevelsOk(LeGall53, h, w, depth) && |now| == 32 && |now[0]| == 128
    ensures now[0][112] == Output.Shown(bits, Reconstruct(LeGall53, tile, h, w, depth)[0][ColumnIn(jobs)])
  {
    hide Output.Shown, Reconstruct, LevelsOk, SpanOf, PartOf, Usable, Cut, FourByTwo, JobIn, Axis.Count, Axis.Fits;
    PartThere(jobs, depth);
    JobSides(jobs);
  }

  lemma JobSides(jobs: nat)
    requires 1 <= jobs <= 2
    ensures FourByTwo(jobs).ay.length == 32 && FourByTwo(jobs).ax.length == 128
  {}

  /** The sample that a job of either grid delivers. */
  lemma SampleShown(jobs: nat, depth: nat, bits: nat, q: int -> Matrix, v: View, tile: Plane, video: Plane,
                    values: seq<int>, was: Plane, now: Plane)
    requires 1 <= jobs <= 2 && depth == 1 && bits > 0 && HoldsThem(jobs, v)
    requires WorkIn(jobs, depth, q, v).Loaded(0, tile, video, values)
    requires |values| == 512 && forall k :: 0 <= k < 512 ==> values[k] == 0
    requires TileShown(FourByTwo(jobs), depth, bits, JobIn(jobs), tile, was, now)
    ensures |now| == 32 && |now[0]| == 128
    ensures now[0][112] == Output.Shown(bits, if jobs == 1 then (q(0).Scaled(0, 0, 1) + 1) / 2 else 0)
  {
    hide HoldsThem, WorkIn, Work.Loaded, Matrix.Scaled, Output.Shown, Reconstruct, LevelsOk, TileShown, FourByTwo;
    var h, w := 32, 32 * (5 - jobs);
    ShownInTile(jobs, depth, bits, tile, was, now, h, w);
    forall i: nat, j: nat | i < h && j < w
      ensures tile[i][j] == if jobs == 1 && i % 16 == 0 && j % 32 == 16 then q(0).Scaled(0, 0, 1) else 0
    {
      TileLoaded(jobs, depth, q, v, tile, video, values, i, j);
    }
    Reconstructed(jobs, depth, tile, h, w, q(0).Scaled(0, 0, 1));
  }

  /** What DecodeJob leaves of a job of either grid: the slots hold the picture, and the buffer held zeroes. */
  ghost predicate HasRun(jobs: nat, depth: nat, bits: nat, q: int -> Matrix, v: View, videos: seq<Plane>,
                         values: seq<seq<int>>, tiles: seq<Plane>, was: seq<Plane>, now: seq<Plane>)
  {
    && 1 <= jobs <= 2 && HoldsThem(jobs, v)
    && JobLoads(OneThenEmpty(), FourByTwo(jobs), JobIn(jobs), v, depth, q, videos, values, tiles)
    && JobShown(FourByTwo(jobs), depth, bits, JobIn(jobs), tiles, was, now)
    && |values[0]| == 512 && forall i :: 0 <= i < 512 ==> values[0][i] == 0
  }

  /** The sample at (0, 112) of the luma, when the job that delivers it has run. */
  ghost function SampleOf(now: seq<Plane>): int {
    if |now| > 0 && |now[0]| > 0 && |now[0][0]| > 112 then now[0][0][112] else 0
  }

  lemma RunSample(jobs: nat, depth: nat, bits: nat, q: int -> Matrix, v: View, videos: seq<Plane>,
                  values: seq<seq<int>>, tiles: seq<Plane>, was: seq<Plane>, now: seq<Plane>)
    requires HasRun(jobs, depth, bits, q, v, videos, values, tiles, was, now) && depth == 1 && bits > 0
    ensures SampleOf(now) == Output.Shown(bits, if jobs == 1 then (q(0).Scaled(0, 0, 1) + 1) / 2 else 0)
    ensures |now| == 3 && |now[0]| == 32 && |now[0][0]| == 128
  {
    JobThere(jobs, depth, v);
    hide HoldsThem, Matrix.Scaled, Output.Shown, TileShown, Work.Loaded, FourByTwo, OneThenEmpty;
    assert ComponentShown(FourByTwo(jobs), depth, bits, 0, JobIn(jobs), tiles[0], was[0], now[0]);
    assert WorkIn(jobs, depth, q, v).Loaded(0, tiles[0], videos[0], values[0]);
    SampleShown(jobs, depth, bits, q, v, tiles[0], videos[0], values[0], was[0], now[0]);
  }

  /** Decoders of one job and of two by two show different samples of the same bytes, where both deliver it and the
      grids meet every condition: the picture is not settled. */
  lemma DecodersDiffer(one: nat, two: nat, depth: nat, bits: nat, q: int -> Matrix, v: View, u: View,
                       videos: seq<Plane>, values: seq<seq<int>>, tiles: seq<Plane>, was: seq<Plane>, now: seq<Plane>,
                       videos': seq<Plane>, values': seq<seq<int>>, tiles': seq<Plane>, was': seq<Plane>,
                       now': seq<Plane>)
    requires one == 1 && two == 2 && depth == 1 && bits >= 2 && q(0).Scaled(0, 0, 1) > 0
    requires HasRun(one, depth, bits, q, v, videos, values, tiles, was, now)
    requires HasRun(two, depth, bits, q, u, videos', values', tiles', was', now')
    ensures SampleOf(now) != SampleOf(now') && ComparableGrids(FourByTwo(one), FourByTwo(two), depth)
    ensures DeliversIt(FourByTwo(one), JobIn(one)) && DeliversIt(FourByTwo(two), JobIn(two))
  {
    hide HasRun, Output.Shown, Matrix.Scaled, ComparableGrids, DeliversIt, FourByTwo;
    RunSample(one, depth, bits, q, v, videos, values, tiles, was, now);
    RunSample(two, depth, bits, q, u, videos', values', tiles', was', now');
    ShownApart(bits, (q(0).Scaled(0, 0, 1) + 1) / 2);
    GridsComparable(one, two, depth);
    DeliveredThere(one);
    DeliveredThere(two);
  }

  /** Two grids over the same slices that meet every condition but on what the slices hold. */
  ghost predicate ComparableGrids(g: Grid, k: Grid, depth: nat) {
    SamePictureShape(g, k) && Usable(g, depth) && Usable(k, depth) && SameSides(g) && SameSides(k)
  }

  /** The job delivers the sample at (0, 112). */
  predicate DeliversIt(g: Grid, id: Id) {
    && g.Valid() && Covered(g.ay) && Covered(g.ax) && id.y < g.ay.jobs && id.x < g.ax.jobs
    && Delivering(g, id.y, id.x, 0, 112)
  }

  lemma DeliveredThere(jobs: nat)
    requires 1 <= jobs <= 2
    ensures DeliversIt(FourByTwo(jobs), JobIn(jobs))
  {
    PerJobs(jobs);
  }

  lemma GridsComparable(one: nat, two: nat, depth: nat)
    requires 1 <= one <= 2 && 1 <= two <= 2 && 0 < depth <= 4
    ensures ComparableGrids(FourByTwo(one), FourByTwo(two), depth)
  {
    FourByTwoUsable(one, depth);
    FourByTwoUsable(two, depth);
    hide Usable, Axis.PerJob;
  }

  lemma ShownApart(bits: nat, v: int)
    requires bits >= 2 && v > 0
    ensures Output.Shown(bits, v) != Output.Shown(bits, 0)
  {
    assert Pow2(bits) == 2 * Pow2(bits - 1) && Pow2(bits - 1) == 2 * Pow2(bits - 2);
  }
}
