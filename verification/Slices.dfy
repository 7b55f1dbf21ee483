/** Slice input: each slice is parsed into the slot of its lowest-numbered job, and copied to the other
    jobs whose windows hold it. */
module Slices {
  import opened Planes
  import opened JobGrid
  import opened SliceStream
  import opened Jobs
  import opened JobBuffers
  import SliceLayout

  /** The tables built for the two axes. */
  ghost predicate Tables(g: Grid, lutY: array<int>, lutX: array<int>)
    reads lutY, lutX
  {
    && g.Valid() && lutY.Length == g.ay.slices && lutX.Length == g.ax.slices
    && (forall k :: 0 <= k < lutY.Length ==> Told(g.ay, k, lutY[k]))
    && (forall k :: 0 <= k < lutX.Length ==> Told(g.ax, k, lutX[k]))
  }

  /** The jobs made so far, in the order of their numbers. */
  ghost predicate Made(g: Grid, jobs: seq<Job>) {
    && g.Valid()
    && (forall jy: nat, jx: nat :: jy < g.ay.jobs && jx < g.ax.jobs && g.Number(jy, jx) < |jobs| ==>
          IsJob(g, jobs[g.Number(jy, jx)], jy, jx))
    && (forall i, j :: 0 <= i < j < |jobs| ==> jobs[i].coded != jobs[j].coded)
    && (forall i, j :: 0 <= i < j < |jobs| ==> Buffers(jobs[i].components) !! Buffers(jobs[j].components))
  }

  lemma OneJobMore(g: Grid, jobs: seq<Job>, job: Job, jy: nat, jx: nat)
    requires Made(g, jobs) && jy < g.ay.jobs && jx < g.ax.jobs && |jobs| == g.Number(jy, jx) && IsJob(g, job, jy, jx)
    requires forall i :: 0 <= i < |jobs| ==> jobs[i].coded != job.coded
    requires forall i :: 0 <= i < |jobs| ==> Buffers(jobs[i].components) !! Buffers(job.components)
    ensures Made(g, jobs + [job])
  {
    hide g.Number, IsJob, Axis.Valid, Axis.Fits;
    var more := jobs + [job];
    forall ky: nat, kx: nat | ky < g.ay.jobs && kx < g.ax.jobs && g.Number(ky, kx) < |more|
      ensures IsJob(g, more[g.Number(ky, kx)], ky, kx)
    {
      g.NumberUnique(ky, kx, jy, jx);
    }
  }

  lemma AllMade(g: Grid, jobs: seq<Job>)
    requires Made(g, jobs) && |jobs| == g.Jobs()
    ensures JobsOk(g, jobs)
  {
    hide g.Number, IsJob, Axis.Valid, Axis.Fits;
    forall jy: nat, jx: nat | jy < g.ay.jobs && jx < g.ax.jobs ensures g.Number(jy, jx) < |jobs| {
      g.NumberInside(jy, jx);
    }
  }

  lemma NextNumber(g: Grid, jy: nat, jx: nat)
    ensures g.Number(0, 0) == 0 && g.Number(g.ay.jobs, 0) == g.Jobs()
    ensures g.Number(jy, jx) + 1 == g.Number(jy, jx + 1) && g.Number(jy, g.ax.jobs) == g.Number(jy + 1, 0)
  {}

  method NewJob(g: Grid, jobs: seq<Job>, jy: nat, jx: nat, sampleSize: nat) returns (more: seq<Job>)
    requires Made(g, jobs) && jy < g.ay.jobs && jx < g.ax.jobs && |jobs| == g.Number(jy, jx)
    requires (sampleSize == 2 || sampleSize == 4) && Peopled(g.ay, jy) && Peopled(g.ax, jx)
    ensures Made(g, more) && |more| == |jobs| + 1 && more[..|jobs|] == jobs
    ensures fresh(more[|jobs|].coded) && fresh(Buffers(more[|jobs|].components))
  {
    hide g.Number, IsJob, Axis.Valid, Axis.Fits, Peopled;
    var job := new Job(g, jy, jx, sampleSize);
    OneJobMore(g, jobs, job, jy, jx);
    more := jobs + [job];
  }

  method NewJobs(g: Grid, sampleSize: nat) returns (jobs: seq<Job>)
    requires g.Valid() && (sampleSize == 2 || sampleSize == 4)
    requires forall jy: nat :: jy < g.ay.jobs ==> Peopled(g.ay, jy)
    requires forall jx: nat :: jx < g.ax.jobs ==> Peopled(g.ax, jx)
    ensures JobsOk(g, jobs)
    ensures forall job :: job in jobs ==> fresh(job.coded) && fresh(Buffers(job.components))
  {
    hide g.Number, IsJob, Axis.Valid, Axis.Fits, JobsOk, Peopled;
    jobs := [];
    var jy := 0;
    NextNumber(g, 0, 0);
    assert Made(g, jobs);
    hide Made;
    while jy < g.ay.jobs
      invariant jy <= g.ay.jobs && |jobs| == g.Number(jy, 0) && Made(g, jobs)
      invariant forall job :: job in jobs ==> fresh(job.coded) && fresh(Buffers(job.components))
    {
      var jx := 0;
      while jx < g.ax.jobs
        invariant jx <= g.ax.jobs && |jobs| == g.Number(jy, jx) && Made(g, jobs)
        invariant forall job :: job in jobs ==> fresh(job.coded) && fresh(Buffers(job.components))
      {
        jobs := NewJob(g, jobs, jy, jx, sampleSize);
        NextNumber(g, jy, jx);
        jx := jx + 1;
      }
      NextNumber(g, jy, jx);
      jy := jy + 1;
    }
    NextNumber(g, jy, 0);
    AllMade(g, jobs);
  }

  /** Sets up a grid of jobs and the tables that name them. */
  method SetUp(g: Grid, sampleSize: nat) returns (jobs: seq<Job>, lutY: array<int>, lutX: array<int>)
    requires g.Valid() && (sampleSize == 2 || sampleSize == 4)
    requires forall jy: nat :: jy < g.ay.jobs ==> Peopled(g.ay, jy)
    requires forall jx: nat :: jx < g.ax.jobs ==> Peopled(g.ax, jx)
    ensures JobsOk(g, jobs) && Tables(g, lutY, lutX)
    ensures fresh(Arrays(jobs)) && fresh(lutY) && fresh(lutX)
    ensures forall job :: job in jobs ==> fresh(Buffers(job.components))
  {
    hide Axis.Valid, Axis.Fits, Told, Peopled, JobsOk;
    jobs := NewJobs(g, sampleSize);
    lutY := BuildTable(g.ay);
    lutX := BuildTable(g.ax);
  }

  /** Parses the slice that follows lastlength bytes into one slot; an overrun leaves the slot half written. */
  method Parse(s: Source, g: Grid, jobs: seq<Job>, jy: nat, jx: nat, sy: nat, sx: nat,
               from: nat, lastlength: nat, limit: nat) returns (ok: bool, idata: nat, last: nat, r: Record)
    requires JobsOk(g, jobs) && g.InJob(jy, jx, sy, sx)
    modifies Arrays(jobs)
    ensures ok <==> !s.Overruns(from + lastlength, limit)
    ensures OneStored(g, old(ViewOf(g, jobs)), ViewOf(g, jobs), jy, jx, sy, sx, r)
    ensures ok ==> r == s.At(from + lastlength) && idata + last == s.Next(from + lastlength)
    ensures WrittenIsRead(s, from + lastlength - s.prefix, limit, ok, r, idata + last)
  {
    hide WrittenIsRead, g.Valid, Axis.InWindow, ViewOf, Slot, Shaped, JobsOk, OneStored, Grid.InJob;
    WrittenOne(s, from + lastlength - s.prefix, limit);
    ok, idata, last := false, from + lastlength, 0;
    r := Get(g, jobs, jy, jx, sy, sx);
    NoneStored(g, ViewOf(g, jobs), jy, jx, sy, sx);
    if idata > limit {
      return;
    }
    ghost var v := ViewOf(g, jobs);
    var q, length0 := s.mem(idata), s.mem(idata + 1) * s.scalar;
    r := r.(q := q, length := r.length[0 := length0], data := r.data[0 := idata + 2]);
    Put(g, jobs, jy, jx, sy, sx, r);
    idata := idata + 2 + length0;
    if idata > limit {
      return;
    }
    ghost var v1, r1 := ViewOf(g, jobs), r;
    var length1 := s.mem(idata) * s.scalar;
    r := r.(length := r.length[1 := length1], data := r.data[1 := idata + 1]);
    Put(g, jobs, jy, jx, sy, sx, r);
    StoredAgain(g, v, v1, ViewOf(g, jobs), jy, jx, sy, sx, r1, r);
    idata := idata + 1 + length1;
    if idata > limit {
      return;
    }
    ghost var v2, r2 := ViewOf(g, jobs), r;
    var length2 := s.mem(idata) * s.scalar;
    r := r.(length := r.length[2 := length2], data := r.data[2 := idata + 1]);
    Put(g, jobs, jy, jx, sy, sx, r);
    StoredAgain(g, v, v2, ViewOf(g, jobs), jy, jx, sy, sx, r2, r);
    ok, idata, last := true, idata + 1, length2 + s.prefix;
  }

  /** A slice that was written at a place, its skipped bytes first, is read exactly when its first two components end
      inside the data: its index and the bytes of all three; and the next one is looked for behind it. */
  ghost predicate WrittenIsRead(s: Source, at: int, limit: nat, ok: bool, r: Record, next: int) {
    forall z: SliceLayout.Slice :: SliceLayout.Lies(s, at, z) ==>
      && (ok <==> at + z.Checked() <= limit)
      && (ok ==> s.Content(r) == z.Content() && next == at + z.Size() + s.prefix)
  }

  /** Whoever reads the slice at a place as Source.At says reads what was written there. */
  lemma WrittenOne(s: Source, at: int, limit: nat)
    requires at + s.prefix >= 0
    ensures forall ok: bool, r: Record, next: int ::
              (ok <==> !s.Overruns(at + s.prefix, limit))
              && (ok ==> r == s.At(at + s.prefix) && next == s.Next(at + s.prefix))
              ==> WrittenIsRead(s, at, limit, ok, r, next)
  {
    hide SliceLayout.Lies, SliceLayout.Slice.Written, s.Overruns, s.At, s.Next, s.Content;
    forall z: SliceLayout.Slice | SliceLayout.Lies(s, at, z)
      ensures at >= 0 && (s.Overruns(at + s.prefix, limit) <==> limit < at + z.Checked())
      ensures s.Content(s.At(at + s.prefix)) == z.Content() && s.Next(at + s.prefix) == at + z.Size() + s.prefix
    {
      NotBefore(s, at, z);
      SliceLayout.OneIsRead(s, at, z, limit);
    }
  }

  lemma NotBefore(s: Source, at: int, z: SliceLayout.Slice)
    requires SliceLayout.Lies(s, at, z)
    ensures at >= 0
  {}

  /** The slice's record is in every job that holds it, and the other slices' are as they were. */
  ghost predicate Spread(g: Grid, was: View, now: View, sy: nat, sx: nat, r: Record)
    requires Shaped(g, was) && Shaped(g, now)
  {
    forall ky: nat, kx: nat, ty: nat, tx: nat :: g.InJob(ky, kx, ty, tx) ==>
      Slot(g, now, ky, kx, ty, tx) == if ty == sy && tx == sx then r else Slot(g, was, ky, kx, ty, tx)
  }

  ghost predicate OthersKept(g: Grid, was: View, now: View, sy: nat, sx: nat)
    requires Shaped(g, was) && Shaped(g, now)
  {
    forall ky: nat, kx: nat, ty: nat, tx: nat :: g.InJob(ky, kx, ty, tx) && !(ty == sy && tx == sx) ==>
      Slot(g, now, ky, kx, ty, tx) == Slot(g, was, ky, kx, ty, tx)
  }

  /** The job a table's byte names, and whether the next job has the slice too. */
  function Named(b: int): nat {
    b % 64
  }

  predicate Shared(b: int) {
    b / 64 % 4 == 3
  }

  lemma ToldMeans(a: Axis, k: nat, b: int)
    requires a.Valid() && k < a.slices && Told(a, k, b)
    ensures Named(b) < a.jobs && a.InWindow(Named(b), k)
    ensures Shared(b) ==> Named(b) + 1 < a.jobs && a.InWindow(Named(b) + 1, k)
    ensures forall j: nat :: j < a.jobs && a.InWindow(j, k) ==> j == Named(b) || (Shared(b) && j == Named(b) + 1)
  {}

  /** One slice: parsed into the slot of the job the tables name, and copied to its neighbours that share it. */
  method Deliver(s: Source, g: Grid, jobs: seq<Job>, lutY: array<int>, lutX: array<int>, sy: nat, sx: nat,
                 from: nat, lastlength: nat, limit: nat) returns (ok: bool, idata: nat, last: nat)
    requires JobsOk(g, jobs) && Tables(g, lutY, lutX) && sy < g.ay.slices && sx < g.ax.slices
    modifies Arrays(jobs)
    ensures ok <==> !s.Overruns(from + lastlength, limit)
    ensures ok ==>
              && Spread(g, old(ViewOf(g, jobs)), ViewOf(g, jobs), sy, sx, s.At(from + lastlength))
              && idata + last == s.Next(from + lastlength)
    ensures !ok ==> OthersKept(g, old(ViewOf(g, jobs)), ViewOf(g, jobs), sy, sx)
  {
    hide Axis.InWindow, Axis.Valid, Axis.Fits, JobsOk, ViewOf, Slot, Shaped, Told, Named, Shared, Owned;
    var y, x := lutY[sy], lutX[sx];
    ToldMeans(g.ay, sy, y);
    ToldMeans(g.ax, sx, x);
    var jy, jx := Named(y), Named(x);
    var r;
    ok, idata, last, r := Parse(s, g, jobs, jy, jx, sy, sx, from, lastlength, limit);
    if !ok {
      return;
    }
    if Shared(x) {
      Put(g, jobs, jy, jx + 1, sy, sx, r);
    }
    if Shared(y) {
      Put(g, jobs, jy + 1, jx, sy, sx, r);
    }
    if Shared(x) && Shared(y) {
      Put(g, jobs, jy + 1, jx + 1, sy, sx, r);
    }
  }

  // ----- runs of slices

  /** Slices first to k, in raster order, are in every slot that holds them: they came from the data at base. */
  ghost predicate Holds(s: Source, g: Grid, v: View, base: nat, first: nat, k: nat)
    requires Shaped(g, v)
  {
    forall jy: nat, jx: nat, sy: nat, sx: nat :: g.InJob(jy, jx, sy, sx) && first <= g.Raster(sy, sx) < k ==>
      Slot(g, v, jy, jx, sy, sx) == s.Slice(base, g.Raster(sy, sx) - first)
  }

  /** The slots of all other slices are as they were. */
  ghost predicate OutsideKept(g: Grid, was: View, now: View, first: nat, k: nat)
    requires Shaped(g, was) && Shaped(g, now)
  {
    forall jy: nat, jx: nat, sy: nat, sx: nat :: g.InJob(jy, jx, sy, sx) && !(first <= g.Raster(sy, sx) < k) ==>
      Slot(g, now, jy, jx, sy, sx) == Slot(g, was, jy, jx, sy, sx)
  }

  /** The first n slices of the data at base can be read. */
  ghost predicate Readable(s: Source, base: nat, limit: nat, n: nat) {
    forall k: nat :: k < n ==> !s.Overruns(s.Addr(base, k), limit)
  }

  lemma OneMore(s: Source, g: Grid, was: View, now: View, base: nat, first: nat, sy: nat, sx: nat)
    requires g.Valid() && Shaped(g, was) && Shaped(g, now) && sx < g.ax.slices && first <= g.Raster(sy, sx)
    requires Holds(s, g, was, base, first, g.Raster(sy, sx))
    requires Spread(g, was, now, sy, sx, s.Slice(base, g.Raster(sy, sx) - first))
    ensures Holds(s, g, now, base, first, g.Raster(sy, sx) + 1)
    ensures OutsideKept(g, was, now, g.Raster(sy, sx), g.Raster(sy, sx) + 1)
  {
    hide g.Raster, Axis.InWindow, Shaped, Slot;
    forall jy: nat, jx: nat, ty: nat, tx: nat | g.InJob(jy, jx, ty, tx)
      ensures g.Raster(ty, tx) == g.Raster(sy, sx) <==> ty == sy && tx == sx
    {
      g.RasterUnique(ty, tx, sy, sx);
    }
  }

  lemma FailureKeeps(s: Source, g: Grid, was: View, now: View, base: nat, first: nat, sy: nat, sx: nat)
    requires g.Valid() && Shaped(g, was) && Shaped(g, now) && sx < g.ax.slices && first <= g.Raster(sy, sx)
    requires Holds(s, g, was, base, first, g.Raster(sy, sx)) && OthersKept(g, was, now, sy, sx)
    ensures Holds(s, g, now, base, first, g.Raster(sy, sx))
    ensures OutsideKept(g, was, now, g.Raster(sy, sx), g.Raster(sy, sx) + 1)
  {
    hide g.Raster, Axis.InWindow, Shaped, Slot;
    forall jy: nat, jx: nat, ty: nat, tx: nat | g.InJob(jy, jx, ty, tx)
      ensures g.Raster(ty, tx) == g.Raster(sy, sx) <==> ty == sy && tx == sx
    {
      g.RasterUnique(ty, tx, sy, sx);
    }
  }

  /** The slice after (sy, sx) in raster order. */
  lemma NextInRaster(g: Grid, sy: nat, sx: nat)
    requires sx < g.ax.slices
    ensures g.Raster(sy, sx) + 1 == if sx + 1 == g.ax.slices then g.Raster(sy + 1, 0) else g.Raster(sy, sx + 1)
  {}

  /** What has been read of the data at base: n slices, the first being slice `first` of the picture. */
  ghost predicate Progress(s: Source, g: Grid, v: View, base: nat, limit: nat, first: nat, n: nat)
    requires Shaped(g, v)
  {
    Holds(s, g, v, base, first, first + n) && Readable(s, base, limit, n)
  }

  /** Reads slice (sy, sx), when those from first on have been read. */
  method ReadOne(s: Source, g: Grid, jobs: seq<Job>, lutY: array<int>, lutX: array<int>, sy: nat, sx: nat,
                 base: nat, ghost first: nat, from: nat, lastlength: nat, limit: nat)
    returns (ok: bool, idata: nat, last: nat)
    requires JobsOk(g, jobs) && Tables(g, lutY, lutX) && sy < g.ay.slices && sx < g.ax.slices
    requires first <= g.Raster(sy, sx)
    requires Progress(s, g, ViewOf(g, jobs), base, limit, first, g.Raster(sy, sx) - first)
    requires from + lastlength == s.Addr(base, g.Raster(sy, sx) - first)
    modifies Arrays(jobs)
    ensures OutsideKept(g, old(ViewOf(g, jobs)), ViewOf(g, jobs), g.Raster(sy, sx), g.Raster(sy, sx) + 1)
    ensures Progress(s, g, ViewOf(g, jobs), base, limit, first, g.Raster(sy, sx) - first + if ok then 1 else 0)
    ensures ok ==> idata + last == s.Addr(base, g.Raster(sy, sx) + 1 - first)
    ensures !ok ==> s.Overruns(s.Addr(base, g.Raster(sy, sx) - first), limit)
  {
    hide Axis.InWindow, Axis.Valid, Axis.Fits, JobsOk, ViewOf, Tables, s.At, s.Next, Spread;
    hide OthersKept, Holds, s.Overruns, g.Raster;
    ghost var was := ViewOf(g, jobs);
    ok, idata, last := Deliver(s, g, jobs, lutY, lutX, sy, sx, from, lastlength, limit);
    if ok {
      OneMore(s, g, was, ViewOf(g, jobs), base, first, sy, sx);
    } else {
      FailureKeeps(s, g, was, ViewOf(g, jobs), base, first, sy, sx);
    }
  }

  /** Reads a row of the picture's slices. */
  method ReadRow(s: Source, g: Grid, jobs: seq<Job>, lutY: array<int>, lutX: array<int>, sy: nat,
                 base: nat, from: nat, lastlength: nat, limit: nat)
    returns (ok: bool, idata: nat, last: nat, read: nat)
    requires JobsOk(g, jobs) && Tables(g, lutY, lutX) && sy < g.ay.slices
    requires Progress(s, g, ViewOf(g, jobs), base, limit, 0, g.Raster(sy, 0))
    requires from + lastlength == s.Addr(base, g.Raster(sy, 0))
    modifies Arrays(jobs)
    ensures g.Raster(sy, 0) <= read && Progress(s, g, ViewOf(g, jobs), base, limit, 0, read)
    ensures ok ==> read == g.Raster(sy + 1, 0) && idata + last == s.Addr(base, read)
    ensures !ok ==> read < g.Raster(sy + 1, 0) && s.Overruns(s.Addr(base, read), limit)
  {
    hide Axis.InWindow, Axis.Valid, Axis.Fits, JobsOk, ViewOf, Tables, s.At, s.Next, Holds;
    hide s.Overruns, Readable, g.Raster;
    RasterRows(g, sy);
    ok, idata, last, read := true, from, lastlength, g.Raster(sy, 0);
    var sx := 0;
    while sx < g.ax.slices
      invariant sx <= g.ax.slices && ok && g.Raster(sy, 0) <= read <= g.Raster(sy + 1, 0)
      invariant read == if sx < g.ax.slices then g.Raster(sy, sx) else g.Raster(sy + 1, 0)
      invariant idata + last == s.Addr(base, read)
      invariant Progress(s, g, ViewOf(g, jobs), base, limit, 0, read)
    {
      ok, idata, last := ReadOne(s, g, jobs, lutY, lutX, sy, sx, base, 0, idata, last, limit);
      NextInRaster(g, sy, sx);
      RowOrder(g, sy, sx);
      if !ok {
        return;
      }
      read, sx := read + 1, sx + 1;
    }
  }

  lemma RowOrder(g: Grid, sy: nat, sx: nat)
    requires sx < g.ax.slices
    ensures g.Raster(sy, 0) <= g.Raster(sy, sx) < g.Raster(sy + 1, 0)
  {}

  /** Reads the slices of a picture. */
  method SliceInput(s: Source, g: Grid, jobs: seq<Job>, lutY: array<int>, lutX: array<int>, base: nat, ilength: nat)
    returns (ok: bool, length: nat, read: nat)
    requires JobsOk(g, jobs) && Tables(g, lutY, lutX)
    modifies Arrays(jobs)
    ensures Progress(s, g, ViewOf(g, jobs), base, base + ilength, 0, read)
    ensures ok ==> read == g.Slices() && base + length == s.Addr(base, read) + 1
    ensures !ok ==> read < g.Slices() && s.Overruns(s.Addr(base, read), base + ilength)
    ensures AllReadBack(s, g, ViewOf(g, jobs), base, ilength, 0, g.Slices(), ok, length, read)
  {
    hide Axis.InWindow, Axis.Valid, Axis.Fits, JobsOk, ViewOf, Tables, s.At, s.Next, s.Overruns, g.Raster, Progress;
    hide AllReadBack;
    var idata: nat, lastlength: nat := base, s.prefix;
    NoneHeld(s, g, ViewOf(g, jobs), base, base + ilength, 0);
    ok, length, read := true, 0, 0;
    RasterRows(g, 0);
    var sy := 0;
    while sy < g.ay.slices
      invariant sy <= g.ay.slices && ok && read == g.Raster(sy, 0) && idata + lastlength == s.Addr(base, read)
      invariant Progress(s, g, ViewOf(g, jobs), base, base + ilength, 0, read)
    {
      RasterRows(g, sy + 1);
      ok, idata, lastlength, read := ReadRow(s, g, jobs, lutY, lutX, sy, base, idata, lastlength, base + ilength);
      if !ok {
        WrittenAreHeld(s, g, ViewOf(g, jobs), base, ilength, 0, read, g.Slices(), ok, length);
        return;
      }
      sy := sy + 1;
    }
    RasterRows(g, sy);
    s.AddrGrows(base, 0, read);
    length := idata + 1 + lastlength - base;
    WrittenAreHeld(s, g, ViewOf(g, jobs), base, ilength, 0, read, g.Slices(), ok, length);
  }

  /** These slices, written out, are in every slot that holds them; the first of them is number `first` of the
      picture. */
  ghost predicate ReadBack(s: Source, g: Grid, v: View, first: nat, slices: seq<SliceLayout.Slice>)
    requires Shaped(g, v)
  {
    forall jy: nat, jx: nat, sy: nat, sx: nat ::
      g.InJob(jy, jx, sy, sx) && first <= g.Raster(sy, sx) < first + |slices| ==>
        s.Content(Slot(g, v, jy, jx, sy, sx)) == slices[g.Raster(sy, sx) - first].Content()
  }

  /** Slices that were written out, n or fewer, are all read exactly when each ends inside the data; they are held then;
      and when they are all n, the call succeeds and reports their bytes, the prefix of another slice and one more. */
  ghost predicate AllReadBack(s: Source, g: Grid, v: View, base: nat, ilength: nat, first: nat, n: nat, ok: bool,
                              length: int, read: nat)
    requires Shaped(g, v)
  {
    forall slices: seq<SliceLayout.Slice> :: SliceLayout.Laid(s, base, slices) && |slices| <= n ==>
      && (|slices| <= read <==> forall k :: 0 <= k < |slices| ==> SliceLayout.EndsInside(slices, k, ilength))
      && (|slices| <= read ==> ReadBack(s, g, v, first, slices))
      && (|slices| == n <= read ==> ok && length == |SliceLayout.Written(slices)| + s.prefix + 1)
  }

  lemma WrittenAreHeld(s: Source, g: Grid, v: View, base: nat, ilength: nat, first: nat, read: nat, n: nat, ok: bool,
                       length: int)
    requires Shaped(g, v) && Progress(s, g, v, base, base + ilength, first, read)
    requires if ok then read == n && base + length == s.Addr(base, read) + 1
             else read < n && s.Overruns(s.Addr(base, read), base + ilength)
    ensures AllReadBack(s, g, v, base, ilength, first, n, ok, length, read)
  {
    hide SliceLayout.Laid, SliceLayout.Written, s.Content, s.Slice, s.Addr, s.Overruns, g.InJob, g.Raster, Slot;
    hide SliceLayout.EndsInside;
    forall slices: seq<SliceLayout.Slice> | SliceLayout.Laid(s, base, slices) && |slices| <= n
      ensures |slices| <= read <==> forall k :: 0 <= k < |slices| ==> SliceLayout.EndsInside(slices, k, ilength)
      ensures |slices| <= read ==> ReadBack(s, g, v, first, slices)
      ensures |slices| == n <= read ==> ok && length == |SliceLayout.Written(slices)| + s.prefix + 1
    {
      if read < |slices| {
        SliceLayout.WrittenIsRead(s, base, slices, read, ilength);
      } else {
        WrittenOnesHeld(s, g, v, base, ilength, first, read, slices);
      }
    }
  }

  lemma WrittenOnesHeld(s: Source, g: Grid, v: View, base: nat, ilength: nat, first: nat, read: nat,
                        slices: seq<SliceLayout.Slice>)
    requires Shaped(g, v) && Progress(s, g, v, base, base + ilength, first, read)
    requires SliceLayout.Laid(s, base, slices) && |slices| <= read
    ensures ReadBack(s, g, v, first, slices)
    ensures forall k :: 0 <= k < |slices| ==> SliceLayout.EndsInside(slices, k, ilength)
    ensures s.Addr(base, |slices|) == base + |SliceLayout.Written(slices)| + s.prefix
  {
    hide SliceLayout.Laid, SliceLayout.Written, s.Content, s.Slice, s.Addr, s.Overruns, g.InJob, g.Raster, Slot;
    hide SliceLayout.EndsInside;
    SliceLayout.WrittenIsRead(s, base, slices, |slices|, ilength);
    forall k: nat | k < |slices|
      ensures SliceLayout.EndsInside(slices, k, ilength) && s.Content(s.Slice(base, k)) == slices[k].Content()
    {
      SliceLayout.WrittenIsRead(s, base, slices, k, ilength);
    }
    forall jy: nat, jx: nat, sy: nat, sx: nat
      | g.InJob(jy, jx, sy, sx) && first <= g.Raster(sy, sx) < first + |slices|
      ensures s.Content(Slot(g, v, jy, jx, sy, sx)) == slices[g.Raster(sy, sx) - first].Content()
    {
      var k := g.Raster(sy, sx) - first;
      assert s.Content(s.Slice(base, k)) == slices[k].Content();
    }
  }

  lemma RasterRows(g: Grid, sy: nat)
    requires g.Valid()
    ensures g.Raster(0, 0) == 0 && g.ax.slices > 0 && g.Raster(sy, 0) < g.Raster(sy + 1, 0)
    ensures sy <= g.ay.slices ==> g.Raster(sy, 0) <= g.Slices()
    ensures sy == g.ay.slices ==> g.Raster(sy, 0) == g.Slices()
  {
    if sy <= g.ay.slices {
      Monotone(g.ay.slices, sy, g.ax.slices);
    }
  }

  lemma NoneHeld(s: Source, g: Grid, v: View, base: nat, limit: nat, first: nat)
    requires Shaped(g, v)
    ensures Progress(s, g, v, base, limit, first, 0)
  {}

  /** After a whole picture, slot (r, c) of a job holds the slice r rows and c columns into its window. */
  lemma EverySlot(s: Source, g: Grid, v: View, base: nat, jy: nat, jx: nat, r: nat, c: nat)
    requires Shaped(g, v) && Holds(s, g, v, base, 0, g.Slices())
    requires jy < g.ay.jobs && jx < g.ax.jobs && r < g.ay.Count(jy) && c < g.ax.Count(jx)
    ensures g.ay.Start(jy) >= 0 && g.ax.Start(jx) >= 0 && g.Number(jy, jx) < |v|
    ensures 0 <= r * g.ax.Count(jx) + c < |v[g.Number(jy, jx)]|
    ensures v[g.Number(jy, jx)][r * g.ax.Count(jx) + c]
         == s.Slice(base, g.Raster(g.ay.Start(jy) + r, g.ax.Start(jx) + c))
  {
    hide Axis.Fits, Axis.Start, Axis.Count, Axis.Valid, g.Raster, s.Slice;
    WindowInside(g.ay, jy);
    WindowInside(g.ax, jx);
    var sy, sx := g.ay.Start(jy) + r, g.ax.Start(jx) + c;
    g.RasterInside(sy, sx);
    IndexInside(g, jy, jx, sy, sx);
    assert g.InJob(jy, jx, sy, sx);
    assert Slot(g, v, jy, jx, sy, sx) == s.Slice(base, g.Raster(sy, sx));
  }
}
