/** The decoding jobs and their slots: each job holds a record for every slice of its window. */
module Jobs {
  import opened Planes
  import opened JobGrid
  import opened SliceStream
  import opened JobBuffers

  /** A job's window of slices, from row startY and column startX on, and its records row by row. */
  class Job {
    const startY: nat
    const startX: nat
    const slicesY: nat
    const slicesX: nat
    const coded: array<Record>
    const components: seq<Component>

    constructor (g: Grid, jy: nat, jx: nat, sampleSize: nat)
      requires g.Valid() && jy < g.ay.jobs && jx < g.ax.jobs && Peopled(g.ay, jy) && Peopled(g.ax, jx)
      requires sampleSize == 2 || sampleSize == 4
      ensures IsJob(g, this, jy, jx) && fresh(coded) && fresh(Buffers(components))
    {
      hide IsComponent, Axis.Start, Axis.Count;
      WindowInside(g.ay, jy);
      WindowInside(g.ax, jx);
      startY := g.ay.Start(jy);
      startX := g.ax.Start(jx);
      slicesY := g.ay.Count(jy);
      slicesX := g.ax.Count(jx);
      coded := new Record[g.ay.Count(jy) * g.ax.Count(jx)](_ => Record(0, [0, 0, 0], [0, 0, 0]));
      var luma := NewComponent(g.ay, jy, g.ax, jx, 0, sampleSize);
      var chroma1 := NewComponent(g.ay, jy, g.ax, jx, 1, sampleSize);
      var chroma2 := NewComponent(g.ay, jy, g.ax, jx, 2, sampleSize);
      components := [luma, chroma1, chroma2];
    }
  }

  predicate IsJob(g: Grid, job: Job, jy: nat, jx: nat)
    requires g.Valid() && jy < g.ay.jobs && jx < g.ax.jobs
  {
    && job.startY == g.ay.Start(jy) && job.slicesY == g.ay.Count(jy)
    && job.startX == g.ax.Start(jx) && job.slicesX == g.ax.Count(jx)
    && job.coded.Length == job.slicesY * job.slicesX
    && AreComponents(job.components, g.ay, jy, g.ax, jx)
  }

  /** The axes of the slice grid: rows of slices, and slices in a row. */
  datatype Grid = Grid(ay: Axis, ax: Axis) {
    predicate Valid() {
      ay.Valid() && ax.Valid() && ay.Fits() && ax.Fits()
    }

    function Jobs(): nat {
      ay.jobs * ax.jobs
    }

    function Number(jy: nat, jx: nat): nat {
      jy * ax.jobs + jx
    }

    lemma NumberInside(jy: nat, jx: nat)
      requires jy < ay.jobs && jx < ax.jobs
      ensures Number(jy, jx) < Jobs()
    {
      Monotone(ay.jobs, jy + 1, ax.jobs);
    }

    lemma NumberUnique(jy: nat, jx: nat, ky: nat, kx: nat)
      requires jx < ax.jobs && kx < ax.jobs
      ensures Number(jy, jx) == Number(ky, kx) <==> jy == ky && jx == kx
    {
      DivUnique(Number(jy, jx), jy, jx, ax.jobs);
      DivUnique(Number(ky, kx), ky, kx, ax.jobs);
    }

    /** The place of a slice in raster order. */
    function Raster(sy: nat, sx: nat): nat {
      sy * ax.slices + sx
    }

    function Slices(): nat {
      ay.slices * ax.slices
    }

    lemma RasterUnique(sy: nat, sx: nat, ty: nat, tx: nat)
      requires sx < ax.slices && tx < ax.slices
      ensures Raster(sy, sx) == Raster(ty, tx) <==> sy == ty && sx == tx
    {
      DivUnique(Raster(sy, sx), sy, sx, ax.slices);
      DivUnique(Raster(ty, tx), ty, tx, ax.slices);
    }

    lemma RasterInside(sy: nat, sx: nat)
      requires sx < ax.slices
      ensures Raster(sy, sx) < Slices() <==> sy < ay.slices
    {
      Monotone(ay.slices, sy + 1, ax.slices);
      Monotone(sy, ay.slices, ax.slices);
    }

    /** Slice (sy, sx) is in the window of job (jy, jx). */
    predicate InJob(jy: nat, jx: nat, sy: nat, sx: nat)
      requires Valid()
    {
      && jy < ay.jobs && jx < ax.jobs && sy < ay.slices && sx < ax.slices
      && ay.InWindow(jy, sy) && ax.InWindow(jx, sx)
    }
  }

  /** The place of a slice among a job's records. */
  function Index(g: Grid, jy: nat, jx: nat, sy: nat, sx: nat): int
    requires g.Valid() && g.InJob(jy, jx, sy, sx)
  {
    (sy - g.ay.Start(jy)) * g.ax.Count(jx) + (sx - g.ax.Start(jx))
  }

  /** Windows that fit lie within the picture. */
  lemma WindowInside(a: Axis, j: nat)
    requires a.Valid() && a.Fits() && j < a.jobs
    ensures a.Start(j) >= 0 && a.Count(j) >= 0 && a.Start(j) + a.Count(j) <= a.slices
  {
    hide a.PerJob;
    a.FirstMonotone(j, a.jobs - 1);
    if j + 1 < a.jobs {
      a.FirstMonotone(j + 1, a.jobs - 1);
    }
    a.FirstNext(j);
    if j > 0 {
      a.FirstNext(j - 1);
    }
  }

  lemma IndexInside(g: Grid, jy: nat, jx: nat, sy: nat, sx: nat)
    requires g.Valid() && g.InJob(jy, jx, sy, sx)
    ensures 0 <= Index(g, jy, jx, sy, sx) < g.ay.Count(jy) * g.ax.Count(jx)
  {
    hide Axis.Valid, Axis.Fits, Axis.Start, Axis.Count;
    var r, c, h, w := sy - g.ay.Start(jy), sx - g.ax.Start(jx), g.ay.Count(jy), g.ax.Count(jx);
    Monotone(h, r + 1, w);
    Monotone(r, 0, w);
  }

  lemma IndexUnique(g: Grid, jy: nat, jx: nat, sy: nat, sx: nat, ty: nat, tx: nat)
    requires g.Valid() && g.InJob(jy, jx, sy, sx) && g.InJob(jy, jx, ty, tx)
    ensures Index(g, jy, jx, sy, sx) == Index(g, jy, jx, ty, tx) <==> sy == ty && sx == tx
  {
    hide Axis.Valid, Axis.Fits, Axis.Start, Axis.Count;
    DivUnique(Index(g, jy, jx, sy, sx), sy - g.ay.Start(jy), sx - g.ax.Start(jx), g.ax.Count(jx));
    DivUnique(Index(g, jy, jx, ty, tx), ty - g.ay.Start(jy), tx - g.ax.Start(jx), g.ax.Count(jx));
  }

  ghost function Arrays(jobs: seq<Job>): set<object> {
    set j | j in jobs :: j.coded
  }

  ghost predicate JobsOk(g: Grid, jobs: seq<Job>) {
    && g.Valid() && |jobs| == g.Jobs()
    && (forall jy: nat, jx: nat :: jy < g.ay.jobs && jx < g.ax.jobs ==>
          g.Number(jy, jx) < |jobs| && IsJob(g, jobs[g.Number(jy, jx)], jy, jx))
    && (forall i, j :: 0 <= i < j < |jobs| ==> jobs[i].coded != jobs[j].coded)
    && (forall i, j :: 0 <= i < j < |jobs| ==> Buffers(jobs[i].components) !! Buffers(jobs[j].components))
  }

  /** All the records of all the jobs. */
  type View = seq<seq<Record>>

  ghost predicate Shaped(g: Grid, v: View) {
    && g.Valid() && |v| == g.Jobs()
    && forall jy: nat, jx: nat :: jy < g.ay.jobs && jx < g.ax.jobs ==>
         g.Number(jy, jx) < |v| && |v[g.Number(jy, jx)]| == g.ay.Count(jy) * g.ax.Count(jx)
  }

  ghost function ViewOf(g: Grid, jobs: seq<Job>): (v: View)
    requires JobsOk(g, jobs)
    reads Arrays(jobs)
    ensures Shaped(g, v)
  {
    seq(|jobs|, i requires 0 <= i < |jobs| reads Arrays(jobs) => jobs[i].coded[..])
  }

  /** What job (jy, jx) holds for slice (sy, sx). */
  ghost function Slot(g: Grid, v: View, jy: nat, jx: nat, sy: nat, sx: nat): Record
    requires Shaped(g, v) && g.InJob(jy, jx, sy, sx)
  {
    IndexInside(g, jy, jx, sy, sx);
    v[g.Number(jy, jx)][Index(g, jy, jx, sy, sx)]
  }

  lemma SlotApart(g: Grid, jy: nat, jx: nat, sy: nat, sx: nat, ky: nat, kx: nat, ty: nat, tx: nat)
    requires g.Valid() && g.InJob(jy, jx, sy, sx) && g.InJob(ky, kx, ty, tx)
    ensures g.Number(jy, jx) == g.Number(ky, kx) && Index(g, jy, jx, sy, sx) == Index(g, ky, kx, ty, tx)
            <==> jy == ky && jx == kx && sy == ty && sx == tx
  {
    hide Axis.Valid, Axis.Fits, Axis.InWindow, g.Number, Index;
    g.NumberUnique(jy, jx, ky, kx);
    if jy == ky && jx == kx {
      IndexUnique(g, jy, jx, sy, sx, ty, tx);
    }
  }

  /** The slots after one of them has been given a record. */
  ghost predicate OneStored(g: Grid, was: View, now: View, jy: nat, jx: nat, sy: nat, sx: nat, r: Record)
    requires Shaped(g, was) && Shaped(g, now)
  {
    forall ky: nat, kx: nat, ty: nat, tx: nat :: g.InJob(ky, kx, ty, tx) ==>
      Slot(g, now, ky, kx, ty, tx)
        == if ky == jy && kx == jx && ty == sy && tx == sx then r else Slot(g, was, ky, kx, ty, tx)
  }

  lemma NoneStored(g: Grid, v: View, jy: nat, jx: nat, sy: nat, sx: nat)
    requires Shaped(g, v) && g.InJob(jy, jx, sy, sx)
    ensures OneStored(g, v, v, jy, jx, sy, sx, Slot(g, v, jy, jx, sy, sx))
  {
    hide Slot, Shaped, Grid.InJob;
  }

  lemma StoredAgain(g: Grid, was: View, mid: View, now: View, jy: nat, jx: nat, sy: nat, sx: nat, r: Record, r': Record)
    requires Shaped(g, was) && Shaped(g, mid) && Shaped(g, now)
    requires OneStored(g, was, mid, jy, jx, sy, sx, r) && OneStored(g, mid, now, jy, jx, sy, sx, r')
    ensures OneStored(g, was, now, jy, jx, sy, sx, r')
  {
    hide Slot, Shaped, Grid.InJob;
  }

  lemma StoredIn(g: Grid, was: View, now: View, jy: nat, jx: nat, sy: nat, sx: nat, r: Record)
    requires Shaped(g, was) && Shaped(g, now) && g.InJob(jy, jx, sy, sx) && |was| == |now|
    requires 0 <= Index(g, jy, jx, sy, sx) < |was[g.Number(jy, jx)]|
    requires forall i :: 0 <= i < |was| ==>
      now[i] == if i == g.Number(jy, jx) then was[i][Index(g, jy, jx, sy, sx) := r] else was[i]
    ensures OneStored(g, was, now, jy, jx, sy, sx, r)
  {
    hide Axis.Valid, Axis.Fits, Axis.InWindow, g.Number, Index;
    forall ky: nat, kx: nat, ty: nat, tx: nat | g.InJob(ky, kx, ty, tx)
      ensures Slot(g, now, ky, kx, ty, tx)
        == if ky == jy && kx == jx && ty == sy && tx == sx then r else Slot(g, was, ky, kx, ty, tx)
    {
      SlotApart(g, jy, jx, sy, sx, ky, kx, ty, tx);
      IndexInside(g, ky, kx, ty, tx);
    }
  }

  method Put(g: Grid, jobs: seq<Job>, jy: nat, jx: nat, sy: nat, sx: nat, r: Record)
    requires JobsOk(g, jobs) && g.InJob(jy, jx, sy, sx)
    modifies Arrays(jobs)
    ensures OneStored(g, old(ViewOf(g, jobs)), ViewOf(g, jobs), jy, jx, sy, sx, r)
  {
    hide Axis.Valid, Axis.Fits, Axis.InWindow, g.Number, Index, OneStored, Shaped;
    var n, k := g.Number(jy, jx), Index(g, jy, jx, sy, sx);
    ghost var was := ViewOf(g, jobs);
    IndexInside(g, jy, jx, sy, sx);
    jobs[n].coded[k] := r;
    forall i | 0 <= i < |jobs| ensures ViewOf(g, jobs)[i] == if i == n then was[i][k := r] else was[i] {}
    StoredIn(g, was, ViewOf(g, jobs), jy, jx, sy, sx, r);
  }

  method Get(g: Grid, jobs: seq<Job>, jy: nat, jx: nat, sy: nat, sx: nat) returns (r: Record)
    requires JobsOk(g, jobs) && g.InJob(jy, jx, sy, sx)
    ensures r == Slot(g, ViewOf(g, jobs), jy, jx, sy, sx)
  {
    hide Axis.Valid, Axis.Fits, Axis.InWindow, g.Number, Index;
    IndexInside(g, jy, jx, sy, sx);
    r := jobs[g.Number(jy, jx)].coded[Index(g, jy, jx, sy, sx)];
  }
}
