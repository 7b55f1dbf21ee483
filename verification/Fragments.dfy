/** Pictures that arrive as fragments: runs of slices in raster order, each run with data of its own. */
module Fragments {
  import opened Planes
  import opened JobGrid
  import opened SliceStream
  import opened Jobs
  import opened Slices

  /** How many of n slices from place `first` on are in the picture. */
  function Within(g: Grid, first: nat, n: nat): nat {
    if first < g.Slices() then Min(n, g.Slices() - first) else 0
  }

  lemma KeptChain(g: Grid, v0: View, v1: View, v2: View, first: nat, k: nat)
    requires Shaped(g, v0) && Shaped(g, v1) && Shaped(g, v2) && first <= k
    requires OutsideKept(g, v0, v1, first, k) && OutsideKept(g, v1, v2, k, k + 1)
    ensures OutsideKept(g, v0, v2, first, k + 1)
  {
    hide Shaped, Slot, g.Raster, Axis.InWindow;
  }

  /** Reads n slices from slice (y, x) on, as far as the picture goes. A fragment that has slices to read, in a row of
      the picture, begins in one of its columns: past them the table has no entry. */
  method SliceInputFragment(s: Source, g: Grid, jobs: seq<Job>, lutY: array<int>, lutX: array<int>,
                            base: nat, ilength: nat, n: nat, x: nat, y: nat)
    returns (ok: bool, length: nat, read: nat)
    requires JobsOk(g, jobs) && Tables(g, lutY, lutX) && (n > 0 && y < g.ay.slices ==> x < g.ax.slices)
    modifies Arrays(jobs)
    ensures Progress(s, g, ViewOf(g, jobs), base, base + ilength, g.Raster(y, x), read)
    ensures ok ==> read == Within(g, g.Raster(y, x), n) && base + length == s.Addr(base, read) + 1
    ensures !ok ==> read < Within(g, g.Raster(y, x), n) && s.Overruns(s.Addr(base, read), base + ilength)
    ensures OutsideKept(g, old(ViewOf(g, jobs)), ViewOf(g, jobs), g.Raster(y, x),
                        g.Raster(y, x) + read + if ok then 0 else 1)
    ensures AllReadBack(s, g, ViewOf(g, jobs), base, ilength, g.Raster(y, x), Within(g, g.Raster(y, x), n), ok, length,
                        read)
  {
    hide AllReadBack;
    hide Axis.InWindow, Axis.Valid, Axis.Fits, JobsOk, ViewOf, Tables, s.At, s.Next, s.Overruns;
    hide g.Raster, Progress, OutsideKept;
    ghost var v0 := ViewOf(g, jobs);
    ghost var first := g.Raster(y, x);
    var idata: nat, lastlength: nat := base, s.prefix;
    ok, length, read := true, 0, 0;
    NoneHeld(s, g, v0, base, base + ilength, first);
    NothingMoved(g, v0, first);
    var sy: nat, sx: nat := y, x;
    while read < n && sy < g.ay.slices
      invariant ok && (read < n && sy < g.ay.slices ==> sx < g.ax.slices) && read <= n
                && g.Raster(sy, sx) == first + read
      invariant read > 0 ==> first + read <= g.Slices()
      invariant idata + lastlength == s.Addr(base, read)
      invariant Progress(s, g, ViewOf(g, jobs), base, base + ilength, first, read)
      invariant OutsideKept(g, v0, ViewOf(g, jobs), first, first + read)
    {
      g.RasterInside(sy, sx);
      ghost var v1 := ViewOf(g, jobs);
      ok, idata, lastlength := ReadOne(s, g, jobs, lutY, lutX, sy, sx, base, first, idata, lastlength, base + ilength);
      KeptChain(g, v0, v1, ViewOf(g, jobs), first, first + read);
      if !ok {
        WrittenAreHeld(s, g, ViewOf(g, jobs), base, ilength, first, read, Within(g, first, n), ok, length);
        return;
      }
      NextInRaster(g, sy, sx);
      read, sx := read + 1, sx + 1;
      if sx == g.ax.slices {
        sx := 0;
        sy := sy + 1;
      }
    }
    RastersEnd(g, sy, sx);
    s.AddrGrows(base, 0, read);
    length := idata + 1 + lastlength - base;
    WrittenAreHeld(s, g, ViewOf(g, jobs), base, ilength, first, read, Within(g, first, n), ok, length);
  }

  /** Slices past the last row are past the last slice. */
  lemma RastersEnd(g: Grid, sy: nat, sx: nat)
    ensures g.Raster(sy, sx) < g.Slices() ==> sy < g.ay.slices
    ensures sy < g.ay.slices && sx < g.ax.slices ==> g.Raster(sy, sx) < g.Slices()
  {
    if g.ax.slices > 0 {
      Monotone(sy, g.ay.slices, g.ax.slices);
      Monotone(g.ay.slices, sy + 1, g.ax.slices);
    }
  }

  lemma NothingMoved(g: Grid, v: View, first: nat)
    requires Shaped(g, v)
    ensures OutsideKept(g, v, v, first, first)
  {}

  // ----- a picture in fragments

  /** The contents of slices 0 to k of the picture at `whole` are in every slot that holds them. */
  ghost predicate HoldsContent(s: Source, g: Grid, v: View, whole: nat, k: nat)
    requires Shaped(g, v)
  {
    forall jy: nat, jx: nat, sy: nat, sx: nat :: g.InJob(jy, jx, sy, sx) && g.Raster(sy, sx) < k ==>
      s.Content(Slot(g, v, jy, jx, sy, sx)) == s.Content(s.Slice(whole, g.Raster(sy, sx)))
  }

  /** A fragment that continues the picture brings the contents of its slices, wherever its data lies. */
  lemma FragmentAdds(s: Source, g: Grid, was: View, now: View, whole: nat, part: nat, k: nat, n: nat)
    requires Shaped(g, was) && Shaped(g, now) && HoldsContent(s, g, was, whole, k)
    requires s.Fragment(whole, part, k, n)
    requires Holds(s, g, now, part, k, k + n) && OutsideKept(g, was, now, k, k + n)
    ensures HoldsContent(s, g, now, whole, k + n)
  {
    hide s.Content, s.Fragment, s.Addr, s.At, g.Raster, Axis.InWindow, Slot;
    forall jy: nat, jx: nat, sy: nat, sx: nat | g.InJob(jy, jx, sy, sx) && k <= g.Raster(sy, sx) < k + n
      ensures s.Content(Slot(g, now, jy, jx, sy, sx)) == s.Content(s.Slice(whole, g.Raster(sy, sx)))
    {
      s.FragmentSlices(whole, part, k, n, g.Raster(sy, sx) - k);
    }
  }

  /** Slots filled from one block of data hold its contents. */
  lemma WholeContent(s: Source, g: Grid, v: View, whole: nat, k: nat)
    requires Shaped(g, v) && Holds(s, g, v, whole, 0, k)
    ensures HoldsContent(s, g, v, whole, k)
  {
    hide s.Content, s.Slice, g.Raster, Axis.InWindow, Slot;
  }

  /** However the picture arrived, every slot has the same content. */
  lemma SameContents(s: Source, g: Grid, v1: View, v2: View, whole: nat, jy: nat, jx: nat, sy: nat, sx: nat)
    requires Shaped(g, v1) && HoldsContent(s, g, v1, whole, g.Slices())
    requires Shaped(g, v2) && HoldsContent(s, g, v2, whole, g.Slices())
    requires g.InJob(jy, jx, sy, sx)
    ensures s.Content(Slot(g, v1, jy, jx, sy, sx)) == s.Content(Slot(g, v2, jy, jx, sy, sx))
  {
    hide s.Content, s.Slice, g.Raster, Axis.InWindow, Slot;
    g.RasterInside(sy, sx);
  }

  datatype Outcome = More | Picture | Overrun

  /** The decoder's count of slices since the last picture header. */
  class Collector {
    var sliced: nat

    constructor ()
      ensures sliced == 0
    {
      sliced := 0;
    }

    /** A fragment of no slices begins a picture; the others bring slices, and the last of them the picture. */
    method HandleFragment(s: Source, g: Grid, jobs: seq<Job>, lutY: array<int>, lutX: array<int>,
                          base: nat, ilength: nat, count: nat, x: nat, y: nat) returns (r: Outcome)
      requires JobsOk(g, jobs) && Tables(g, lutY, lutX) && (count > 0 && y < g.ay.slices ==> x < g.ax.slices)
      modifies this, Arrays(jobs)
      ensures count == 0 ==> r == More && sliced == 0 && ViewOf(g, jobs) == old(ViewOf(g, jobs))
      ensures count > 0 && r != Overrun ==>
        && sliced == old(sliced) + count
        && (r == Picture <==> sliced >= g.Slices())
        && Progress(s, g, ViewOf(g, jobs), base, base + ilength, g.Raster(y, x), Within(g, g.Raster(y, x), count))
        && OutsideKept(g, old(ViewOf(g, jobs)), ViewOf(g, jobs), g.Raster(y, x),
                       g.Raster(y, x) + Within(g, g.Raster(y, x), count))
      ensures r == Overrun ==> count > 0 && sliced == old(sliced)
      ensures r == Overrun ==> exists k: nat :: k < count && s.Overruns(s.Addr(base, k), base + ilength)
    {
      hide AllReadBack, Axis.InWindow, Axis.Valid, Axis.Fits, Tables, Progress, OutsideKept;
      hide s.Overruns, s.Addr, g.Raster, Shaped;
      if count == 0 {
        sliced := 0;
        return More;
      }
      var ok, length, read := SliceInputFragment(s, g, jobs, lutY, lutX, base, ilength, count, x, y);
      if !ok {
        return Overrun;
      }
      sliced := sliced + count;
      r := if sliced >= g.ay.slices * g.ax.slices then Picture else More;
    }
  }

  datatype Part = Part(base: nat, ilength: nat, count: nat, x: nat, y: nat)

  /** The slices in the first i fragments. */
  function Before(parts: seq<Part>, i: nat): nat
    requires i <= |parts|
  {
    if i == 0 then 0 else Before(parts, i - 1) + parts[i - 1].count
  }

  /** Fragments that carry the picture's data in raster order, cut up anyhow. */
  ghost predicate Carry(s: Source, g: Grid, whole: nat, parts: seq<Part>) {
    && Before(parts, |parts|) == g.Slices()
    && forall i :: 0 <= i < |parts| ==> CarriesPart(s, g, whole, parts, i)
  }

  ghost predicate CarriesPart(s: Source, g: Grid, whole: nat, parts: seq<Part>, i: nat)
    requires i < |parts|
  {
    var p := parts[i];
    && p.count > 0 && p.x < g.ax.slices && g.Raster(p.y, p.x) == Before(parts, i)
    && s.Fragment(whole, p.base, Before(parts, i), p.count)
  }

  /** The count reaches the whole picture with the last fragment and not before. */
  lemma {:induction false} LastCompletes(s: Source, g: Grid, whole: nat, parts: seq<Part>, i: nat, j: nat)
    requires Carry(s, g, whole, parts) && i <= j <= |parts|
    ensures Before(parts, i) <= Before(parts, j) && (i < j ==> Before(parts, i) < Before(parts, j))
    decreases j - i
  {
    hide g.Raster, s.Fragment;
    if i < j {
      LastCompletes(s, g, whole, parts, i, j - 1);
      assert CarriesPart(s, g, whole, parts, j - 1);
    }
  }

  method CollectOne(c: Collector, s: Source, g: Grid, jobs: seq<Job>, lutY: array<int>, lutX: array<int>,
                    ghost whole: nat, parts: seq<Part>, i: nat) returns (r: Outcome)
    requires JobsOk(g, jobs) && Tables(g, lutY, lutX) && Carry(s, g, whole, parts) && i < |parts|
    requires c.sliced == Before(parts, i) && HoldsContent(s, g, ViewOf(g, jobs), whole, Before(parts, i))
    modifies c, Arrays(jobs)
    ensures r != Overrun ==> c.sliced == Before(parts, i + 1) && (r == Picture <==> i + 1 == |parts|)
    ensures r != Overrun ==> HoldsContent(s, g, ViewOf(g, jobs), whole, Before(parts, i + 1))
  {
    hide Axis.InWindow, Axis.Valid, Axis.Fits, Tables, Progress, OutsideKept, HoldsContent;
    hide s.Overruns, s.Addr, s.Fragment;
    hide g.Raster, Shaped, JobsOk, ViewOf;
    var p := parts[i];
    ghost var was := ViewOf(g, jobs);
    assert CarriesPart(s, g, whole, parts, i);
    LastCompletes(s, g, whole, parts, i + 1, |parts|);
    r := c.HandleFragment(s, g, jobs, lutY, lutX, p.base, p.ilength, p.count, p.x, p.y);
    if r != Overrun {
      PartAdds(s, g, was, ViewOf(g, jobs), whole, p.base, p.base + p.ilength, Before(parts, i), p.count);
    }
  }

  /** A picture's fragments, one after the other: only the last completes it, and then every slot has its content. */
  method Collect(c: Collector, s: Source, g: Grid, jobs: seq<Job>, lutY: array<int>, lutX: array<int>,
                 ghost whole: nat, parts: seq<Part>) returns (r: Outcome, handled: nat)
    requires JobsOk(g, jobs) && Tables(g, lutY, lutX) && Carry(s, g, whole, parts) && c.sliced == 0
    modifies c, Arrays(jobs)
    ensures handled <= |parts| && (r == Picture <==> handled == |parts|)
    ensures r == Picture ==> HoldsContent(s, g, ViewOf(g, jobs), whole, g.Slices())
    ensures r == Picture || r == Overrun
  {
    hide Axis.InWindow, Tables, HoldsContent, Carry, g.Raster, Shaped, JobsOk, ViewOf, g.Valid;
    r, handled := More, 0;
    NoneYet(s, g, ViewOf(g, jobs), whole, parts);
    while handled < |parts|
      invariant handled <= |parts| && c.sliced == Before(parts, handled)
      invariant HoldsContent(s, g, ViewOf(g, jobs), whole, Before(parts, handled))
      invariant r == if handled == |parts| then Picture else More
    {
      r := CollectOne(c, s, g, jobs, lutY, lutX, whole, parts, handled);
      if r == Overrun {
        return;
      }
      handled := handled + 1;
    }
  }

  lemma NoneYet(s: Source, g: Grid, v: View, whole: nat, parts: seq<Part>)
    requires Shaped(g, v) && Carry(s, g, whole, parts)
    ensures |parts| > 0 && Before(parts, |parts|) == g.Slices() && HoldsContent(s, g, v, whole, 0)
  {
    RasterRows(g, 0);
    Monotone(g.ay.slices, 1, g.ax.slices);
  }

  lemma PartAdds(s: Source, g: Grid, was: View, now: View, whole: nat, part: nat, limit: nat, k: nat, n: nat)
    requires Shaped(g, was) && Shaped(g, now) && HoldsContent(s, g, was, whole, k)
    requires s.Fragment(whole, part, k, n) && Progress(s, g, now, part, limit, k, n)
             && OutsideKept(g, was, now, k, k + n)
    ensures HoldsContent(s, g, now, whole, k + n)
  {
    FragmentAdds(s, g, was, now, whole, part, k, n);
  }
}
