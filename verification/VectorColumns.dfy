/** The vectorised vertical 5/3 synthesis: row by row, four columns at a time, in strips of columns. */
module VectorColumns {
  import opened Lifting
  import opened Planes
  import opened Pyramid
  import opened Vectors
  import LeGallKernels

  /** The level's spacing, a power of two in a strip of 1024 columns. */
  predicate Step(s: nat) {
    s == 1 || s == 2 || (s > 0 && s % 4 == 0 && 1024 % s == 0)
  }

  /** Skips 1 and 2 take several samples from a vector; longer ones take the first. */
  predicate Shape(c: Canvas, s: nat) {
    && c.Valid() && c.stride % 4 == 0 && LevelOk(LeGall53, c.h, c.w, s)
    && Step(s)
  }

  function Advance(s: nat): nat {
    if s > 4 then s else 4
  }

  /** The numbers of the new vector where the level has samples, the old ones elsewhere. */
  function Blend(s: nat, new4: V4, old4: V4): V4 {
    if s == 1 then new4
    else if s == 2 then V4(new4.a, old4.b, new4.c, old4.d)
    else V4(new4.a, old4.b, old4.c, old4.d)
  }

  predicate Written(s: nat, lane: int) {
    lane == 0 || (s == 1 && 0 < lane < 4) || (s == 2 && lane == 2)
  }

  /** The same by column, for a vector that lies from column x on. */
  predicate WrittenAt(s: nat, x: nat, j: nat) {
    Written(s, j - x)
  }

  function NumberAt(v: V4, x: nat, j: nat): int {
    v.Get(j - x)
  }

  lemma BlendAt(s: nat, v: V4, w: V4, i: nat)
    requires i < 4
    ensures Blend(s, v, w).Get(i) == if Written(s, i) then v.Get(i) else w.Get(i)
  {}

  /** The numbers of the vector are those of row y from column x on. */
  ghost predicate Loaded(v: V4, q: Plane, h: nat, w: nat, y: nat, x: nat)
    requires Rect(q, h, w) && y < h
  {
    forall i: nat :: i < 4 && x + i < w ==> v.Get(i) == q[y][x + i]
  }

  method LoadAt(c: Canvas, y: nat, x: nat) returns (v: V4)
    requires c.Valid() && c.stride % 4 == 0 && y < c.h && x < c.w && x % 4 == 0
    ensures Loaded(v, c.Snapshot(), c.h, c.w, y, x)
  {
    VectorInside(c, y, x);
    v := LoadVector(c.mem, c.Cell(y, x));
    forall i: nat | i < 4 && x + i < c.w ensures v.Get(i) == c.Snapshot()[y][x + i] {
      c.CellInside(y, x + i);
    }
  }

  lemma VectorInside(c: Canvas, y: nat, x: nat)
    requires c.Valid() && c.stride % 4 == 0 && y < c.h && x < c.w && x % 4 == 0
    ensures x + 4 <= c.stride && c.Cell(y, x) + 4 <= c.mem.Length
  {
    Monotone(c.h, y + 1, c.stride);
  }

  /** A cell when row y is written with the new numbers in columns x to x + 4, where the level has samples. */
  function CellWritten(was: int, s: nat, y: nat, x: nat, v: V4, i: nat, j: nat): int {
    if i == y && WrittenAt(s, x, j) then NumberAt(v, x, j) else was
  }

  ghost predicate RowWritten(was: Plane, now: Plane, h: nat, w: nat, s: nat, y: nat, x: nat, v: V4)
    requires Rect(was, h, w) && Rect(now, h, w)
  {
    forall i: nat, j: nat :: i < h && j < w ==> now[i][j] == CellWritten(was[i][j], s, y, x, v, i, j)
  }

  method StoreAt(c: Canvas, s: nat, y: nat, x: nat, new4: V4, old4: V4)
    requires c.Valid() && c.stride % 4 == 0 && y < c.h && x < c.w && x % 4 == 0
    requires Loaded(old4, c.Snapshot(), c.h, c.w, y, x)
    modifies c.mem
    ensures RowWritten(old(c.Snapshot()), c.Snapshot(), c.h, c.w, s, y, x, new4)
  {
    hide c.Cell, Blend;
    ghost var was := c.Snapshot();
    VectorInside(c, y, x);
    StoreVector(c.mem, c.Cell(y, x), Blend(s, new4, old4));
    forall i: nat, j: nat | i < c.h && j < c.w
      ensures c.Snapshot()[i][j] == CellWritten(was[i][j], s, y, x, new4, i, j)
    {
      c.CellInside(i, j);
      CellOffset(c, i, j, y, x, 4);
      if i == y && x <= j < x + 4 {
        assert x + (j - x) == j;
        BlendAt(s, new4, old4, j - x);
      }
    }
  }

  // ----- how far each column is

  /** Column j has had d of its samples synthesised. */
  ghost predicate ColumnAt(now: Plane, p: Plane, h: nat, w: nat, s: nat, j: nat, d: int)
    requires Rect(now, h, w) && Rect(p, h, w) && LevelOk(LeGall53, h, w, s) && j < w
  {
    forall i: nat :: i < h ==> now[i][j] == if i / s < d then VAt(LeGall53, Synthesis, p, h, w, s, i, j) else p[i][j]
  }

  /** Before and after row number k of n has been taken; the last one only finishes the row before. */
  function Before(k: nat): nat {
    if k == 0 then 0 else k - 1
  }

  function After(k: nat, n: nat): nat {
    if k == n then n else k + 1
  }

  /** Sample k of a column and the odd one before it, from the samples around them. */
  function EvenOf(q: Plane, h: nat, w: nat, s: nat, k: nat, j: nat): int
    requires Rect(q, h, w) && LevelOk(LeGall53, h, w, s) && j < w && k < h / s && k % 2 == 0
  {
    LatticePoint(s, k, h);
    LatticePoint(s, k + 1, h);
    if k > 0 then LatticePoint(s, k - 1, h); q[k * s][j] - (q[(k - 1) * s][j] + q[(k + 1) * s][j] + 2) / 4
    else q[k * s][j] - (q[(k + 1) * s][j] + q[(k + 1) * s][j] + 2) / 4
  }

  function OddOf(q: Plane, h: nat, w: nat, s: nat, k: nat, j: nat, even: int): int
    requires Rect(q, h, w) && LevelOk(LeGall53, h, w, s) && j < w && 2 <= k <= h / s
  {
    LatticePoint(s, k - 1, h);
    LatticePoint(s, k - 2, h);
    q[(k - 1) * s][j] + (q[(k - 2) * s][j] + even + 1) / 2
  }

  /** What row number k does to one column. */
  ghost predicate ColumnTaken(was: Plane, now: Plane, h: nat, w: nat, s: nat, k: nat, j: nat)
    requires Rect(was, h, w) && Rect(now, h, w) && LevelOk(LeGall53, h, w, s) && j < w && k <= h / s && k % 2 == 0
  {
    forall i: nat :: i < h ==> now[i][j] == TakenAt(was, h, w, s, k, j, i)
  }

  ghost function TakenAt(was: Plane, h: nat, w: nat, s: nat, k: nat, j: nat, i: nat): int
    requires Rect(was, h, w) && LevelOk(LeGall53, h, w, s) && j < w && k <= h / s && k % 2 == 0 && i < h
  {
    if k < h / s && i == k * s then EvenOf(was, h, w, s, k, j)
    else if k >= 2 && i == (k - 1) * s then
      OddOf(was, h, w, s, k, j, if k < h / s then EvenOf(was, h, w, s, k, j) else EndOf(was, h, w, s, k, j))
    else was[i][j]
  }

  function EndOf(q: Plane, h: nat, w: nat, s: nat, k: nat, j: nat): int
    requires Rect(q, h, w) && LevelOk(LeGall53, h, w, s) && j < w && 2 <= k <= h / s
  {
    LatticePoint(s, k - 2, h);
    q[(k - 2) * s][j]
  }

  /** The samples of a column that is so far. */
  lemma SampleAt(now: Plane, p: Plane, h: nat, w: nat, s: nat, j: nat, d: int, k: nat)
    requires Rect(now, h, w) && Rect(p, h, w) && LevelOk(LeGall53, h, w, s) && j < w && j % s == 0 && k < h / s
    requires ColumnAt(now, p, h, w, s, j, d)
    ensures k * s < h
    ensures now[k * s][j] == if k < d then Synth(LeGall53, Column(p, h, w, j, s))[k] else Column(p, h, w, j, s)[k]
  {
    hide Synth, LineOk;
    LatticePoint(s, k, h);
    PassAt(LeGall53, false, Column(p, h, w, j, s), k);
  }

  lemma EvenIsSynth(was: Plane, p: Plane, h: nat, w: nat, s: nat, j: nat, k: nat)
    requires Rect(was, h, w) && Rect(p, h, w) && LevelOk(LeGall53, h, w, s) && j < w && j % s == 0
    requires k < h / s && k % 2 == 0 && ColumnAt(was, p, h, w, s, j, Before(k))
    ensures EvenOf(was, h, w, s, k, j) == Synth(LeGall53, Column(p, h, w, j, s))[k]
  {
    hide Synth, ColumnAt;
    SampleAt(was, p, h, w, s, j, Before(k), k);
    SampleAt(was, p, h, w, s, j, Before(k), k + 1);
    if k > 0 {
      SampleAt(was, p, h, w, s, j, Before(k), k - 1);
    }
    LeGallKernels.EvenSample(Column(p, h, w, j, s), k);
  }

  lemma OddIsSynth(was: Plane, p: Plane, h: nat, w: nat, s: nat, j: nat, k: nat)
    requires Rect(was, h, w) && Rect(p, h, w) && LevelOk(LeGall53, h, w, s) && j < w && j % s == 0
    requires 2 <= k <= h / s && k % 2 == 0 && ColumnAt(was, p, h, w, s, j, Before(k))
    ensures OddOf(was, h, w, s, k, j, if k < h / s then EvenOf(was, h, w, s, k, j) else EndOf(was, h, w, s, k, j))
         == Synth(LeGall53, Column(p, h, w, j, s))[k - 1]
  {
    hide Synth, ColumnAt, EvenOf, LineOk, Column;
    SampleAt(was, p, h, w, s, j, Before(k), k - 1);
    SampleAt(was, p, h, w, s, j, Before(k), k - 2);
    if k < h / s {
      EvenIsSynth(was, p, h, w, s, j, k);
    }
    LeGallKernels.OddSample(Column(p, h, w, j, s), k - 1);
  }

  /** Taking row number k brings a column on by two samples. */
  lemma ColumnAdvances(was: Plane, now: Plane, p: Plane, h: nat, w: nat, s: nat, j: nat, k: nat)
    requires Rect(was, h, w) && Rect(now, h, w) && Rect(p, h, w) && LevelOk(LeGall53, h, w, s) && j < w && j % s == 0
    requires k <= h / s && k % 2 == 0 && ColumnAt(was, p, h, w, s, j, Before(k)) && ColumnTaken(was, now, h, w, s, k, j)
    ensures ColumnAt(now, p, h, w, s, j, After(k, h / s))
  {
    forall i: nat | i < h
      ensures now[i][j] == if i / s < After(k, h / s) then VAt(LeGall53, Synthesis, p, h, w, s, i, j) else p[i][j]
    {
      RowAdvances(was, now, p, h, w, s, j, k, i);
    }
  }

  lemma RowAdvances(was: Plane, now: Plane, p: Plane, h: nat, w: nat, s: nat, j: nat, k: nat, i: nat)
    requires Rect(was, h, w) && Rect(now, h, w) && Rect(p, h, w) && LevelOk(LeGall53, h, w, s) && j < w && j % s == 0
    requires k <= h / s && k % 2 == 0 && ColumnAt(was, p, h, w, s, j, Before(k)) && ColumnTaken(was, now, h, w, s, k, j)
    requires i < h
    ensures now[i][j] == if i / s < After(k, h / s) then VAt(LeGall53, Synthesis, p, h, w, s, i, j) else p[i][j]
  {
    hide Synth, EvenOf, OddOf, EndOf, LineOk;
    assert now[i][j] == TakenAt(was, h, w, s, k, j, i);
    MultipleDivides(k, s);
    MultipleDivides(k - 1, s);
    if i % s == 0 {
      LatticeIndex(s, i, h);
      PassAt(LeGall53, false, Column(p, h, w, j, s), i / s);
      if k < h / s && i / s == k {
        EvenIsSynth(was, p, h, w, s, j, k);
      } else if k >= 2 && i / s == k - 1 {
        OddIsSynth(was, p, h, w, s, j, k);
      }
    }
  }

  // ----- four columns

  ghost predicate ColumnSame(was: Plane, now: Plane, h: nat, w: nat, j: nat)
    requires Rect(was, h, w) && Rect(now, h, w) && j < w
  {
    forall i: nat :: i < h ==> now[i][j] == was[i][j]
  }

  /** Row number k has been taken in the columns of a block, and the others are as they were. */
  ghost predicate BlockTaken(was: Plane, now: Plane, h: nat, w: nat, s: nat, k: nat, x: nat)
    requires Rect(was, h, w) && Rect(now, h, w) && LevelOk(LeGall53, h, w, s) && k <= h / s && k % 2 == 0
  {
    forall j: nat :: j < w ==>
        if WrittenAt(s, x, j) then ColumnTaken(was, now, h, w, s, k, j) else ColumnSame(was, now, h, w, j)
  }

  lemma EvensGet(e: V4, a: V4, b: V4, i: nat)
    requires i < 4
    ensures Evens(e, a, b).Get(i) == e.Get(i) - (a.Get(i) + b.Get(i) + 2) / 4
    ensures Odds(e, a, b).Get(i) == e.Get(i) + (a.Get(i) + b.Get(i) + 1) / 2
  {}

  lemma Around(k: nat, s: nat)
    ensures (k - 1) * s == k * s - s && (k - 2) * s == k * s - 2 * s && (k + 1) * s == k * s + s
  {}

  lemma EvenLane(was: Plane, h: nat, w: nat, s: nat, k: nat, x: nat, j: nat, d: V4, dm1: V4, dp1: V4)
    requires Rect(was, h, w) && LevelOk(LeGall53, h, w, s) && k < h / s && k % 2 == 0 && x <= j < x + 4 && j < w
    requires k * s < h && (k + 1) * s < h && Loaded(d, was, h, w, k * s, x) && Loaded(dp1, was, h, w, (k + 1) * s, x)
    requires if k == 0 then dm1 == dp1 else 0 <= (k - 1) * s < h && Loaded(dm1, was, h, w, (k - 1) * s, x)
    ensures NumberAt(Evens(d, dm1, dp1), x, j) == EvenOf(was, h, w, s, k, j)
  {
    hide Evens, LevelOk;
    EvensGet(d, dm1, dp1, j - x);
    assert x + (j - x) == j;
  }

  lemma OddLane(was: Plane, h: nat, w: nat, s: nat, k: nat, x: nat, j: nat, dm1: V4, xm2: V4, even: V4)
    requires Rect(was, h, w) && LevelOk(LeGall53, h, w, s) && 2 <= k <= h / s && k % 2 == 0 && x <= j < x + 4 && j < w
    requires 0 <= (k - 1) * s < h && Loaded(dm1, was, h, w, (k - 1) * s, x)
    requires 0 <= (k - 2) * s < h && Loaded(xm2, was, h, w, (k - 2) * s, x)
    ensures NumberAt(Odds(dm1, xm2, even), x, j) == OddOf(was, h, w, s, k, j, NumberAt(even, x, j))
  {
    hide Odds, LevelOk;
    EvensGet(dm1, xm2, even, j - x);
    assert x + (j - x) == j;
  }

  method FirstBlock(c: Canvas, s: nat, x: nat)
    requires Shape(c, s) && x < c.w && x % 4 == 0
    modifies c.mem
    ensures BlockTaken(old(c.Snapshot()), c.Snapshot(), c.h, c.w, s, 0, x)
  {
    hide c.Valid, c.Snapshot, Evens, Loaded, EvenOf;
    ghost var was := c.Snapshot();
    LatticePoint(s, 0, c.h);
    LatticePoint(s, 1, c.h);
    var d := LoadAt(c, 0, x);
    var dp1 := LoadAt(c, s, x);
    var dm1 := dp1;
    StoreAt(c, s, 0, x, Evens(d, dm1, dp1), d);
    forall j: nat | j < c.w && WrittenAt(s, x, j)
      ensures NumberAt(Evens(d, dm1, dp1), x, j) == EvenOf(was, c.h, c.w, s, 0, j) {
      EvenLane(was, c.h, c.w, s, 0, x, j, d, dm1, dp1);
    }
  }

  /** Even row k and the odd one before it, stored one after the other. */
  lemma TwoRows(was: Plane, mid: Plane, now: Plane, h: nat, w: nat, s: nat, k: nat, x: nat, even: V4, odd: V4)
    requires Rect(was, h, w) && Rect(mid, h, w) && Rect(now, h, w) && LevelOk(LeGall53, h, w, s) && 2 <= k < h / s
             && k % 2 == 0
    requires 0 <= (k - 1) * s < k * s && RowWritten(was, mid, h, w, s, (k - 1) * s, x, odd)
    requires RowWritten(mid, now, h, w, s, k * s, x, even)
    requires forall j: nat :: j < w && WrittenAt(s, x, j) ==> NumberAt(even, x, j) == EvenOf(was, h, w, s, k, j)
    requires forall j: nat :: j < w && WrittenAt(s, x, j) ==>
               NumberAt(odd, x, j) == OddOf(was, h, w, s, k, j, NumberAt(even, x, j))
    ensures BlockTaken(was, now, h, w, s, k, x)
  {
    hide EvenOf, OddOf, EndOf, NumberAt, WrittenAt, LineOk;
    forall j: nat, i: nat | j < w && i < h
      ensures now[i][j] == if WrittenAt(s, x, j) then TakenAt(was, h, w, s, k, j, i) else was[i][j]
    {
      assert now[i][j] == CellWritten(mid[i][j], s, k * s, x, even, i, j);
    }
    hide TakenAt;
  }

  method MiddleBlock(c: Canvas, s: nat, k: nat, x: nat)
    requires Shape(c, s) && x < c.w && x % 4 == 0 && 2 <= k < c.h / s && k % 2 == 0
    modifies c.mem
    ensures BlockTaken(old(c.Snapshot()), c.Snapshot(), c.h, c.w, s, k, x)
  {
    hide c.Valid, c.Snapshot, Evens, Odds, Loaded, EvenOf, OddOf, BlockTaken, RowWritten;
    ghost var was := c.Snapshot();
    RowsInside(c, s, k);
    var y := k * s;
    var xm2 := LoadAt(c, y - 2 * s, x);
    var dm1 := LoadAt(c, y - s, x);
    var d := LoadAt(c, y, x);
    var dp1 := LoadAt(c, y + s, x);
    var even := Evens(d, dm1, dp1);
    var odd := Odds(dm1, xm2, even);
    StoreAt(c, s, y - s, x, odd, dm1);
    ghost var mid := c.Snapshot();
    StillLoaded(was, mid, c.h, c.w, s, y - s, y, x, odd, d);
    StoreAt(c, s, y, x, even, d);
    forall j: nat | j < c.w && WrittenAt(s, x, j)
      ensures NumberAt(even, x, j) == EvenOf(was, c.h, c.w, s, k, j)
      ensures NumberAt(odd, x, j) == OddOf(was, c.h, c.w, s, k, j, NumberAt(even, x, j))
    {
      EvenLane(was, c.h, c.w, s, k, x, j, d, dm1, dp1);
      OddLane(was, c.h, c.w, s, k, x, j, dm1, xm2, even);
    }
    TwoRows(was, mid, c.Snapshot(), c.h, c.w, s, k, x, even, odd);
  }

  lemma StillLoaded(was: Plane, mid: Plane, h: nat, w: nat, s: nat, y: nat, z: nat, x: nat, v: V4, d: V4)
    requires Rect(was, h, w) && Rect(mid, h, w) && y != z && z < h
    requires RowWritten(was, mid, h, w, s, y, x, v) && Loaded(d, was, h, w, z, x)
    ensures Loaded(d, mid, h, w, z, x)
  {}

  /** Row number k has rows above it and, unless it is the end, one below it. */
  lemma RowsInside(c: Canvas, s: nat, k: nat)
    requires LevelOk(LeGall53, c.h, c.w, s) && 2 <= k <= c.h / s && k % 2 == 0
    ensures (k - 1) * s == k * s - s && (k - 2) * s == k * s - 2 * s >= 0 && (k + 1) * s == k * s + s
    ensures s > 0 && (k - 1) * s < c.h && (k < c.h / s ==> (k + 1) * s < c.h)
  {
    Around(k, s);
    LatticePoint(s, k - 1, c.h);
    LatticePoint(s, k - 2, c.h);
    if k < c.h / s {
      MoreRows(c.h, s, k);
    }
  }

  lemma MoreRows(h: nat, s: nat, k: nat)
    requires Divides(s, h) && h / s % 2 == 0 && k < h / s && k % 2 == 0
    ensures (k + 1) * s < h
  {
    LatticePoint(s, k + 1, h);
  }

  method LastBlock(c: Canvas, s: nat, k: nat, x: nat)
    requires Shape(c, s) && x < c.w && x % 4 == 0 && 2 <= k == c.h / s && k % 2 == 0
    modifies c.mem
    ensures BlockTaken(old(c.Snapshot()), c.Snapshot(), c.h, c.w, s, k, x)
  {
    hide c.Valid, c.Snapshot, Evens, Odds, Loaded, OddOf, BlockTaken, RowWritten;
    ghost var was := c.Snapshot();
    RowsInside(c, s, k);
    var y := k * s;
    var xm2 := LoadAt(c, y - 2 * s, x);
    var dm1 := LoadAt(c, y - s, x);
    var even := xm2;
    StoreAt(c, s, y - s, x, Odds(dm1, xm2, even), dm1);
    LastRow(was, c.Snapshot(), c.h, c.w, s, k, x, dm1, xm2);
  }

  lemma LastRow(was: Plane, now: Plane, h: nat, w: nat, s: nat, k: nat, x: nat, dm1: V4, xm2: V4)
    requires Rect(was, h, w) && Rect(now, h, w) && LevelOk(LeGall53, h, w, s) && 2 <= k == h / s && k % 2 == 0
    requires 0 <= (k - 1) * s < h && Loaded(dm1, was, h, w, (k - 1) * s, x)
    requires 0 <= (k - 2) * s < h && Loaded(xm2, was, h, w, (k - 2) * s, x)
    requires RowWritten(was, now, h, w, s, (k - 1) * s, x, Odds(dm1, xm2, xm2))
    ensures BlockTaken(was, now, h, w, s, k, x)
  {
    hide Odds, OddOf, LevelOk;
    forall j: nat | j < w && WrittenAt(s, x, j)
      ensures NumberAt(Odds(dm1, xm2, xm2), x, j) == OddOf(was, h, w, s, k, j, EndOf(was, h, w, s, k, j))
    {
      assert x + (j - x) == j;
      OddLane(was, h, w, s, k, x, j, dm1, xm2, xm2);
    }
  }

  // ----- strips of columns

  method TakeBlock(c: Canvas, s: nat, k: nat, x: nat)
    requires Shape(c, s) && x < c.w && x % 4 == 0 && k <= c.h / s && k % 2 == 0
    modifies c.mem
    ensures BlockTaken(old(c.Snapshot()), c.Snapshot(), c.h, c.w, s, k, x)
  {
    if k == 0 {
      FirstBlock(c, s, x);
    } else if k < c.h / s {
      MiddleBlock(c, s, k, x);
    } else {
      LastBlock(c, s, k, x);
    }
  }

  /** How far column j is, when row number k of the strip at x0 has been taken up to column x. */
  function DepthOf(x0: nat, x: nat, k: nat, n: nat, j: nat): nat {
    if j < x0 then n else if j < x then After(k, n) else if j < x0 + 1024 then Before(k) else 0
  }

  ghost predicate ColumnIs(now: Plane, p: Plane, h: nat, w: nat, s: nat, j: nat, d: nat)
    requires Rect(now, h, w) && Rect(p, h, w) && LevelOk(LeGall53, h, w, s) && j < w
  {
    if j % s == 0 then ColumnAt(now, p, h, w, s, j, d) else ColumnSame(p, now, h, w, j)
  }

  ghost predicate StripAt(now: Plane, p: Plane, h: nat, w: nat, s: nat, x0: nat, x: nat, k: nat)
    requires Rect(now, h, w) && Rect(p, h, w) && LevelOk(LeGall53, h, w, s)
  {
    forall j: nat :: j < w ==> ColumnIs(now, p, h, w, s, j, DepthOf(x0, x, k, h / s, j))
  }

  lemma OneMultiple(x: nat, s: nat, j: nat)
    requires s > 0 && x % s == 0 && x <= j < x + s
    ensures j % s == 0 <==> j == x
  {
    var q := x / s;
    assert x == q * s;
    DivUnique(j, q, j - x, s);
  }

  /** The block at x writes exactly the lattice's columns there. */
  lemma BlockColumns(s: nat, x: nat, j: nat)
    requires Step(s) && x % Advance(s) == 0
    ensures WrittenAt(s, x, j) <==> x <= j < x + Advance(s) && j % s == 0
  {
    if s >= 4 {
      FewColumns(s, x, j);
    } else if s == 2 {
      EveryOther(x, j);
    }
  }

  lemma EveryOther(x: nat, j: nat)
    requires x % 4 == 0
    ensures WrittenAt(2, x, j) <==> x <= j < x + 4 && j % 2 == 0
  {
    var q := x / 4;
    assert x == 4 * q;
  }

  lemma FewColumns(s: nat, x: nat, j: nat)
    requires s >= 4 && x % s == 0
    ensures WrittenAt(s, x, j) <==> x <= j < x + Advance(s) && j % s == 0
  {
    if x <= j < x + s {
      OneMultiple(x, s, j);
    }
  }

  /** Blocks are made of whole vectors. */
  lemma WholeVectors(s: nat, x: nat)
    requires Step(s) && x % Advance(s) == 0
    ensures x % 4 == 0
  {
    if s > 4 {
      var q := x / s;
      assert x == q * s == q * (s / 4) * 4;
      MultipleDivides(q * (s / 4), 4);
    }
  }

  /** A strip is a whole number of blocks. */
  lemma BlockInStrip(a: nat, x0: nat, x: nat)
    requires Divides(a, 1024) && x0 % 1024 == 0 && x % a == 0
    ensures x0 % a == 0 && (x + a) % a == 0 && (x < x0 + 1024 ==> x + a <= x0 + 1024)
  {
    var m, e, q := 1024 / a, x0 / 1024, x / a;
    ThreeFactors(e, m, a);
    assert x0 == e * m * a && x == q * a;
    hide Divides;
    MultipleDivides(e * m, a);
    Sums(q, a);
    Sums(e * m, a);
    MultipleDivides(q + 1, a);
    assert (e * m + m) * a == x0 + 1024;
    if x < x0 + 1024 {
      SmallerFactor(q, e * m + m, a);
      Monotone(e * m + m, q + 1, a);
    }
  }

  lemma Sums(q: nat, a: nat)
    ensures (q + 1) * a == q * a + a
  {}

  lemma ThreeFactors(e: nat, m: nat, a: nat)
    ensures e * m * a == e * (m * a) && (e * m + m) * a == e * m * a + m * a
  {}

  lemma AdvanceDivides(s: nat)
    requires Step(s)
    ensures Divides(Advance(s), 1024)
  {}

  lemma BlockAdvances(was: Plane, now: Plane, p: Plane, h: nat, w: nat, s: nat, x0: nat, x: nat, k: nat)
    requires Rect(was, h, w) && Rect(now, h, w) && Rect(p, h, w) && LevelOk(LeGall53, h, w, s) && k <= h / s
             && k % 2 == 0
    requires Step(s) && x0 % 1024 == 0 && x0 <= x < x0 + 1024 && x % Advance(s) == 0
    requires StripAt(was, p, h, w, s, x0, x, k) && BlockTaken(was, now, h, w, s, k, x)
    ensures StripAt(now, p, h, w, s, x0, x + Advance(s), k)
  {
    hide ColumnTaken, ColumnAt, WrittenAt, LineOk;
    AdvanceDivides(s);
    BlockInStrip(Advance(s), x0, x);
    hide Advance;
    var next := x + Advance(s);
    forall j: nat | j < w ensures ColumnIs(now, p, h, w, s, j, DepthOf(x0, next, k, h / s, j)) {
      assert ColumnIs(was, p, h, w, s, j, DepthOf(x0, x, k, h / s, j));
      BlockColumns(s, x, j);
      if WrittenAt(s, x, j) {
        ColumnAdvances(was, now, p, h, w, s, j, k);
      } else {
        SameStays(was, now, p, h, w, s, j, DepthOf(x0, x, k, h / s, j));
      }
    }
  }

  lemma SameStays(was: Plane, now: Plane, p: Plane, h: nat, w: nat, s: nat, j: nat, d: nat)
    requires Rect(was, h, w) && Rect(now, h, w) && Rect(p, h, w) && LevelOk(LeGall53, h, w, s) && j < w
    requires ColumnIs(was, p, h, w, s, j, d) && ColumnSame(was, now, h, w, j)
    ensures ColumnIs(now, p, h, w, s, j, d)
  {
    hide VAt, LineOk;
  }

  /** Row number k of a strip. */
  method TakeRow(c: Canvas, s: nat, k: nat, x0: nat, ghost p: Plane)
    requires Shape(c, s) && k <= c.h / s && k % 2 == 0 && x0 % 1024 == 0 && Rect(p, c.h, c.w)
    requires StripAt(c.Snapshot(), p, c.h, c.w, s, x0, x0, k)
    modifies c.mem
    ensures StripAt(c.Snapshot(), p, c.h, c.w, s, x0, x0 + 1024, k)
  {
    hide c.Valid, c.Snapshot, Step, LevelOk, StripAt, BlockTaken, Advance;
    AdvanceDivides(s);
    BlockInStrip(Advance(s), x0, 0);
    var x := x0;
    while x < c.w && x < x0 + 1024
      invariant x0 <= x && x % Advance(s) == 0 && x <= x0 + 1024
      invariant StripAt(c.Snapshot(), p, c.h, c.w, s, x0, x, k)
      decreases x0 + 1024 - x
    {
      BlockInStrip(Advance(s), x0, x);
      WholeVectors(s, x);
      AdvancePositive(s);
      ghost var was := c.Snapshot();
      TakeBlock(c, s, k, x);
      BlockAdvances(was, c.Snapshot(), p, c.h, c.w, s, x0, x, k);
      x := x + Advance(s);
    }
    RestOfStrip(c.Snapshot(), p, c.h, c.w, s, x0, x, k);
  }

  lemma AdvancePositive(s: nat)
    ensures Advance(s) > 0
  {}

  lemma RestOfStrip(now: Plane, p: Plane, h: nat, w: nat, s: nat, x0: nat, x: nat, k: nat)
    requires Rect(now, h, w) && Rect(p, h, w) && LevelOk(LeGall53, h, w, s) && StripAt(now, p, h, w, s, x0, x, k)
    requires x <= x0 + 1024 && (x >= w || x == x0 + 1024)
    ensures StripAt(now, p, h, w, s, x0, x0 + 1024, k)
  {
    hide ColumnIs, LineOk;
    var next := x0 + 1024;
    forall j: nat | j < w ensures ColumnIs(now, p, h, w, s, j, DepthOf(x0, next, k, h / s, j)) {
      assert ColumnIs(now, p, h, w, s, j, DepthOf(x0, x, k, h / s, j));
    }
  }

  /** A row's end is the next row's beginning, and a strip's end the next strip's. */
  lemma NextRow(now: Plane, p: Plane, h: nat, w: nat, s: nat, x0: nat, k: nat)
    requires Rect(now, h, w) && Rect(p, h, w) && LevelOk(LeGall53, h, w, s) && k < h / s && k % 2 == 0
    requires StripAt(now, p, h, w, s, x0, x0 + 1024, k)
    ensures StripAt(now, p, h, w, s, x0, x0, k + 2)
  {
    hide ColumnIs, LineOk;
    var x, k2 := x0 + 1024, k + 2;
    forall j: nat | j < w ensures ColumnIs(now, p, h, w, s, j, DepthOf(x0, x0, k2, h / s, j)) {
      assert ColumnIs(now, p, h, w, s, j, DepthOf(x0, x, k, h / s, j));
    }
  }

  lemma NextStrip(now: Plane, p: Plane, h: nat, w: nat, s: nat, x0: nat)
    requires Rect(now, h, w) && Rect(p, h, w) && LevelOk(LeGall53, h, w, s)
    requires StripAt(now, p, h, w, s, x0, x0 + 1024, h / s)
    ensures StripAt(now, p, h, w, s, x0 + 1024, x0 + 1024, 0)
  {
    hide ColumnIs, LineOk;
    var x := x0 + 1024;
    forall j: nat | j < w ensures ColumnIs(now, p, h, w, s, j, DepthOf(x, x, 0, h / s, j)) {
      assert ColumnIs(now, p, h, w, s, j, DepthOf(x0, x, h / s, h / s, j));
    }
  }

  method TakeStrip(c: Canvas, s: nat, x0: nat, ghost p: Plane)
    requires Shape(c, s) && x0 % 1024 == 0 && Rect(p, c.h, c.w) && StripAt(c.Snapshot(), p, c.h, c.w, s, x0, x0, 0)
    modifies c.mem
    ensures StripAt(c.Snapshot(), p, c.h, c.w, s, x0 + 1024, x0 + 1024, 0)
  {
    hide c.Valid, c.Snapshot, Step, StripAt;
    TakeRow(c, s, 0, x0, p);
    NextRow(c.Snapshot(), p, c.h, c.w, s, x0, 0);
    var k := 2;
    while k < c.h / s
      invariant 2 <= k <= c.h / s && k % 2 == 0
      invariant StripAt(c.Snapshot(), p, c.h, c.w, s, x0, x0, k)
    {
      TakeRow(c, s, k, x0, p);
      NextRow(c.Snapshot(), p, c.h, c.w, s, x0, k);
      k := k + 2;
    }
    TakeRow(c, s, k, x0, p);
    NextStrip(c.Snapshot(), p, c.h, c.w, s, x0);
  }

  /** The vectorised pass leaves what the definition, and so the scalar pass, does. */
  method VInPlaceVectors(c: Canvas, s: nat)
    requires Shape(c, s)
    modifies c.mem
    ensures c.Snapshot() == VPass(LeGall53, Synthesis, old(c.Snapshot()), c.h, c.w, s)
  {
    hide c.Valid, c.Snapshot, Step, StripAt, VPass, LevelOk;
    ghost var p := c.Snapshot();
    NothingTaken(p, c.h, c.w, s);
    var x0 := 0;
    while x0 < c.w
      invariant x0 % 1024 == 0 && StripAt(c.Snapshot(), p, c.h, c.w, s, x0, x0, 0)
    {
      TakeStrip(c, s, x0, p);
      x0 := x0 + 1024;
    }
    AllTaken(c.Snapshot(), p, c.h, c.w, s, x0);
  }

  lemma NothingTaken(p: Plane, h: nat, w: nat, s: nat)
    requires Rect(p, h, w) && LevelOk(LeGall53, h, w, s)
    ensures StripAt(p, p, h, w, s, 0, 0, 0)
  {
    hide VAt, LineOk;
  }

  lemma AllTaken(now: Plane, p: Plane, h: nat, w: nat, s: nat, x0: nat)
    requires Rect(now, h, w) && Rect(p, h, w) && LevelOk(LeGall53, h, w, s) && x0 >= w
    requires StripAt(now, p, h, w, s, x0, x0, 0)
    ensures now == VPass(LeGall53, Synthesis, p, h, w, s)
  {
    hide LineOk, VPass, Line;
    var q := VPass(LeGall53, Synthesis, p, h, w, s);
    forall i: nat, j: nat | i < h && j < w ensures now[i][j] == q[i][j] {
      assert ColumnIs(now, p, h, w, s, j, DepthOf(x0, x0, 0, h / s, j));
      RowNumber(h, s, i);
    }
    SamePlane(now, q, h, w);
  }

  lemma RowNumber(h: nat, s: nat, i: nat)
    requires Divides(s, h) && i < h
    ensures i / s < h / s
  {
    assert i == i / s * s + i % s && h == h / s * s;
    SmallerFactor(i / s, h / s, s);
  }
}
