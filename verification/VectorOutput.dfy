/** The vectorised last pass of a tile: rows eight samples at a time, clipped by a saturating pack and stored in
    the output picture. */
module VectorOutput {
  import opened Lifting
  import opened LiftingLaws
  import opened Lanes
  import opened Planes
  import opened Vectors
  import opened VectorRows
  import Output

  /** Blocks of eight are stored from the first one that begins in the part, or at its left end, to the last one
      that does. */
  function BlocksUp(x: nat): nat {
    (x + 7) / 8 * 8
  }

  /** The part of a row as Output.Slot, taken by whole blocks. */
  predicate Takes(g: Output.Slot, x: int) {
    BlocksUp(g.first) <= x < g.w && x < BlocksUp(g.first + g.n)
  }

  predicate Valid(g: Output.Slot) {
    g.w % 8 == 0 && g.w >= 8 && 0 < g.n && g.first + g.n <= g.w && g.first + 8 <= g.w
  }

  /** The output has a cell for every sample that is stored. */
  predicate Room(g: Output.Slot, length: nat) {
    g.base + BlocksUp(g.first + g.n) - g.first <= length
  }

  /** Shifted to the top of sixteen bits, packed with saturation, and shifted back. */
  function Clipped(bits: nat, v: int): int
    requires 0 < bits <= 16
  {
    Packed(Wrapped((v + Pow2(bits - 1)) * Pow2(16 - bits))) / Pow2(16 - bits)
  }

  /** The shift keeps every sample of the row in 32 bits. */
  ghost predicate InRange(bits: nat, t: seq<int>)
    requires 0 < bits <= 16
  {
    forall x :: 0 <= x < |t| ==>
      -0x8000_0000 <= (Half(LeGall53, t[x]) + Pow2(bits - 1)) * Pow2(16 - bits) < 0x8000_0000
  }

  lemma ClippedIsShown(bits: nat, v: int)
    requires 0 < bits <= 16 && -0x8000_0000 <= (v + Pow2(bits - 1)) * Pow2(16 - bits) < 0x8000_0000
    ensures Clipped(bits, v) == Output.Shown(bits, v)
  {
    hide Wrapped, Packed, Pow2;
    ShiftedClip(bits, v + Pow2(bits - 1));
  }

  /** Blocks before sample d are in the output, and nothing else has changed. */
  ghost predicate ShownUpTo(now: seq<int>, before: seq<int>, g: Output.Slot, bits: nat, t: seq<int>, d: int)
    requires bits > 0 && g.w <= |t|
  {
    && |now| == |before|
    && forall i :: 0 <= i < |now| ==> now[i] == ShownAt(before[i], g, bits, t, d, i - g.base + g.first)
  }

  /** The samples of the blocks that begin in the part are held as Output.Holds says, and the rest is as it was. */
  ghost predicate RowHeld(now: seq<int>, before: seq<int>, g: Output.Slot, bits: nat, c: seq<int>, t: seq<int>)
    requires bits > 0 && LineOk(LeGall53, |c|) && g.w <= |c|
  {
    && Lifted(LeGall53, c, t) && |now| == |before|
    && forall i :: 0 <= i < |now| ==>
         var x := i - g.base + g.first;
         if Takes(g, x) then Output.HoldsHalf(bits, now[i], t[x]) else now[i] == before[i]
  }

  lemma RowIsHeld(now: seq<int>, before: seq<int>, g: Output.Slot, bits: nat, c: seq<int>)
    requires bits > 0 && LineOk(LeGall53, |c|) && g.w == |c|
    requires ShownUpTo(now, before, g, bits, Synth(LeGall53, c), g.w)
    ensures RowHeld(now, before, g, bits, c, Synth(LeGall53, c))
  {
    hide Synth, Output.Shown, Output.HoldsHalf, Half, Lifted, BlocksUp;
    SynthesisExactly(LeGall53, c, Synth(LeGall53, c));
    forall x: int ensures Output.HoldsHalf(bits, Output.Shown(bits, Half(LeGall53, x)), x) {
      Output.ShownIsHeld(bits, x);
    }
  }

  function ShownAt(was: int, g: Output.Slot, bits: nat, t: seq<int>, d: int, x: int): int
    requires bits > 0 && g.w <= |t|
  {
    if Takes(g, x) && x < d then Output.Shown(bits, Half(LeGall53, t[x])) else was
  }

  /** When part and row are aligned to blocks, the scalar pass and this one store the same samples. */
  lemma SameAsScalar(g: Output.Slot, x: int)
    requires Valid(g) && g.first % 8 == 0 && (g.first + g.n) % 8 == 0
    ensures Takes(g, x) <==> g.Takes(x)
    ensures BlocksUp(g.first + g.n) == g.first + g.n
  {
    Aligned(g.first);
    Aligned(g.first + g.n);
    EightApart(g.first + g.n, g.w);
    EightApart(g.first, g.first + g.n);
    hide BlocksUp;
  }

  lemma EightApart(a: nat, b: nat)
    requires a <= b && b % 8 == 0
    ensures a % 8 == 0 ==> (b - a) % 8 == 0 && (a == b || a + 8 <= b)
    ensures (b - a) % 8 == 0 ==> a % 8 == 0
  {
    var q := b / 8;
    assert b == 8 * q;
  }

  lemma Aligned(x: nat)
    ensures x % 8 == 0 <==> BlocksUp(x) == x
    ensures x <= BlocksUp(x) < x + 8 && BlocksUp(x) % 8 == 0
  {}

  /** The clip, lane by lane. */
  function Clip4(bits: nat, v: V4): V4
    requires 0 < bits <= 16
  {
    V4(Clipped(bits, v.a), Clipped(bits, v.b), Clipped(bits, v.c), Clipped(bits, v.d))
  }

  /** The clipped, halved samples of a block. */
  lemma BlockValues(bits: nat, t: seq<int>, k: nat, e: V4, o: V4, j: nat)
    requires 0 < bits <= 16 && InRange(bits, t) && EvensAt(e, t, k) && OddsAt(o, t, k) && j < 8
    ensures (if j < 4 then Clip4(bits, Halves(e.UnpackLow(o))).Get(j)
             else Clip4(bits, Halves(e.UnpackHigh(o))).Get(j - 4))
         == Output.Shown(bits, Half(LeGall53, t[k + j]))
  {
    hide Clipped, Output.Shown;
    ClippedIsShown(bits, Half(LeGall53, t[k + j]));
    HalvedBlock(t, k, e, o, j);
  }

  lemma HalvedBlock(t: seq<int>, k: nat, e: V4, o: V4, j: nat)
    requires EvensAt(e, t, k) && OddsAt(o, t, k) && j < 8
    ensures (if j < 4 then Halves(e.UnpackLow(o)).Get(j) else Halves(e.UnpackHigh(o)).Get(j - 4))
            == Half(LeGall53, t[k + j])
  {
  }

  method StoreBlock(out: array<int>, g: Output.Slot, bits: nat, ghost before: seq<int>, ghost t: seq<int>,
                    k: nat, e: V4, o: V4)
    requires Valid(g) && 0 < bits <= 16 && |t| == g.w && InRange(bits, t) && Room(g, out.Length)
    requires k % 8 == 0 && BlocksUp(g.first) <= k < g.first + g.n && EvensAt(e, t, k) && OddsAt(o, t, k)
    requires ShownUpTo(out[..], before, g, bits, t, k)
    modifies out
    ensures ShownUpTo(out[..], before, g, bits, t, k + 8)
  {
    hide Clip4, Halves, Output.Shown, InRange, EvensAt, OddsAt, V4.Get;
    WholeBlock(g, k);
    var at := g.base + k - g.first;
    ghost var was := out[..];
    var low, high := Clip4(bits, Halves(e.UnpackLow(o))), Clip4(bits, Halves(e.UnpackHigh(o)));
    StoreVector(out, at, low);
    StoreVector(out, at + 4, high);
    forall i | 0 <= i < out.Length
      ensures out[i] == ShownAt(before[i], g, bits, t, k + 8, i - g.base + g.first)
    {
      assert was[i] == ShownAt(before[i], g, bits, t, k, i - g.base + g.first);
      if at <= i < at + 8 {
        BlockValues(bits, t, k, e, o, i - at);
      }
    }
  }

  /** A block that begins in the part, aligned, is stored whole. */
  lemma WholeBlock(g: Output.Slot, k: nat)
    requires Valid(g) && k % 8 == 0 && BlocksUp(g.first) <= k < g.first + g.n
    ensures g.first <= k && k + 8 <= BlocksUp(g.first + g.n) && k + 8 <= g.w
    ensures forall x :: k <= x < k + 8 ==> Takes(g, x)
  {}

  lemma NothingShown(before: seq<int>, g: Output.Slot, bits: nat, t: seq<int>, k: nat)
    requires bits > 0 && g.w <= |t| && k <= BlocksUp(g.first)
    ensures ShownUpTo(before, before, g, bits, t, k)
  {}

  lemma NothingMore(now: seq<int>, before: seq<int>, g: Output.Slot, bits: nat, t: seq<int>, k: nat)
    requires bits > 0 && g.w <= |t| && ShownUpTo(now, before, g, bits, t, k) && BlocksUp(g.first + g.n) <= k
    ensures ShownUpTo(now, before, g, bits, t, g.w)
  {
    hide Output.Shown, BlocksUp;
  }

  /** The next eight samples are loaded, and those at hand are complete. */
  method NextBlock(l: Lane, k: nat, ze0: V4, o1: V4) returns (ze8: V4, o9: V4, zo1: V4)
    requires Dense(l) && k % 2 == 0 && k + 16 <= l.n
    requires OddsAt(o1, l.Contents(), k) && EvensAt(ze0, Synth(LeGall53, l.Contents()), k)
    ensures OddsAt(o9, l.Contents(), k + 8) && EvensAt(ze8, Synth(LeGall53, l.Contents()), k + 8)
    ensures OddsAt(zo1, Synth(LeGall53, l.Contents()), k)
  {
    hide Synth, l.On, l.Addr, l.Get, EvensAt, OddsAt, NextEvens, TheseOdds, LineOk;
    var e8;
    e8, o9 := LoadEight(l, k + 8);
    EightMore(l.Contents(), k, o1, ze0, e8, o9);
    ze8 := NextEvens(o1, e8, o9);
    zo1 := TheseOdds(o1, ze0, ze8);
  }

  /** The pass over one row. */
  method FinalRow(l: Lane, out: array<int>, g: Output.Slot, bits: nat)
    requires Dense(l) && Valid(g) && l.n == g.w && 0 < bits <= 16 && Room(g, out.Length) && out != l.mem
    requires InRange(bits, Synth(LeGall53, l.Contents()))
    modifies out
    ensures ShownUpTo(out[..], old(out[..]), g, bits, Synth(LeGall53, l.Contents()), g.w)
    ensures exists t :: RowHeld(out[..], old(out[..]), g, bits, l.Contents(), t)
  {
    hide Synth, InRange, ShownUpTo, RowHeld, EvensAt, OddsAt, LastOdds, BlocksUp, l.Valid, l.Addr, l.Get, LineOk;
    ghost var c0 := l.Contents();
    ghost var before := out[..];
    var k := 0;
    var e0, o1 := LoadEight(l, 0);
    var ze0 := RowStart(l, c0, e0, o1);
    var zo1;
    while k < g.first
      invariant k % 8 == 0 && k <= l.n - 8 && k <= BlocksUp(g.first)
      invariant OddsAt(o1, c0, k) && EvensAt(ze0, Synth(LeGall53, c0), k) && out[..] == before
    {
      BlockBefore(g, k);
      WholeEights(k, l.n);
      ze0, o1, zo1 := NextBlock(l, k, ze0, o1);
      k := k + 8;
    }
    Reached(g, k);
    NothingShown(before, g, bits, Synth(LeGall53, c0), k);
    while k < g.w - 8 && k < g.first + g.n
      invariant k % 8 == 0 && k <= l.n - 8 && BlocksUp(g.first) <= k <= BlocksUp(g.first + g.n)
      invariant OddsAt(o1, c0, k) && EvensAt(ze0, Synth(LeGall53, c0), k)
      invariant ShownUpTo(out[..], before, g, bits, Synth(LeGall53, c0), k)
    {
      WholeBlock(g, k);
      WholeEights(k, l.n);
      var ze8, o9;
      ze8, o9, zo1 := NextBlock(l, k, ze0, o1);
      StoreBlock(out, g, bits, before, Synth(LeGall53, c0), k, ze0, zo1);
      ze0, o1, k := ze8, o9, k + 8;
    }
    if k < g.first + g.n {
      WholeEights(k, l.n);
      LastEight(c0, k, o1, ze0);
      StoreBlock(out, g, bits, before, Synth(LeGall53, c0), k, ze0, LastOdds(o1, ze0));
      k := k + 8;
    }
    PastThePart(g, k);
    NothingMore(out[..], before, g, bits, Synth(LeGall53, c0), k);
    RowIsHeld(out[..], before, g, bits, c0);
  }

  lemma BlockBefore(g: Output.Slot, k: nat)
    requires Valid(g) && k % 8 == 0 && k < g.first
    ensures k < g.w - 8 && k + 8 <= BlocksUp(g.first)
  {}

  lemma Reached(g: Output.Slot, k: nat)
    requires Valid(g) && k % 8 == 0 && g.first <= k <= BlocksUp(g.first)
    ensures k == BlocksUp(g.first) <= BlocksUp(g.first + g.n)
  {}

  lemma PastThePart(g: Output.Slot, k: nat)
    requires Valid(g) && k % 8 == 0 && g.first + g.n <= k
    ensures BlocksUp(g.first + g.n) <= k
  {}

  /** A sample that one pass stores and the other does not. */
  lemma StoredByOne(g: Output.Slot) returns (x: nat)
    requires Valid(g) && !(g.first % 8 == 0 && (g.first + g.n) % 8 == 0)
    ensures g.first <= x < g.w && (Takes(g, x) <==> !g.Takes(x))
    ensures x == if g.first % 8 != 0 then g.first else g.first + g.n
  {
    Aligned(g.first);
    Aligned(g.first + g.n);
    hide BlocksUp;
    x := if g.first % 8 != 0 then g.first else g.first + g.n;
  }

  /** The two passes store the same samples exactly when the part begins and ends at multiples of eight. */
  lemma SameSamplesExactly(g: Output.Slot)
    requires Valid(g)
    ensures (forall x: int :: Takes(g, x) <==> g.Takes(x)) <==> g.first % 8 == 0 && (g.first + g.n) % 8 == 0
  {
    hide Takes, Output.Slot.Takes;
    if g.first % 8 == 0 && (g.first + g.n) % 8 == 0 {
      forall x: int ensures Takes(g, x) <==> g.Takes(x) {
        SameAsScalar(g, x);
      }
    } else {
      var x := StoredByOne(g);
    }
  }

  /** The output that the pass leaves of a row. */
  function RowOutput(before: seq<int>, g: Output.Slot, bits: nat, t: seq<int>): (now: seq<int>)
    requires bits > 0 && g.w <= |t|
    ensures ShownUpTo(now, before, g, bits, t, g.w)
  {
    seq(|before|, i requires 0 <= i < |before| => ShownAt(before[i], g, bits, t, g.w, i - g.base + g.first))
  }

  /** Every row leaves the same output under both passes. */
  ghost predicate SameRows(g: Output.Slot, bits: nat)
    requires bits > 0
  {
    forall now: seq<int>, before: seq<int>, t: seq<int> :: |t| == g.w ==>
      (ShownUpTo(now, before, g, bits, t, g.w) <==> Output.ShownUpTo(now, before, g, bits, t, g.w))
  }

  /** They leave the same output of every row exactly when the part begins and ends at multiples of eight. */
  lemma FinalRowIsScalar(g: Output.Slot, bits: nat)
    requires Valid(g) && bits > 0
    ensures SameRows(g, bits) <==> g.first % 8 == 0 && (g.first + g.n) % 8 == 0
  {
    hide Output.Shown, Valid, ShownUpTo, Output.ShownUpTo;
    if g.first % 8 == 0 && (g.first + g.n) % 8 == 0 {
      forall now: seq<int>, before: seq<int>, t: seq<int> | |t| == g.w
        ensures ShownUpTo(now, before, g, bits, t, g.w) <==> Output.ShownUpTo(now, before, g, bits, t, g.w)
      {
        SameOutput(now, before, g, bits, t);
      }
    } else {
      OtherOutput(g, bits);
    }
  }

  lemma SameOutput(now: seq<int>, before: seq<int>, g: Output.Slot, bits: nat, t: seq<int>)
    requires Valid(g) && g.first % 8 == 0 && (g.first + g.n) % 8 == 0 && bits > 0 && |t| == g.w
    ensures ShownUpTo(now, before, g, bits, t, g.w) <==> Output.ShownUpTo(now, before, g, bits, t, g.w)
  {
    SameSamplesExactly(g);
    hide Takes, Output.Slot.Takes, Output.Shown;
  }

  /** On an output that holds what no sample shows as, the sample that only one of them stores tells them apart. */
  lemma OtherOutput(g: Output.Slot, bits: nat)
    requires Valid(g) && !(g.first % 8 == 0 && (g.first + g.n) % 8 == 0) && bits > 0
    ensures !SameRows(g, bits)
  {
    var x := StoredByOne(g);
    hide Takes, Output.Slot.Takes;
    var t, before := seq(g.w, k => 0), seq(g.base + g.w, k => -1);
    var now := RowOutput(before, g, bits, t);
    assert now[g.base + x - g.first] == ShownAt(-1, g, bits, t, g.w, x);
    assert Output.ShownUpTo(now, before, g, bits, t, g.w) ==>
      now[g.base + x - g.first] == Output.ShownAt(-1, g, bits, t, g.w, x);
  }
}
