/** The vectorised 5/3 synthesis of a row, eight samples at a time. */
module VectorRows {
  import opened Lifting
  import opened Lanes
  import opened LeGallKernels
  import opened Planes
  import opened Vectors

  /** Even and odd samples k, k + 1, ... of a line. */
  ghost predicate EvensAt(v: V4, s: seq<int>, k: nat) {
    k + 6 < |s| && v == V4(s[k], s[k + 2], s[k + 4], s[k + 6])
  }

  ghost predicate OddsAt(v: V4, s: seq<int>, k: nat) {
    k + 7 < |s| && v == V4(s[k + 1], s[k + 3], s[k + 5], s[k + 7])
  }

  lemma EvensSynth(s: seq<int>, k: nat, e: V4, o: V4, before: V4)
    requires LineOk(LeGall53, |s|) && k % 2 == 0 && (k == 0 || k >= 8) && EvensAt(e, s, k) && OddsAt(o, s, k)
    requires if k == 0 then before == o.FirstTwice() else OddsAt(before, s, k - 8)
    ensures EvensAt(Evens(e, o, if k == 0 then before else o.After(before)), Synth(LeGall53, s), k)
  {
    hide Synth;
    EvenSample(s, k);
    EvenSample(s, k + 2);
    EvenSample(s, k + 4);
    EvenSample(s, k + 6);
  }

  /** An odd sample by the value of the even one after it. */
  lemma OddBefore(s: seq<int>, j: nat, next: int)
    requires LineOk(LeGall53, |s|) && j < |s| && j % 2 == 1
    requires next == if j + 1 == |s| then Synth(LeGall53, s)[j - 1] else Synth(LeGall53, s)[j + 1]
    ensures Synth(LeGall53, s)[j] == s[j] + (Synth(LeGall53, s)[j - 1] + next + 1) / 2
  {
    hide Synth;
    OddSample(s, j);
  }

  lemma FirstOdds(s: seq<int>, k: nat, o: V4, e: V4)
    requires LineOk(LeGall53, |s|) && k % 2 == 0 && OddsAt(o, s, k) && EvensAt(e, Synth(LeGall53, s), k)
    ensures Synth(LeGall53, s)[k + 1] == o.a + (e.a + e.b + 1) / 2
    ensures Synth(LeGall53, s)[k + 3] == o.b + (e.b + e.c + 1) / 2
    ensures Synth(LeGall53, s)[k + 5] == o.c + (e.c + e.d + 1) / 2
  {
    hide Synth, LineOk;
    OddBefore(s, k + 1, e.b);
    OddBefore(s, k + 3, e.c);
    OddBefore(s, k + 5, e.d);
  }

  /** The vector after this one, shifted by one sample, or the end sample twice. */
  function Shifted(last: bool, e: V4, next: V4): V4 {
    if last then next else next.Joined(e)
  }

  lemma LastOdd(s: seq<int>, k: nat, o: V4, e: V4, next: V4)
    requires LineOk(LeGall53, |s|) && k % 2 == 0 && OddsAt(o, s, k) && EvensAt(e, Synth(LeGall53, s), k)
    requires if k + 8 == |s| then next == e.LastTwice() else EvensAt(next, Synth(LeGall53, s), k + 8)
    ensures Synth(LeGall53, s)[k + 7] == o.d + (e.d + Shifted(k + 8 == |s|, e, next).d + 1) / 2
    ensures var n := Shifted(k + 8 == |s|, e, next); n.a == e.b && n.b == e.c && n.c == e.d
  {
    hide Synth, LineOk;
    OddBefore(s, k + 7, Shifted(k + 8 == |s|, e, next).d);
  }

  lemma OddsSynth(s: seq<int>, k: nat, o: V4, e: V4, next: V4)
    requires LineOk(LeGall53, |s|) && k % 2 == 0 && OddsAt(o, s, k) && EvensAt(e, Synth(LeGall53, s), k)
    requires if k + 8 == |s| then next == e.LastTwice() else EvensAt(next, Synth(LeGall53, s), k + 8)
    ensures OddsAt(Odds(o, e, Shifted(k + 8 == |s|, e, next)), Synth(LeGall53, s), k)
  {
    hide Synth, LineOk, Shifted, Odds, EvensAt;
    FirstOdds(s, k, o, e);
    LastOdd(s, k, o, e, next);
    OddsAre(o, e, Shifted(k + 8 == |s|, e, next));
  }

  lemma OddsAre(o: V4, e: V4, n: V4)
    ensures Odds(o, e, n) == V4(o.a + (e.a + n.a + 1) / 2, o.b + (e.b + n.b + 1) / 2,
                                o.c + (e.c + n.c + 1) / 2, o.d + (e.d + n.d + 1) / 2)
  {}

  /** Rows of the finest level: the samples lie side by side. */
  predicate Dense(l: Lane) {
    l.Valid() && l.step == 1 && LineOk(LeGall53, l.n) && l.n >= 8 && l.n % 8 == 0
  }

  /** Loads eight samples and sorts them into even and odd ones. */
  method LoadEight(l: Lane, k: nat) returns (e: V4, o: V4)
    requires Dense(l) && k + 8 <= l.n
    ensures EvensAt(e, l.Contents(), k) && OddsAt(o, l.Contents(), k)
  {
    l.AddrInside(k + 7);
    var d0 := LoadVector(l.mem, l.base + k);
    var d4 := LoadVector(l.mem, l.base + k + 4);
    var x, y := d0.UnpackLow(d4), d0.UnpackHigh(d4);
    e, o := x.UnpackLow(y), x.UnpackHigh(y);
  }

  /** A line with four of its samples replaced. */
  ghost predicate FourStored(now: seq<int>, was: seq<int>, k: nat, w: V4) {
    |now| == |was| && forall j: nat :: j < |was| ==> now[j] == if k <= j < k + 4 then w.Get(j - k) else was[j]
  }

  /** Eight samples, halved and back in order, are eight more done. */
  lemma EightStored(c0: seq<int>, was: seq<int>, mid: seq<int>, now: seq<int>, k: nat, e: V4, o: V4)
    requires LineOk(LeGall53, |c0|) && k + 8 <= |c0| && DoneUpTo(LeGall53, true, was, c0, k)
    requires EvensAt(e, Synth(LeGall53, c0), k) && OddsAt(o, Synth(LeGall53, c0), k)
    requires FourStored(mid, was, k, Halves(e.UnpackLow(o))) && FourStored(now, mid, k + 4, Halves(e.UnpackHigh(o)))
    ensures DoneUpTo(LeGall53, true, now, c0, k + 8)
  {
    hide Synth;
  }

  method StoreFour(l: Lane, k: nat, w: V4)
    requires Dense(l) && k + 4 <= l.n
    modifies l.mem
    ensures FourStored(l.Contents(), old(l.Contents()), k, w)
    ensures forall i :: 0 <= i < l.mem.Length && !l.On(i) ==> l.mem[i] == old(l.mem[i])
  {
    l.AddrInside(k + 3);
    StoreVector(l.mem, l.base + k, w);
    forall j: nat | j < l.n ensures l.Get(j) == if k <= j < k + 4 then w.Get(j - k) else old(l.Get(j)) {
      l.AddrInside(j);
    }
    forall i: nat | l.base + k <= i < l.base + k + 4 ensures l.On(i) {
      assert l.Addr(i - l.base) == i;
    }
  }

  method StoreEight(l: Lane, ghost c0: seq<int>, k: nat, e: V4, o: V4)
    requires Dense(l) && k + 8 <= l.n && |c0| == l.n && DoneUpTo(LeGall53, true, l.Contents(), c0, k)
    requires EvensAt(e, Synth(LeGall53, c0), k) && OddsAt(o, Synth(LeGall53, c0), k)
    modifies l.mem
    ensures DoneUpTo(LeGall53, true, l.Contents(), c0, k + 8)
    ensures forall i :: 0 <= i < l.mem.Length && !l.On(i) ==> l.mem[i] == old(l.mem[i])
  {
    hide Synth, Halves, DoneUpTo, FourStored, EvensAt, OddsAt, LineOk, l.Valid, l.On, l.Addr, l.Get;
    ghost var was := l.Contents();
    StoreFour(l, k, Halves(e.UnpackLow(o)));
    ghost var mid := l.Contents();
    StoreFour(l, k + 4, Halves(e.UnpackHigh(o)));
    EightStored(c0, was, mid, l.Contents(), k, e, o);
  }

  /** What is loaded ahead of the stores is the line as it was. */
  lemma StillThere(c0: seq<int>, now: seq<int>, k: nat, e: V4, o: V4)
    requires LineOk(LeGall53, |c0|) && DoneUpTo(LeGall53, true, now, c0, k)
    requires EvensAt(e, now, k + 8) && OddsAt(o, now, k + 8)
    ensures EvensAt(e, c0, k + 8) && OddsAt(o, c0, k + 8)
  {}

  /** The even samples of the next eight, and then the odd samples of these. */
  function NextEvens(o1: V4, e8: V4, o9: V4): V4 {
    Evens(e8, o9, o9.After(o1))
  }

  function TheseOdds(o1: V4, ze0: V4, ze8: V4): V4 {
    Odds(o1, ze0, ze8.Joined(ze0))
  }

  function LastOdds(o1: V4, ze0: V4): V4 {
    Odds(o1, ze0, ze0.LastTwice())
  }

  lemma EightMore(c0: seq<int>, k: nat, o1: V4, ze0: V4, e8: V4, o9: V4)
    requires LineOk(LeGall53, |c0|) && k % 2 == 0 && k + 8 < |c0|
    requires OddsAt(o1, c0, k) && EvensAt(ze0, Synth(LeGall53, c0), k) && EvensAt(e8, c0, k + 8)
             && OddsAt(o9, c0, k + 8)
    ensures EvensAt(NextEvens(o1, e8, o9), Synth(LeGall53, c0), k + 8)
    ensures OddsAt(TheseOdds(o1, ze0, NextEvens(o1, e8, o9)), Synth(LeGall53, c0), k)
  {
    hide Synth, OddsAt, EvensAt, Evens, Odds;
    EvensSynth(c0, k + 8, e8, o9, o1);
    OddsSynth(c0, k, o1, ze0, NextEvens(o1, e8, o9));
  }

  lemma LastEight(c0: seq<int>, k: nat, o1: V4, ze0: V4)
    requires LineOk(LeGall53, |c0|) && k % 2 == 0 && k + 8 == |c0|
    requires OddsAt(o1, c0, k) && EvensAt(ze0, Synth(LeGall53, c0), k)
    ensures OddsAt(LastOdds(o1, ze0), Synth(LeGall53, c0), k)
  {
    OddsSynth(c0, k, o1, ze0, ze0.LastTwice());
  }

  lemma FirstEight(c0: seq<int>, e0: V4, o1: V4)
    requires LineOk(LeGall53, |c0|) && EvensAt(e0, c0, 0) && OddsAt(o1, c0, 0)
    ensures EvensAt(Evens(e0, o1, o1.FirstTwice()), Synth(LeGall53, c0), 0)
  {
    EvensSynth(c0, 0, e0, o1, o1.FirstTwice());
  }

  /** Loads the next eight samples and stores these. */
  method EightOn(l: Lane, ghost c0: seq<int>, k: nat, ze0: V4, o1: V4) returns (ze8: V4, o9: V4)
    requires Dense(l) && k % 2 == 0 && k + 16 <= l.n && |c0| == l.n && DoneUpTo(LeGall53, true, l.Contents(), c0, k)
    requires OddsAt(o1, c0, k) && EvensAt(ze0, Synth(LeGall53, c0), k)
    modifies l.mem
    ensures OddsAt(o9, c0, k + 8) && EvensAt(ze8, Synth(LeGall53, c0), k + 8)
    ensures DoneUpTo(LeGall53, true, l.Contents(), c0, k + 8)
    ensures forall i :: 0 <= i < l.mem.Length && !l.On(i) ==> l.mem[i] == old(l.mem[i])
  {
    hide Synth, l.On, l.Addr, l.Get, DoneUpTo, EvensAt, OddsAt, NextEvens, TheseOdds;
    var e8;
    e8, o9 := LoadEight(l, k + 8);
    StillThere(c0, l.Contents(), k, e8, o9);
    EightMore(c0, k, o1, ze0, e8, o9);
    ze8 := NextEvens(o1, e8, o9);
    StoreEight(l, c0, k, ze0, TheseOdds(o1, ze0, ze8));
  }

  /** The first even samples of a row. */
  method RowStart(l: Lane, ghost c0: seq<int>, e0: V4, o1: V4) returns (ze0: V4)
    requires l.Valid() && LineOk(LeGall53, l.n) && c0 == l.Contents() && EvensAt(e0, c0, 0) && OddsAt(o1, c0, 0)
    ensures EvensAt(ze0, Synth(LeGall53, c0), 0) && DoneUpTo(LeGall53, true, l.Contents(), c0, 0)
  {
    hide Synth, Evens;
    Untouched(LeGall53, true, c0);
    FirstEight(c0, e0, o1);
    ze0 := Evens(e0, o1, o1.FirstTwice());
  }

  /** Skip 1: a row of a multiple of eight samples. */
  method SynthRow1(l: Lane)
    requires Dense(l)
    modifies l.mem
    ensures l.Contents() == Pass(LeGall53, true, old(l.Contents()))
    ensures forall i :: 0 <= i < l.mem.Length && !l.On(i) ==> l.mem[i] == old(l.mem[i])
  {
    hide Synth, Pass, l.On, l.Addr, l.Get, l.Valid, LineOk, DoneUpTo, EvensAt, OddsAt, LastOdds;
    ghost var c0 := l.Contents();
    var k := 0;
    var e0, o1 := LoadEight(l, 0);
    var ze0 := RowStart(l, c0, e0, o1);
    while k < l.n - 8
      invariant k % 8 == 0 && k <= l.n - 8
      invariant OddsAt(o1, c0, k) && EvensAt(ze0, Synth(LeGall53, c0), k)
      invariant DoneUpTo(LeGall53, true, l.Contents(), c0, k)
      invariant forall i :: 0 <= i < l.mem.Length && !l.On(i) ==> l.mem[i] == old(l.mem[i])
    {
      WholeEights(k, l.n);
      ze0, o1 := EightOn(l, c0, k, ze0, o1);
      k := k + 8;
    }
    WholeEights(k, l.n);
    LastEight(c0, k, o1, ze0);
    StoreEight(l, c0, k, ze0, LastOdds(o1, ze0));
    AllDone(LeGall53, true, l.Contents(), c0);
  }

  lemma WholeEights(k: nat, n: nat)
    requires k % 8 == 0 && n % 8 == 0 && k <= n - 8
    ensures k % 2 == 0 && (k + 8) % 8 == 0 && (k < n - 8 ==> k + 16 <= n) && LineOk(LeGall53, n)
  {
    var i, j := k / 8, n / 8;
    assert k == 4 * i * 2 && n == 4 * j * 2;
    MultipleDivides(4 * i, 2);
    MultipleDivides(4 * j, 2);
  }

  // ----- skip 2: other samples lie between

  predicate Spaced(l: Lane) {
    l.Valid() && l.step == 2 && LineOk(LeGall53, l.n) && l.n >= 8 && l.n % 8 == 0 && l.base + 2 * l.n <= l.mem.Length
  }

  /** The four cells between even and odd samples, from lattice sample k on. */
  predicate Between(x: V4, l: Lane, k: nat)
    requires Spaced(l) && k + 4 <= l.n
    reads l.mem
  {
    var at := l.base + 2 * k;
    x == V4(l.mem[at + 1], l.mem[at + 3], l.mem[at + 5], l.mem[at + 7])
  }

  lemma SpacedCell(l: Lane, j: nat)
    requires Spaced(l) && j < l.n
    ensures l.Addr(j) == l.base + 2 * j < l.mem.Length
  {}

  /** Loads sixteen cells and sorts them into even samples, odd ones, and what lies between. */
  method LoadSixteen(l: Lane, k: nat) returns (e: V4, o: V4, x0: V4, x4: V4)
    requires Spaced(l) && k + 8 <= l.n
    ensures EvensAt(e, l.Contents(), k) && OddsAt(o, l.Contents(), k)
    ensures Between(x0, l, k) && Between(x4, l, k + 4)
  {
    var at := l.base + 2 * k;
    var d0 := LoadVector(l.mem, at);
    var d4 := LoadVector(l.mem, at + 4);
    var d8 := LoadVector(l.mem, at + 8);
    var d12 := LoadVector(l.mem, at + 12);
    var a, b := d0.UnpackLow(d4), d0.UnpackHigh(d4);
    var c, d := d8.UnpackLow(d12), d8.UnpackHigh(d12);
    e, o := a.UnpackLowPair(c), b.UnpackLowPair(d);
    x0, x4 := a.UnpackHigh(b), c.UnpackHigh(d);
  }

  /** Stores four samples with what lies between them. */
  method StoreSpaced(l: Lane, k: nat, w: V4, x: V4)
    requires Spaced(l) && k + 4 <= l.n && Between(x, l, k)
    modifies l.mem
    ensures FourStored(l.Contents(), old(l.Contents()), k, w)
    ensures forall i :: 0 <= i < l.mem.Length && !l.On(i) ==> l.mem[i] == old(l.mem[i])
  {
    var at := l.base + 2 * k;
    StoreVector(l.mem, at, w.UnpackLow(x));
    StoreVector(l.mem, at + 4, w.UnpackHigh(x));
    forall j: nat | j < l.n ensures l.Get(j) == if k <= j < k + 4 then w.Get(j - k) else old(l.Get(j)) {
      SpacedCell(l, j);
    }
    forall i: nat | i < l.mem.Length && !l.On(i) ensures l.mem[i] == old(l.mem[i]) {
      OffSpaced(l, k, i);
    }
  }

  lemma OffSpaced(l: Lane, k: nat, i: nat)
    requires Spaced(l) && k + 4 <= l.n && !l.On(i)
    ensures var at := l.base + 2 * k; at <= i < at + 8 ==> i == at + 1 || i == at + 3 || i == at + 5 || i == at + 7
  {
    forall j: nat | k <= j < k + 4 ensures i != l.base + 2 * j {
      assert l.Addr(j) == l.base + 2 * j;
    }
    assert i != l.base + 2 * k && i != l.base + 2 * (k + 1) && i != l.base + 2 * (k + 2) && i != l.base + 2 * (k + 3);
  }

  /** Cells between samples are not on the line. */
  lemma OddCellOff(l: Lane, c: nat)
    requires Spaced(l) && c % 2 == 1
    ensures !l.On(l.base + c)
  {
    forall j: nat | j < l.n ensures l.Addr(j) != l.base + c {
      SpacedCell(l, j);
    }
  }

  lemma BetweenOff(l: Lane, k: nat)
    requires Spaced(l) && k + 4 <= l.n
    ensures var at := l.base + 2 * k;
            at + 7 < l.mem.Length && !l.On(at + 1) && !l.On(at + 3) && !l.On(at + 5) && !l.On(at + 7)
  {
    hide l.On;
    OddCellOff(l, 2 * k + 1);
    OddCellOff(l, 2 * k + 3);
    OddCellOff(l, 2 * k + 5);
    OddCellOff(l, 2 * k + 7);
  }

  method StoreSixteen(l: Lane, ghost c0: seq<int>, k: nat, e: V4, o: V4, x0: V4, x4: V4)
    requires Spaced(l) && k + 8 <= l.n && |c0| == l.n && DoneUpTo(LeGall53, true, l.Contents(), c0, k)
    requires EvensAt(e, Synth(LeGall53, c0), k) && OddsAt(o, Synth(LeGall53, c0), k)
    requires Between(x0, l, k) && Between(x4, l, k + 4)
    modifies l.mem
    ensures DoneUpTo(LeGall53, true, l.Contents(), c0, k + 8)
    ensures forall i :: 0 <= i < l.mem.Length && !l.On(i) ==> l.mem[i] == old(l.mem[i])
  {
    hide Synth, Halves, DoneUpTo, FourStored, EvensAt, OddsAt, LineOk, l.Valid, l.On, l.Addr, l.Get;
    ghost var was := l.Contents();
    BetweenOff(l, k + 4);
    StoreSpaced(l, k, Halves(e.UnpackLow(o)), x0);
    ghost var mid := l.Contents();
    StoreSpaced(l, k + 4, Halves(e.UnpackHigh(o)), x4);
    EightStored(c0, was, mid, l.Contents(), k, e, o);
  }

  /** Loads the next sixteen cells and stores these. */
  method SixteenMore(l: Lane, ghost c0: seq<int>, k: nat, ze0: V4, o1: V4, x0: V4, x4: V4)
    returns (ze8: V4, o9: V4, x8: V4, x12: V4)
    requires Spaced(l) && k % 2 == 0 && k + 16 <= l.n && |c0| == l.n && DoneUpTo(LeGall53, true, l.Contents(), c0, k)
    requires OddsAt(o1, c0, k) && EvensAt(ze0, Synth(LeGall53, c0), k) && Between(x0, l, k) && Between(x4, l, k + 4)
    modifies l.mem
    ensures OddsAt(o9, c0, k + 8) && EvensAt(ze8, Synth(LeGall53, c0), k + 8)
    ensures Between(x8, l, k + 8) && Between(x12, l, k + 12)
    ensures DoneUpTo(LeGall53, true, l.Contents(), c0, k + 8)
    ensures forall i :: 0 <= i < l.mem.Length && !l.On(i) ==> l.mem[i] == old(l.mem[i])
  {
    hide Synth, l.On, l.Addr, l.Get, DoneUpTo, EvensAt, OddsAt, Evens, NextEvens, TheseOdds;
    var e8;
    e8, o9, x8, x12 := LoadSixteen(l, k + 8);
    StillThere(c0, l.Contents(), k, e8, o9);
    EightMore(c0, k, o1, ze0, e8, o9);
    ze8 := NextEvens(o1, e8, o9);
    BetweenOff(l, k + 8);
    BetweenOff(l, k + 12);
    StoreSixteen(l, c0, k, ze0, TheseOdds(o1, ze0, ze8), x0, x4);
  }

  /** Skip 2: a row whose samples alternate with others, which are stored back as they were. */
  method SynthRow2(l: Lane)
    requires Spaced(l)
    modifies l.mem
    ensures l.Contents() == Pass(LeGall53, true, old(l.Contents()))
    ensures forall i :: 0 <= i < l.mem.Length && !l.On(i) ==> l.mem[i] == old(l.mem[i])
  {
    hide Synth, Pass, l.On, l.Addr, l.Get, l.Valid, LineOk, DoneUpTo, EvensAt, OddsAt, LastOdds, Between;
    ghost var c0 := l.Contents();
    var k := 0;
    var e0, o1, x0, x4 := LoadSixteen(l, 0);
    var ze0 := RowStart(l, c0, e0, o1);
    while k < l.n - 8
      invariant k % 8 == 0 && k <= l.n - 8
      invariant OddsAt(o1, c0, k) && EvensAt(ze0, Synth(LeGall53, c0), k)
      invariant Between(x0, l, k) && Between(x4, l, k + 4)
      invariant DoneUpTo(LeGall53, true, l.Contents(), c0, k)
      invariant forall i :: 0 <= i < l.mem.Length && !l.On(i) ==> l.mem[i] == old(l.mem[i])
    {
      WholeEights(k, l.n);
      ze0, o1, x0, x4 := SixteenMore(l, c0, k, ze0, o1, x0, x4);
      k := k + 8;
    }
    WholeEights(k, l.n);
    LastEight(c0, k, o1, ze0);
    StoreSixteen(l, c0, k, ze0, LastOdds(o1, ze0), x0, x4);
    AllDone(LeGall53, true, l.Contents(), c0);
  }

  // ----- the final clip

  /** Packing with saturation to sixteen unsigned bits. */
  function Packed(v: int): (r: int)
    ensures 0 <= r < 0x1_0000
  {
    if v < 0 then 0 else if v > 0xFFFF then 0xFFFF else v
  }

  /** A number kept in 32 bits with a sign. */
  function Wrapped(v: int): (r: int)
    ensures -0x8000_0000 <= r < 0x8000_0000
  {
    (v + 0x8000_0000) % 0x1_0000_0000 - 0x8000_0000
  }

  lemma {:induction false} PowerSum(a: nat, b: nat)
    ensures Pow2(a + b) == Pow2(a) * Pow2(b)
  {
    if a > 0 {
      PowerSum(a - 1, b);
      assert 2 * Pow2(a - 1) * Pow2(b) == 2 * (Pow2(a - 1) * Pow2(b));
    }
  }

  lemma SixteenBits()
    ensures Pow2(16) == 0x1_0000
  {
    PowerSum(8, 8);
    PowerSum(4, 4);
    assert Pow2(4) == 16;
  }

  /** Shifted to the top of sixteen bits, saturated, and shifted back, a sample is clipped to its own bits,
      as long as the shift keeps it in 32. */
  lemma ShiftedClip(bits: nat, v: int)
    requires bits <= 16 && -0x8000_0000 <= v * Pow2(16 - bits) < 0x8000_0000
    ensures Packed(Wrapped(v * Pow2(16 - bits))) / Pow2(16 - bits)
         == if v < 0 then 0 else if v > Pow2(bits) - 1 then Pow2(bits) - 1 else v
  {
    var s, m := Pow2(16 - bits), Pow2(bits);
    PowerSum(bits, 16 - bits);
    SixteenBits();
    WrapFits(v * s);
    hide Pow2, Wrapped, Packed;
    ClipByShift(m, s, v);
  }

  lemma WrapFits(x: int)
    requires -0x8000_0000 <= x < 0x8000_0000
    ensures Wrapped(x) == x
  {}

  lemma ClipByShift(m: nat, s: nat, v: int)
    requires s > 0 && m * s == 0x1_0000
    ensures Packed(v * s) / s == if v < 0 then 0 else if v > m - 1 then m - 1 else v
  {
    var x := v * s;
    if v < 0 {
      Monotone(-1, v, s);
      DivUnique(0, 0, 0, s);
    } else if v > m - 1 {
      Monotone(v, m, s);
      TopOfRange(m, s);
    } else {
      Monotone(m - 1, v, s);
      Monotone(v, 0, s);
      OneLess(m, s);
      MultipleDivides(v, s);
    }
  }

  lemma OneLess(m: nat, s: nat)
    ensures (m - 1) * s == m * s - s
  {}

  lemma TopOfRange(m: nat, s: nat)
    requires s > 0 && m * s == 0x1_0000
    ensures 0xFFFF / s == m - 1
  {
    assert (m - 1) * s == m * s - s;
    DivUnique(0xFFFF, m - 1, s - 1, s);
  }
}
