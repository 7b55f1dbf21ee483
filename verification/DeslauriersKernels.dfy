/** The in-place (9,7) and (13,7) synthesis of one line: single passes with sliding registers. A
    horizontal pass is the same with every stored sample halved. */
module DeslauriersKernels {
  import opened Lifting
  import opened Lanes
  import opened LiftingLaws

  predicate IsLong(f: Filter) {
    f == DD97 || f == DD137
  }

  lemma EvenIs(f: Filter, s: seq<int>, k: int)
    requires LineOk(f, |s|) && 0 <= k < |s| / 2
    ensures EvenAt(s, k) == s[2 * k]
    ensures k == 0 ==> EvenAt(s, -1) == s[0]
    ensures k == |s| / 2 - 1 ==> EvenAt(s, k + 1) == s[2 * k]
    ensures k == |s| / 2 - 2 ==> EvenAt(s, k + 3) == s[2 * k]
  {}

  /** One odd sample, with the four synthesised even samples around it, and the even one it follows. */
  method StorePair(f: Filter, l: Lane, halve: bool, ghost c0: seq<int>, k: nat,
                   xm3: int, dm6: int, dm4: int, dm2: int, d: int)
    requires IsLong(f) && l.Valid() && LineOk(f, l.n) && |c0| == l.n && k < l.n / 2
    requires DoneUpTo(f, halve, l.Contents(), c0, 2 * k)
    requires var r := Synth(f, c0);
             && dm6 == EvenAt(r, k - 1) && dm4 == EvenAt(r, k) && dm2 == EvenAt(r, k + 1) && d == EvenAt(r, k + 2)
    requires xm3 == c0[2 * k + 1]
    modifies l.mem
    ensures DoneUpTo(f, halve, l.Contents(), c0, 2 * k + 2)
    ensures forall i :: 0 <= i < l.mem.Length && !l.On(i) ==> l.mem[i] == old(l.mem[i])
  {
    hide Synth, l.On, l.Addr, DoneUpTo, EvenAt;
    var dm3 := xm3 + (-dm6 + 9 * dm4 + 9 * dm2 - d + 8) / 16;
    EvenIs(f, Synth(f, c0), k);
    SynthOdd(f, c0, k);
    Store(f, l, halve, c0, 2 * k, dm4);
    Store(f, l, halve, c0, 2 * k + 1, dm3);
  }

  lemma Even97(s: seq<int>, k: nat)
    requires LineOk(DD97, |s|) && k < |s| / 2
    ensures EvenAt(Synth(DD97, s), k)
         == s[2 * k] - ((if k == 0 then s[1] else s[2 * k - 1]) + s[2 * k + 1] + 2) / 4
  {
    hide Synth;
    SynthEven(DD97, s, k);
  }

  /** The registers of a streaming pass; the (9,7) filter does not use the last two samples. */
  datatype Regs = Regs(xm3: int, xm1: int, x: int, xp1: int, xp2: int, xp3: int, dm6: int, dm4: int, dm2: int)

  /** Before odd sample k: the synthesised even samples around it, and the samples ahead. */
  ghost predicate Aligned(f: Filter, c0: seq<int>, k: nat, g: Regs)
    requires LineOk(f, |c0|)
  {
    var r := Synth(f, c0);
    && 2 * k + 6 <= |c0|
    && g.dm6 == EvenAt(r, k - 1) && g.dm4 == EvenAt(r, k) && g.dm2 == EvenAt(r, k + 1)
    && g.xm3 == c0[2 * k + 1] && g.xm1 == c0[2 * k + 3] && g.x == c0[2 * k + 4] && g.xp1 == c0[2 * k + 5]
    && (f == DD137 ==> 2 * k + 8 <= |c0| && g.xp2 == c0[2 * k + 6] && g.xp3 == c0[2 * k + 7])
  }

  method Start97(l: Lane, halve: bool) returns (g: Regs)
    requires l.Valid() && l.n % 2 == 0 && l.n >= 6
    ensures Aligned(DD97, l.Contents(), 0, g)
  {
    hide Synth, Out, DoneUpTo, l.Get, EvenAt;
    ghost var c0 := l.Contents();
    Untouched(DD97, halve, c0);
    var x := Load(DD97, l, halve, c0, 0, 0);
    var xp1 := Load(DD97, l, halve, c0, 0, 1);
    Even97(c0, 0);
    EvenIs(DD97, Synth(DD97, c0), 0);
    var xm1 := xp1;
    var d := x - (xm1 + xp1 + 2) / 4;
    var dm4, dm2 := d, d;
    xm1 := xp1;
    x := Load(DD97, l, halve, c0, 0, 2);
    xp1 := Load(DD97, l, halve, c0, 0, 3);
    Even97(c0, 1);
    d := x - (xm1 + xp1 + 2) / 4;
    var x4 := Load(DD97, l, halve, c0, 0, 4);
    var x5 := Load(DD97, l, halve, c0, 0, 5);
    g := Regs(xm1, xp1, x4, x5, 0, 0, dm4, dm2, d);
  }

  method Turn97(l: Lane, halve: bool, ghost c0: seq<int>, k: nat, g: Regs) returns (g': Regs)
    requires l.Valid() && LineOk(DD97, l.n) && |c0| == l.n && 2 * k + 8 <= l.n
    requires DoneUpTo(DD97, halve, l.Contents(), c0, 2 * k) && Aligned(DD97, c0, k, g)
    modifies l.mem
    ensures DoneUpTo(DD97, halve, l.Contents(), c0, 2 * k + 2) && Aligned(DD97, c0, k + 1, g')
    ensures forall i :: 0 <= i < l.mem.Length && !l.On(i) ==> l.mem[i] == old(l.mem[i])
  {
    hide Synth, l.On, l.Addr, Out, Pass, DoneUpTo, l.Get, EvenAt;
    Even97(c0, k + 2);
    var d := g.x - (g.xm1 + g.xp1 + 2) / 4;
    StorePair(DD97, l, halve, c0, k, g.xm3, g.dm6, g.dm4, g.dm2, d);
    var x := Load(DD97, l, halve, c0, 2 * k + 2, 2 * k + 6);
    var xp1 := Load(DD97, l, halve, c0, 2 * k + 2, 2 * k + 7);
    g' := Regs(g.xm1, g.xp1, x, xp1, 0, 0, g.dm4, g.dm2, d);
  }

  method Finish97(l: Lane, halve: bool, ghost c0: seq<int>, k: nat, g: Regs)
    requires l.Valid() && LineOk(DD97, l.n) && |c0| == l.n && 2 * k + 6 == l.n
    requires DoneUpTo(DD97, halve, l.Contents(), c0, 2 * k) && Aligned(DD97, c0, k, g)
    modifies l.mem
    ensures DoneUpTo(DD97, halve, l.Contents(), c0, l.n)
    ensures forall i :: 0 <= i < l.mem.Length && !l.On(i) ==> l.mem[i] == old(l.mem[i])
  {
    hide Synth, l.On, l.Addr, Out, Pass, DoneUpTo, l.Get, EvenAt;
    Even97(c0, k + 2);
    var d := g.x - (g.xm1 + g.xp1 + 2) / 4;
    StorePair(DD97, l, halve, c0, k, g.xm3, g.dm6, g.dm4, g.dm2, d);
    var dm6, dm4, dm2 := g.dm4, g.dm2, d;
    EvenIs(DD97, Synth(DD97, c0), k + 2);
    EvenIs(DD97, Synth(DD97, c0), k + 1);
    StorePair(DD97, l, halve, c0, k + 1, g.xm1, dm6, dm4, dm2, d);
    dm6, dm4, dm2 := dm4, dm2, d;
    d := dm6;
    StorePair(DD97, l, halve, c0, k + 2, g.xp1, dm6, dm4, dm2, d);
  }

  method Stream97(l: Lane, halve: bool)
    requires l.Valid() && l.n % 2 == 0 && l.n >= 6
    modifies l.mem
    ensures l.Contents() == Pass(DD97, halve, old(l.Contents()))
    ensures exists r :: PassOf(DD97, halve, old(l.Contents()), r, l.Contents())
    ensures forall i :: 0 <= i < l.mem.Length && !l.On(i) ==> l.mem[i] == old(l.mem[i])
  {
    hide Synth, l.On, l.Addr, Out, Pass, PassOf, DoneUpTo, l.Get, EvenAt, Aligned;
    ghost var c0 := l.Contents();
    Untouched(DD97, halve, c0);
    var g := Start97(l, halve);
    var k := 0;
    // two samples ahead of the last one loaded is sample 2 * k + 4
    while 2 * k + 4 < l.n - 2
      invariant 2 * k + 6 <= l.n
      invariant DoneUpTo(DD97, halve, l.Contents(), c0, 2 * k) && Aligned(DD97, c0, k, g)
      invariant forall i :: 0 <= i < l.mem.Length && !l.On(i) ==> l.mem[i] == old(l.mem[i])
    {
      g := Turn97(l, halve, c0, k, g);
      k := k + 1;
    }
    Finish97(l, halve, c0, k, g);
    AllDone(DD97, halve, l.Contents(), c0);
    PassLeaves(DD97, halve, c0);
  }

  lemma Even137(s: seq<int>, k: nat)
    requires LineOk(DD137, |s|) && |s| >= 8 && k < |s| / 2
    ensures EvenAt(Synth(DD137, s), k)
         == s[2 * k] - (-(if k == 0 then s[3] else if k == 1 then s[1] else s[2 * k - 3])
                        + 9 * (if k == 0 then s[1] else s[2 * k - 1]) + 9 * s[2 * k + 1]
                        - (if 2 * k + 2 == |s| then s[2 * k + 1] else s[2 * k + 3]) + 16) / 32
  {
    hide Synth;
    SynthEven(DD137, s, k);
  }

  method Start137(l: Lane, halve: bool) returns (g: Regs)
    requires l.Valid() && l.n % 2 == 0 && l.n >= 8
    ensures Aligned(DD137, l.Contents(), 0, g)
  {
    hide Synth, Out, DoneUpTo, l.Get, EvenAt;
    ghost var c0 := l.Contents();
    Untouched(DD137, halve, c0);
    var x := Load(DD137, l, halve, c0, 0, 0);
    var xp1 := Load(DD137, l, halve, c0, 0, 1);
    var xp2 := Load(DD137, l, halve, c0, 0, 2);
    var xp3 := Load(DD137, l, halve, c0, 0, 3);
    var xm1, xm3 := xp1, xp3;
    Even137(c0, 0);
    EvenIs(DD137, Synth(DD137, c0), 0);
    var d := x - (-xm3 + 9 * xm1 + 9 * xp1 - xp3 + 16) / 32;
    var dm4, dm2 := d, d;
    xm3, xm1, x, xp1 := xm1, xp1, xp2, xp3;
    xp2 := Load(DD137, l, halve, c0, 0, 4);
    xp3 := Load(DD137, l, halve, c0, 0, 5);
    Even137(c0, 1);
    d := x - (-xm3 + 9 * xm1 + 9 * xp1 - xp3 + 16) / 32;
    var x6 := Load(DD137, l, halve, c0, 0, 6);
    var x7 := Load(DD137, l, halve, c0, 0, 7);
    g := Regs(xm1, xp1, xp2, xp3, x6, x7, dm4, dm2, d);
  }

  method Turn137(l: Lane, halve: bool, ghost c0: seq<int>, k: nat, g: Regs) returns (g': Regs)
    requires l.Valid() && LineOk(DD137, l.n) && |c0| == l.n && 2 * k + 10 <= l.n
    requires DoneUpTo(DD137, halve, l.Contents(), c0, 2 * k) && Aligned(DD137, c0, k, g)
    modifies l.mem
    ensures DoneUpTo(DD137, halve, l.Contents(), c0, 2 * k + 2) && Aligned(DD137, c0, k + 1, g')
    ensures forall i :: 0 <= i < l.mem.Length && !l.On(i) ==> l.mem[i] == old(l.mem[i])
  {
    hide Synth, l.On, l.Addr, Out, Pass, DoneUpTo, l.Get, EvenAt;
    Even137(c0, k + 2);
    var d := g.x - (-g.xm3 + 9 * g.xm1 + 9 * g.xp1 - g.xp3 + 16) / 32;
    StorePair(DD137, l, halve, c0, k, g.xm3, g.dm6, g.dm4, g.dm2, d);
    var xp2 := Load(DD137, l, halve, c0, 2 * k + 2, 2 * k + 8);
    var xp3 := Load(DD137, l, halve, c0, 2 * k + 2, 2 * k + 9);
    g' := Regs(g.xm1, g.xp1, g.xp2, g.xp3, xp2, xp3, g.dm4, g.dm2, d);
  }

  method Finish137(l: Lane, halve: bool, ghost c0: seq<int>, k: nat, g: Regs)
    requires l.Valid() && LineOk(DD137, l.n) && |c0| == l.n && 2 * k + 8 == l.n
    requires DoneUpTo(DD137, halve, l.Contents(), c0, 2 * k) && Aligned(DD137, c0, k, g)
    modifies l.mem
    ensures DoneUpTo(DD137, halve, l.Contents(), c0, l.n)
    ensures forall i :: 0 <= i < l.mem.Length && !l.On(i) ==> l.mem[i] == old(l.mem[i])
  {
    hide Synth, l.On, l.Addr, Out, Pass, DoneUpTo, l.Get, EvenAt;
    Even137(c0, k + 2);
    var d := g.x - (-g.xm3 + 9 * g.xm1 + 9 * g.xp1 - g.xp3 + 16) / 32;
    StorePair(DD137, l, halve, c0, k, g.xm3, g.dm6, g.dm4, g.dm2, d);
    var dm6, dm4, dm2 := g.dm4, g.dm2, d;
    Even137(c0, k + 3);
    d := g.xp2 - (-g.xm1 + 9 * g.xp1 + 9 * g.xp3 - g.xp3 + 16) / 32;
    StorePair(DD137, l, halve, c0, k + 1, g.xm1, dm6, dm4, dm2, d);
    dm6, dm4, dm2 := dm4, dm2, d;
    EvenIs(DD137, Synth(DD137, c0), k + 3);
    EvenIs(DD137, Synth(DD137, c0), k + 2);
    d := dm2;
    StorePair(DD137, l, halve, c0, k + 2, g.xp1, dm6, dm4, dm2, d);
    d := dm4;
    dm6, dm4 := dm4, dm2;
    StorePair(DD137, l, halve, c0, k + 3, g.xp3, dm6, dm4, dm2, d);
  }

  method Stream137(l: Lane, halve: bool)
    requires l.Valid() && l.n % 2 == 0 && l.n >= 8
    modifies l.mem
    ensures l.Contents() == Pass(DD137, halve, old(l.Contents()))
    ensures exists r :: PassOf(DD137, halve, old(l.Contents()), r, l.Contents())
    ensures forall i :: 0 <= i < l.mem.Length && !l.On(i) ==> l.mem[i] == old(l.mem[i])
  {
    hide Synth, l.On, l.Addr, Out, Pass, PassOf, DoneUpTo, l.Get, EvenAt, Aligned;
    ghost var c0 := l.Contents();
    Untouched(DD137, halve, c0);
    var g := Start137(l, halve);
    var k := 0;
    // two samples ahead of the last one loaded is sample 2 * k + 4
    while 2 * k + 4 < l.n - 4
      invariant 2 * k + 8 <= l.n
      invariant DoneUpTo(DD137, halve, l.Contents(), c0, 2 * k) && Aligned(DD137, c0, k, g)
      invariant forall i :: 0 <= i < l.mem.Length && !l.On(i) ==> l.mem[i] == old(l.mem[i])
    {
      g := Turn137(l, halve, c0, k, g);
      k := k + 1;
    }
    Finish137(l, halve, c0, k, g);
    AllDone(DD137, halve, l.Contents(), c0);
    PassLeaves(DD137, halve, c0);
  }
}
