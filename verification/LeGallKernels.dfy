/** The in-place 5/3 synthesis of one line: a single pass with sliding registers. */
module LeGallKernels {
  import opened Lifting
  import opened Lanes
  import opened LiftingLaws

  lemma EvenSample(s: seq<int>, j: nat)
    requires LineOk(LeGall53, |s|) && j < |s| && j % 2 == 0
    ensures Synth(LeGall53, s)[j] == s[j] - ((if j == 0 then s[1] else s[j - 1]) + s[j + 1] + 2) / 4
  {
    hide Synth;
    SynthEven(LeGall53, s, j / 2);
  }

  lemma OddSample(s: seq<int>, j: nat)
    requires LineOk(LeGall53, |s|) && j < |s| && j % 2 == 1
    ensures var r := Synth(LeGall53, s);
            r[j] == s[j] + (r[j - 1] + (if j + 1 == |s| then r[j - 1] else r[j + 1]) + 1) / 2
  {
    hide Synth;
    SynthOdd(LeGall53, s, j / 2);
  }

  /** The middle of the streaming pass: even sample y and the odd one before it. */
  method Step(l: Lane, halve: bool, ghost c0: seq<int>, y: nat, xm2: int, dm1: int, d: int, dp1: int) returns (x: int)
    requires l.Valid() && LineOk(LeGall53, l.n) && |c0| == l.n && 2 <= y < l.n && y % 2 == 0
    requires DoneUpTo(LeGall53, halve, l.Contents(), c0, y - 1)
    requires xm2 == Synth(LeGall53, c0)[y - 2] && dm1 == c0[y - 1] && d == c0[y] && dp1 == c0[y + 1]
    modifies l.mem
    ensures x == Synth(LeGall53, c0)[y]
    ensures DoneUpTo(LeGall53, halve, l.Contents(), c0, y + 1)
    ensures forall i :: 0 <= i < l.mem.Length && !l.On(i) ==> l.mem[i] == old(l.mem[i])
  {
    hide Synth, l.On, l.Addr, Out;
    EvenSample(c0, y);
    OddSample(c0, y - 1);
    x := d - (dm1 + dp1 + 2) / 4;
    var xm1 := dm1 + (xm2 + x + 1) / 2;
    Put(l, y - 1, Out(LeGall53, halve, xm1));
    Put(l, y, Out(LeGall53, halve, x));
  }

  /** The streaming pass: even samples two ahead of the odd ones, no sample read after it is written. */
  method Stream(l: Lane, halve: bool)
    requires l.Valid() && l.n % 2 == 0 && l.n >= 6
    modifies l.mem
    ensures l.Contents() == Pass(LeGall53, halve, old(l.Contents()))
    ensures exists r :: PassOf(LeGall53, halve, old(l.Contents()), r, l.Contents())
    ensures forall i :: 0 <= i < l.mem.Length && !l.On(i) ==> l.mem[i] == old(l.mem[i])
  {
    hide Synth, l.On, l.Addr, Out, Pass, PassOf, DoneUpTo, l.Get;
    ghost var c0 := l.Contents();
    Untouched(LeGall53, halve, c0);
    var y, xm2 := 0, 0;
    var d := Load(LeGall53, l, halve, c0, 0, 0);
    var dp1 := Load(LeGall53, l, halve, c0, 0, 1);
    var dp2 := Load(LeGall53, l, halve, c0, 0, 2);
    var dm1 := dp1;
    EvenSample(c0, 0);
    var x := d - (dm1 + dp1 + 2) / 4;
    Store(LeGall53, l, halve, c0, 0, x);
    xm2, dm1, d := x, dp1, dp2;
    dp1 := Load(LeGall53, l, halve, c0, 1, 3);
    dp2 := Load(LeGall53, l, halve, c0, 1, 4);
    y := y + 2;
    while y < l.n - 4
      invariant 2 <= y <= l.n - 4 && y % 2 == 0
      invariant DoneUpTo(LeGall53, halve, l.Contents(), c0, y - 1)
      invariant xm2 == x == Synth(LeGall53, c0)[y - 2]
      invariant dm1 == c0[y - 1] && d == c0[y] && dp1 == c0[y + 1] && dp2 == c0[y + 2]
      invariant forall i :: 0 <= i < l.mem.Length && !l.On(i) ==> l.mem[i] == old(l.mem[i])
    {
      x := Step(l, halve, c0, y, xm2, dm1, d, dp1);
      xm2, dm1, d := x, dp1, dp2;
      dp1 := Load(LeGall53, l, halve, c0, y + 1, y + 3);
      dp2 := Load(LeGall53, l, halve, c0, y + 1, y + 4);
      y := y + 2;
    }
    x := Step(l, halve, c0, y, xm2, dm1, d, dp1);
    xm2, dm1, d := x, dp1, dp2;
    dp1 := Load(LeGall53, l, halve, c0, y + 1, y + 3);
    y := y + 2;
    x := Step(l, halve, c0, y, xm2, dm1, d, dp1);
    xm2, dm1 := x, dp1;
    y := y + 2;
    OddSample(c0, y - 1);
    var xm1 := dm1 + (xm2 + x + 1) / 2;
    Store(LeGall53, l, halve, c0, y - 1, xm1);
    AllDone(LeGall53, halve, l.Contents(), c0);
    PassLeaves(LeGall53, halve, c0);
  }

  /** Four samples, from four registers. */
  method SynthFour(l: Lane)
    requires l.Valid() && l.n == 4
    modifies l.mem
    ensures l.Contents() == Pass(LeGall53, false, old(l.Contents()))
    ensures forall i :: 0 <= i < l.mem.Length && !l.On(i) ==> l.mem[i] == old(l.mem[i])
  {
    hide Synth, l.On, l.Addr;
    ghost var c0 := l.Contents();
    var d, dp1, dp2, dp3 := l.Get(0), l.Get(1), l.Get(2), l.Get(3);
    var dm1 := dp1;
    EvenSample(c0, 0);
    EvenSample(c0, 2);
    OddSample(c0, 1);
    OddSample(c0, 3);
    var x := d - (dm1 + dp1 + 2) / 4;
    var xp2 := dp2 - (dp1 + dp3 + 2) / 4;
    var xp1 := dp1 + (x + xp2 + 1) / 2;
    var xp3 := dp3 + (xp2 + xp2 + 1) / 2;
    Put(l, 0, x);
    Put(l, 1, xp1);
    Put(l, 2, xp2);
    Put(l, 3, xp3);
  }

  /** Vertical synthesis of one column, lines of two and four samples included. */
  method SynthV(l: Lane)
    requires l.Valid() && LineOk(LeGall53, l.n)
    modifies l.mem
    ensures l.Contents() == Pass(LeGall53, false, old(l.Contents()))
    ensures exists r :: PassOf(LeGall53, false, old(l.Contents()), r, l.Contents())
    ensures forall i :: 0 <= i < l.mem.Length && !l.On(i) ==> l.mem[i] == old(l.mem[i])
  {
    hide Synth, l.On, l.Addr, PassOf;
    ghost var c0 := l.Contents();
    if l.n < 4 {
      var d, dp1 := l.Get(0), l.Get(1);
      var dm1 := dp1;
      EvenSample(c0, 0);
      OddSample(c0, 1);
      var x := d - (dm1 + dp1 + 2) / 4;
      var xp1 := dp1 + (x + x + 1) / 2;
      Put(l, 0, x);
      Put(l, 1, xp1);
    } else if l.n < 6 {
      SynthFour(l);
    } else {
      Stream(l, false);
    }
    PassLeaves(LeGall53, false, c0);
  }

  /** Horizontal synthesis of one row, which also halves. */
  method SynthRow(l: Lane)
    requires l.Valid() && l.n % 2 == 0 && l.n >= 6
    modifies l.mem
    ensures l.Contents() == Pass(LeGall53, true, old(l.Contents()))
    ensures exists r :: PassOf(LeGall53, true, old(l.Contents()), r, l.Contents())
    ensures forall i :: 0 <= i < l.mem.Length && !l.On(i) ==> l.mem[i] == old(l.mem[i])
  {
    Stream(l, true);
  }
}
