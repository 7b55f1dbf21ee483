/** What the synthesis of a line does to its samples, in terms of the samples alone: even ones are corrected by the odd
    ones around them, odd ones are predicted from the corrected even ones, each to the nearest integer. */
module LiftingLaws {
  import opened Lifting

  /** n is the integer nearest to w / d, the upper one of two. */
  predicate Nearest(n: int, w: int, d: int) {
    -d < 2 * (d * n - w) <= d
  }

  /** The k-th sample of a parity; beyond an end of the line they come back in reverse order, the end one first. */
  function Sample(s: seq<int>, parity: nat, k: int): int
    requires |s| % 2 == 0 && parity < 2 && -(|s| / 2) <= k < |s|
  {
    if k < 0 then s[2 * (-k) - 2 + parity]
    else if 2 * k >= |s| then s[2 * (|s| - k) - 2 + parity]
    else s[2 * k + parity]
  }

  /** What an even sample loses: of the 13,7 filter a fraction of 32, of the others a quarter of its neighbours. */
  predicate Corrected(f: Filter, c: seq<int>, k: nat, n: int)
    requires LineOk(f, |c|) && k < |c| / 2
  {
    if f == DD137 then
      Nearest(n, -Sample(c, 1, k - 2) + 9 * Sample(c, 1, k - 1) + 9 * Sample(c, 1, k) - Sample(c, 1, k + 1), 32)
    else
      Nearest(n, Sample(c, 1, k - 1) + Sample(c, 1, k), 4)
  }

  /** What an odd sample gains: of the 5/3 filter half of its neighbours, of the others a fraction of 16. */
  predicate Predicted(f: Filter, r: seq<int>, k: nat, n: int)
    requires LineOk(f, |r|) && k < |r| / 2
  {
    if f == LeGall53 then
      Nearest(n, Sample(r, 0, k) + Sample(r, 0, k + 1), 2)
    else
      Nearest(n, -Sample(r, 0, k - 1) + 9 * Sample(r, 0, k) + 9 * Sample(r, 0, k + 1) - Sample(r, 0, k + 2), 16)
  }

  ghost predicate LiftedAt(f: Filter, c: seq<int>, r: seq<int>, k: nat)
    requires LineOk(f, |c|) && |r| == |c| && k < |c| / 2
  {
    Corrected(f, c, k, c[2 * k] - r[2 * k]) && Predicted(f, r, k, r[2 * k + 1] - c[2 * k + 1])
  }

  /** r is what the two steps make of c. */
  ghost predicate Lifted(f: Filter, c: seq<int>, r: seq<int>)
    requires LineOk(f, |c|)
  {
    |r| == |c| && forall k: nat :: k < |c| / 2 ==> LiftedAt(f, c, r, k)
  }

  lemma Mirrored(s: seq<int>, k: int)
    requires |s| % 2 == 0 && |s| >= 2 && -(|s| / 2) <= k < |s|
    ensures EvenAt(s, k) == Sample(s, 0, k) && OddAt(s, k) == Sample(s, 1, k)
  {}

  lemma CorrectedIs(f: Filter, c: seq<int>, k: nat, n: int)
    requires LineOk(f, |c|) && k < |c| / 2
    ensures Corrected(f, c, k, n) <==> n == EvenTerm(f, c, k)
  {
    hide EvenAt, OddAt, Sample;
    Mirrored(c, k - 1);
    Mirrored(c, k);
    if f == DD137 {
      Mirrored(c, k - 2);
      Mirrored(c, k + 1);
    }
  }

  lemma PredictedIs(f: Filter, r: seq<int>, k: nat, n: int)
    requires LineOk(f, |r|) && k < |r| / 2
    ensures Predicted(f, r, k, n) <==> n == OddTerm(f, r, k)
  {
    hide EvenAt, OddAt, Sample;
    Mirrored(r, k);
    Mirrored(r, k + 1);
    if f != LeGall53 {
      Mirrored(r, k - 1);
      Mirrored(r, k + 2);
    }
  }

  /** Exactly one line is what the steps make of c: the one that synthesis leaves. */
  lemma SynthesisExactly(f: Filter, c: seq<int>, r: seq<int>)
    requires LineOk(f, |c|)
    ensures Lifted(f, c, r) <==> r == Synth(f, c)
  {
    hide Synth, EvenTerm, OddTerm, Corrected, Predicted;
    forall k: nat | k < |c| / 2 ensures LiftedAt(f, c, Synth(f, c), k) {
      SynthEven(f, c, k);
      SynthOdd(f, c, k);
      CorrectedIs(f, c, k, EvenTerm(f, c, k));
      PredictedIs(f, Synth(f, c), k, OddTerm(f, Synth(f, c), k));
    }
    if Lifted(f, c, r) {
      OneLifted(f, c, r);
    }
  }

  lemma OneLifted(f: Filter, c: seq<int>, r: seq<int>)
    requires LineOk(f, |c|) && Lifted(f, c, r)
    ensures r == Synth(f, c)
  {
    hide Synth, EvenTerm, OddTerm, Corrected, Predicted;
    var s := Synth(f, c);
    forall i | 0 <= i < |c| && i % 2 == 0 ensures r[i] == s[i] {
      assert LiftedAt(f, c, r, i / 2);
      CorrectedIs(f, c, i / 2, c[i] - r[i]);
      SynthEven(f, c, i / 2);
    }
    forall i | 0 <= i < |c| && i % 2 == 1 ensures r[i] == s[i] {
      var k := i / 2;
      assert LiftedAt(f, c, r, k) && i == 2 * k + 1;
      PredictedIs(f, r, k, r[i] - c[i]);
      OddTermOfEvens(f, r, s, k);
      SynthOdd(f, c, k);
    }
  }

  /** h is half of x: an odd x is rounded up by the 5/3 filter, and down by the others. */
  predicate IsHalf(f: Filter, x: int, h: int) {
    if f == LeGall53 then 0 <= 2 * h - x <= 1 else 0 <= x - 2 * h <= 1
  }

  /** out is what a pass makes of the line c: its synthesis r, with every sample halved by a horizontal pass. */
  ghost predicate PassOf(f: Filter, halve: bool, c: seq<int>, r: seq<int>, out: seq<int>)
    requires LineOk(f, |c|)
  {
    && Lifted(f, c, r) && |out| == |c|
    && forall i :: 0 <= i < |c| ==> if halve then IsHalf(f, r[i], out[i]) else out[i] == r[i]
  }

  lemma PassExactly(f: Filter, halve: bool, c: seq<int>, r: seq<int>, out: seq<int>)
    requires LineOk(f, |c|)
    ensures PassOf(f, halve, c, r, out) <==> r == Synth(f, c) && out == Pass(f, halve, c)
  {
    hide Synth, Pass, Lifted;
    SynthesisExactly(f, c, r);
    forall i | 0 <= i < |c| ensures Pass(f, halve, c)[i] == Out(f, halve, Synth(f, c)[i]) {
      PassAt(f, halve, c, i);
    }
  }

  lemma PassLeaves(f: Filter, halve: bool, c: seq<int>)
    requires LineOk(f, |c|)
    ensures exists r :: PassOf(f, halve, c, r, Pass(f, halve, c))
  {
    hide Synth, Pass, PassOf;
    PassExactly(f, halve, c, Synth(f, c), Pass(f, halve, c));
  }
}
