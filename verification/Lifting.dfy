/** One-dimensional lifting on a line of samples: the two-pass definition of each filter, and its inverse. */
module Lifting {
  datatype Filter = LeGall53 | DD97 | DD137

  /** A line has an even number of samples; the long filters reach two samples of a parity outside it. */
  predicate LineOk(f: Filter, n: nat) {
    n % 2 == 0 && n >= if f == LeGall53 then 2 else 4
  }

  /** Beyond either end, the m samples of one parity are mirrored, the end sample included. */
  function Mirror(i: int, m: int): (r: int)
    requires m >= 1 && -m <= i < 2 * m
    ensures 0 <= r < m
  {
    if i < 0 then -1 - i else if i >= m then 2 * m - 1 - i else i
  }

  function EvenAt(s: seq<int>, k: int): int
    requires |s| % 2 == 0 && |s| >= 2 && -(|s| / 2) <= k < |s|
  {
    s[2 * Mirror(k, |s| / 2)]
  }

  function OddAt(s: seq<int>, k: int): int
    requires |s| % 2 == 0 && |s| >= 2 && -(|s| / 2) <= k < |s|
  {
    s[2 * Mirror(k, |s| / 2) + 1]
  }

  /** What is taken off even sample k, from the odd samples around it; shifts right are divisions rounding down. */
  function EvenTerm(f: Filter, s: seq<int>, k: nat): int
    requires LineOk(f, |s|) && k < |s| / 2
  {
    if f == DD137 then (-OddAt(s, k - 2) + 9 * OddAt(s, k - 1) + 9 * OddAt(s, k) - OddAt(s, k + 1) + 16) / 32
    else (OddAt(s, k - 1) + OddAt(s, k) + 2) / 4
  }

  /** What is added to odd sample k, from the even samples around it. */
  function OddTerm(f: Filter, s: seq<int>, k: nat): int
    requires LineOk(f, |s|) && k < |s| / 2
  {
    if f == LeGall53 then (EvenAt(s, k) + EvenAt(s, k + 1) + 1) / 2
    else (-EvenAt(s, k - 1) + 9 * EvenAt(s, k) + 9 * EvenAt(s, k + 1) - EvenAt(s, k + 2) + 8) / 16
  }

  /** All even samples, then all odd ones: sign 1 applies a step and sign -1 takes it back. */
  function EvenPass(f: Filter, s: seq<int>, sign: int): (r: seq<int>)
    requires LineOk(f, |s|)
    ensures |r| == |s|
  {
    seq(|s|, i requires 0 <= i < |s| => if i % 2 == 0 then s[i] - sign * EvenTerm(f, s, i / 2) else s[i])
  }

  function OddPass(f: Filter, s: seq<int>, sign: int): (r: seq<int>)
    requires LineOk(f, |s|)
    ensures |r| == |s|
  {
    seq(|s|, i requires 0 <= i < |s| => if i % 2 == 1 then s[i] + sign * OddTerm(f, s, i / 2) else s[i])
  }

  function Synth(f: Filter, s: seq<int>): (r: seq<int>)
    requires LineOk(f, |s|)
    ensures |r| == |s|
  {
    OddPass(f, EvenPass(f, s, 1), 1)
  }

  function Analyse(f: Filter, s: seq<int>): (r: seq<int>)
    requires LineOk(f, |s|)
    ensures |r| == |s|
  {
    EvenPass(f, OddPass(f, s, -1), -1)
  }

  ghost predicate SameParity(s: seq<int>, t: seq<int>, parity: nat) {
    |s| == |t| && forall i :: 0 <= i < |s| && i % 2 == parity ==> s[i] == t[i]
  }

  lemma EvenTermOfOdds(f: Filter, s: seq<int>, t: seq<int>, k: nat)
    requires LineOk(f, |s|) && k < |s| / 2 && SameParity(s, t, 1)
    ensures EvenTerm(f, s, k) == EvenTerm(f, t, k)
  {
    forall j | -(|s| / 2) <= j < |s| ensures OddAt(s, j) == OddAt(t, j) {
      hide Mirror;
      assert (2 * Mirror(j, |s| / 2) + 1) % 2 == 1;
    }
    hide OddAt;
  }

  lemma OddTermOfEvens(f: Filter, s: seq<int>, t: seq<int>, k: nat)
    requires LineOk(f, |s|) && k < |s| / 2 && SameParity(s, t, 0)
    ensures OddTerm(f, s, k) == OddTerm(f, t, k)
  {
    forall j | -(|s| / 2) <= j < |s| ensures EvenAt(s, j) == EvenAt(t, j) {
      hide Mirror;
      assert (2 * Mirror(j, |s| / 2)) % 2 == 0;
    }
    hide EvenAt;
  }

  lemma EvenPassTwice(f: Filter, s: seq<int>, sign: int)
    requires LineOk(f, |s|) && (sign == 1 || sign == -1)
    ensures EvenPass(f, EvenPass(f, s, sign), -sign) == s
  {
    hide EvenTerm;
    var t := EvenPass(f, s, sign);
    forall i | 0 <= i < |s| ensures EvenPass(f, t, -sign)[i] == s[i] {
      if i % 2 == 0 {
        EvenTermOfOdds(f, s, t, i / 2);
      }
    }
  }

  lemma OddPassTwice(f: Filter, s: seq<int>, sign: int)
    requires LineOk(f, |s|) && (sign == 1 || sign == -1)
    ensures OddPass(f, OddPass(f, s, sign), -sign) == s
  {
    hide OddTerm;
    var t := OddPass(f, s, sign);
    forall i | 0 <= i < |s| ensures OddPass(f, t, -sign)[i] == s[i] {
      if i % 2 == 1 {
        OddTermOfEvens(f, s, t, i / 2);
      }
    }
  }

  /** Synthesis and analysis of a line undo each other. */
  lemma LineInverse(f: Filter, s: seq<int>)
    requires LineOk(f, |s|)
    ensures Synth(f, Analyse(f, s)) == s && Analyse(f, Synth(f, s)) == s
  {
    hide EvenPass, OddPass;
    EvenPassTwice(f, OddPass(f, s, -1), -1);
    OddPassTwice(f, s, -1);
    OddPassTwice(f, EvenPass(f, s, 1), 1);
    EvenPassTwice(f, s, 1);
  }

  // ----- the horizontal passes also halve

  function Half(f: Filter, x: int): int {
    if f == LeGall53 then (x + 1) / 2 else x / 2
  }

  function Halved(f: Filter, s: seq<int>): (r: seq<int>)
    ensures |r| == |s|
  {
    seq(|s|, i requires 0 <= i < |s| => Half(f, s[i]))
  }

  function Doubled(s: seq<int>): (r: seq<int>)
    ensures |r| == |s|
  {
    seq(|s|, i requires 0 <= i < |s| => 2 * s[i])
  }

  function SynthH(f: Filter, s: seq<int>): (r: seq<int>)
    requires LineOk(f, |s|)
    ensures |r| == |s|
  {
    Halved(f, Synth(f, s))
  }

  function AnalyseH(f: Filter, s: seq<int>): (r: seq<int>)
    requires LineOk(f, |s|)
    ensures |r| == |s|
  {
    Analyse(f, Doubled(s))
  }

  lemma HalfOfDouble(f: Filter, s: seq<int>)
    ensures Halved(f, Doubled(s)) == s
  {
    forall i | 0 <= i < |s| ensures Halved(f, Doubled(s))[i] == s[i] {}
  }

  lemma LineInverseH(f: Filter, s: seq<int>)
    requires LineOk(f, |s|)
    ensures SynthH(f, AnalyseH(f, s)) == s
  {
    hide Synth, Analyse, Halved, Doubled;
    LineInverse(f, Doubled(s));
    HalfOfDouble(f, s);
  }

  // ----- the samples of a synthesised line, one by one

  lemma SynthEven(f: Filter, s: seq<int>, k: nat)
    requires LineOk(f, |s|) && k < |s| / 2
    ensures Synth(f, s)[2 * k] == s[2 * k] - EvenTerm(f, s, k)
  {
    hide EvenTerm, OddTerm;
    assert (2 * k) % 2 == 0 && 2 * k / 2 == k;
  }

  lemma SynthOdd(f: Filter, s: seq<int>, k: nat)
    requires LineOk(f, |s|) && k < |s| / 2
    ensures Synth(f, s)[2 * k + 1] == s[2 * k + 1] + OddTerm(f, Synth(f, s), k)
  {
    hide EvenTerm, OddTerm;
    assert (2 * k + 1) % 2 == 1 && (2 * k + 1) / 2 == k;
    OddTermOfEvens(f, Synth(f, s), EvenPass(f, s, 1), k);
  }

  // ----- what a vertical pass (halve false) or a horizontal pass (halve true) leaves of a line

  function Out(f: Filter, halve: bool, x: int): int {
    if halve then Half(f, x) else x
  }

  function Pass(f: Filter, halve: bool, s: seq<int>): (r: seq<int>)
    requires LineOk(f, |s|)
    ensures |r| == |s|
  {
    if halve then SynthH(f, s) else Synth(f, s)
  }

  lemma PassAt(f: Filter, halve: bool, s: seq<int>, i: nat)
    requires LineOk(f, |s|) && i < |s|
    ensures Pass(f, halve, s)[i] == Out(f, halve, Synth(f, s)[i])
  {
    hide Synth;
  }

  /** The line is done up to sample d and untouched from there on. */
  ghost predicate DoneUpTo(f: Filter, halve: bool, now: seq<int>, before: seq<int>, d: int)
    requires LineOk(f, |before|)
  {
    && |now| == |before|
    && (forall i :: 0 <= i < d && i < |now| ==> now[i] == Out(f, halve, Synth(f, before)[i]))
    && (forall i :: d <= i < |now| && 0 <= i ==> now[i] == before[i])
  }

  lemma AllDone(f: Filter, halve: bool, now: seq<int>, before: seq<int>)
    requires LineOk(f, |before|) && DoneUpTo(f, halve, now, before, |before|)
    ensures now == Pass(f, halve, before)
  {
    hide Synth, Out, Pass;
    forall i | 0 <= i < |now| ensures now[i] == Pass(f, halve, before)[i] {
      PassAt(f, halve, before, i);
    }
  }
}
