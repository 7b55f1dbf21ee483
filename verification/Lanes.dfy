/** A line of samples inside a plane's memory: every step-th cell from a base, as a row or a column
    of the sample lattice of a transform level. */
module Lanes {
  import opened Lifting

  datatype Lane = Lane(mem: array<int>, base: nat, step: nat, n: nat) {
    predicate Valid() {
      step > 0 && (n > 0 ==> Addr(n - 1) < mem.Length)
    }

    function Addr(k: nat): nat {
      base + k * step
    }

    /** The cell belongs to the line. */
    ghost predicate On(i: int) {
      exists k: nat :: k < n && Addr(k) == i
    }

    function Get(k: nat): int
      requires Valid() && k < n
      reads mem
    {
      AddrInside(k);
      mem[Addr(k)]
    }

    ghost function Contents(): (s: seq<int>)
      requires Valid()
      reads mem
      ensures |s| == n && forall k :: 0 <= k < n ==> s[k] == Get(k)
    {
      seq(n, k requires 0 <= k < n reads mem requires Valid() => Get(k))
    }

    lemma AddrInside(k: nat)
      requires Valid() && k < n
      ensures Addr(k) < mem.Length
    {
      assert k * step <= (n - 1) * step;
    }

    lemma AddrApart(j: nat, k: nat)
      requires step > 0 && j < k
      ensures Addr(j) + step <= Addr(k)
    {
      assert (j + 1) * step <= k * step;
    }
  }

  method Put(l: Lane, k: nat, v: int)
    requires l.Valid() && k < l.n
    modifies l.mem
    ensures l.Contents() == old(l.Contents())[k := v]
    ensures forall i :: 0 <= i < l.mem.Length && !l.On(i) ==> l.mem[i] == old(l.mem[i])
  {
    l.AddrInside(k);
    l.mem[l.Addr(k)] := v;
    forall j: nat | j < l.n
      ensures l.Get(j) == if j == k then v else old(l.Get(j))
    {
      l.AddrInside(j);
      if j < k {
        l.AddrApart(j, k);
      } else if k < j {
        l.AddrApart(k, j);
      }
    }
    assert l.On(l.Addr(k));
  }

  // ----- a streaming pass reads ahead of what it has written

  lemma Untouched(f: Filter, halve: bool, s: seq<int>)
    requires LineOk(f, |s|)
    ensures DoneUpTo(f, halve, s, s, 0)
  {}

  /** A sample that is not done yet. */
  method Load(f: Filter, l: Lane, halve: bool, ghost c0: seq<int>, ghost d: nat, k: nat) returns (v: int)
    requires l.Valid() && LineOk(f, l.n) && |c0| == l.n && d <= k < l.n
    requires DoneUpTo(f, halve, l.Contents(), c0, d)
    ensures v == c0[k]
  {
    hide Synth, Out;
    v := l.Get(k);
  }

  /** The next sample in order. */
  method Store(f: Filter, l: Lane, halve: bool, ghost c0: seq<int>, k: nat, v: int)
    requires l.Valid() && LineOk(f, l.n) && |c0| == l.n && k < l.n
    requires DoneUpTo(f, halve, l.Contents(), c0, k)
    requires v == Synth(f, c0)[k]
    modifies l.mem
    ensures DoneUpTo(f, halve, l.Contents(), c0, k + 1)
    ensures forall i :: 0 <= i < l.mem.Length && !l.On(i) ==> l.mem[i] == old(l.mem[i])
  {
    hide Synth, Out, l.On;
    Put(l, k, Out(f, halve, v));
  }
}
