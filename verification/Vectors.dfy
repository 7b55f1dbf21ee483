/** Vectors of four numbers and the instructions on them. Shifts right are divisions rounding down. */
module Vectors {
  datatype V4 = V4(a: int, b: int, c: int, d: int) {
    function Get(i: int): int {
      if i == 0 then a else if i == 1 then b else if i == 2 then c else d
    }

    function Plus(w: V4): V4 {
      V4(a + w.a, b + w.b, c + w.c, d + w.d)
    }

    function Minus(w: V4): V4 {
      V4(a - w.a, b - w.b, c - w.c, d - w.d)
    }

    function PlusAll(n: int): V4 {
      Plus(V4(n, n, n, n))
    }

    function Over(n: int): V4
      requires n > 0
    {
      V4(a / n, b / n, c / n, d / n)
    }

    /** The low and the high halves of two vectors, interleaved by one number or by two. */
    function UnpackLow(w: V4): V4 {
      V4(a, w.a, b, w.b)
    }

    function UnpackHigh(w: V4): V4 {
      V4(c, w.c, d, w.d)
    }

    function UnpackLowPair(w: V4): V4 {
      V4(a, b, w.a, w.b)
    }

    /** The last number of the one before, and the first three of this one. */
    function After(before: V4): V4 {
      V4(before.d, a, b, c)
    }

    /** The last three of the one before, and the first of this one. */
    function Joined(before: V4): V4 {
      V4(before.b, before.c, before.d, a)
    }

    function FirstTwice(): V4 {
      V4(a, a, b, c)
    }

    function LastTwice(): V4 {
      V4(b, c, d, d)
    }
  }

  /** Four even samples of the 5/3 filter, from them and the odd ones after and before them. */
  function Evens(e: V4, after: V4, before: V4): V4 {
    e.Minus(after.Plus(before).PlusAll(2).Over(4))
  }

  function Odds(o: V4, before: V4, after: V4): V4 {
    o.Plus(before.Plus(after).PlusAll(1).Over(2))
  }

  function Halves(v: V4): V4 {
    v.PlusAll(1).Over(2)
  }

  method LoadVector(mem: array<int>, at: nat) returns (v: V4)
    requires at + 4 <= mem.Length
    ensures v == V4(mem[at], mem[at + 1], mem[at + 2], mem[at + 3])
  {
    v := V4(mem[at], mem[at + 1], mem[at + 2], mem[at + 3]);
  }

  method StoreVector(mem: array<int>, at: nat, v: V4)
    requires at + 4 <= mem.Length
    modifies mem
    ensures forall i :: 0 <= i < mem.Length ==> mem[i] == if at <= i < at + 4 then v.Get(i - at) else old(mem[i])
  {
    mem[at], mem[at + 1], mem[at + 2], mem[at + 3] := v.a, v.b, v.c, v.d;
  }
}
