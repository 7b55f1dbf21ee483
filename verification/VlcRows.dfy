/** One row of the byte-step table, and the row that a run of bits calls for: the row is a summary of
    those bits that is valid for every value accumulated before them. */
module VlcRows {
  import opened VlcMachine

  datatype Row = R(state: State, preshift: nat, sgn: int, term: int, part: int, n: nat,
                   val0: int, val1: int, val2: int, val3: int, val4: int, val5: int, val6: int, val7: int)

  /** v << k */
  function Shl(v: int, k: nat): int {
    if k == 0 then v else 2 * Shl(v, k - 1)
  }

  /** The partial value after the row: kept and extended, or restarted when a coefficient ended. */
  function Partial(r: Row, v: int): int {
    if r.term == 1 then r.part else Shl(v, r.preshift) + r.val0
  }

  /** The eight values stored for a row. */
  function Stored(r: Row, v: int): (s: seq<int>)
    ensures |s| == 8
  {
    [(Shl(v, r.preshift) + r.val0 - 1) * r.sgn, r.val1, r.val2, r.val3, r.val4, r.val5, r.val6, r.val7]
  }

  // ----- the summary of a run of bits

  function Blank(s: State): Row {
    R(s, 0, 1, 0, 0, 0, 0, 0, 0, 0, 0, 0, 0, 0)
  }

  function Put(r: Row, x: int): Row {
    var q := r.(n := r.n + 1, part := 0, state := Start);
    match r.n
    case 1 => q.(val1 := x)
    case 2 => q.(val2 := x)
    case 3 => q.(val3 := x)
    case 4 => q.(val4 := x)
    case 5 => q.(val5 := x)
    case 6 => q.(val6 := x)
    case _ => q.(val7 := x)
  }

  /** One more bit: until the first coefficient ends, preshift and val0 hold its value as a function
      of the incoming one; after that every value is a constant. */
  function Extend(r: Row, bit: Bit): Row {
    if r.n == 0 then
      match r.state
      case Start => if bit == 1 then r.(sgn := 0, term := 1, n := 1) else r.(state := Data, preshift := 1, val0 := 1)
      case Follow => r.(state := if bit == 1 then Sign else Data)
      case Data => r.(state := Follow, preshift := r.preshift + 1, val0 := 2 * r.val0 + bit)
      case Sign => r.(state := Start, sgn := if bit == 0 then 1 else -1, term := 1, n := 1)
    else
      match r.state
      case Start => if bit == 1 then Put(r, 0) else r.(state := Data, part := 1)
      case Follow => r.(state := if bit == 1 then Sign else Data)
      case Data => r.(state := Follow, part := 2 * r.part + bit)
      case Sign => Put(r, if bit == 0 then r.part - 1 else 1 - r.part)
  }

  /** All the bits, one by one. */
  function Extended(r: Row, bits: seq<Bit>): Row {
    if bits == [] then r else Extend(Extended(r, bits[..|bits| - 1]), bits[|bits| - 1])
  }

  function Summary(s: State, b: Byte): Row {
    Extended(Blank(s), ByteBits(b))
  }

  predicate UnusedAreZero(r: Row) {
    && (r.n <= 1 ==> r.val1 == 0)
    && (r.n <= 2 ==> r.val2 == 0)
    && (r.n <= 3 ==> r.val3 == 0)
    && (r.n <= 4 ==> r.val4 == 0)
    && (r.n <= 5 ==> r.val5 == 0)
    && (r.n <= 6 ==> r.val6 == 0)
    && (r.n <= 7 ==> r.val7 == 0)
  }

  /** The row says, for a reader that stands in state s with the value v, what the bits do:
      which values come out, where the reader ends, and that the unused value slots are 0. */
  ghost predicate Summarises(r: Row, s: State, v: int, bits: seq<Bit>) {
    var c := Config(s, v);
    && r.n <= |bits| <= 8
    && (r.term == if r.n > 0 then 1 else 0)
    && r.state == Run(c, bits).state
    && Run(c, bits).v == Partial(r, v)
    && Emit(c, bits) == Stored(r, v)[..r.n]
    && UnusedAreZero(r)
    && 0 <= r.val0 < Shl(1, r.preshift)
    && (r.n == 0 ==> r.part == 0 && (r.state == Start ==> r == Blank(Start)))
  }

  /** Before the first coefficient ends, the row's value is symbolic in the incoming one. */
  lemma ExtendSymbolic(r: Row, s: State, v: int, bits: seq<Bit>, bit: Bit)
    requires |bits| < 8 && Proper(Config(s, v)) && Summarises(r, s, v, bits) && r.n == 0
    ensures Summarises(Extend(r, bit), s, v, bits + [bit])
  {
    var c := Config(s, v);
    RunEmitAppend(c, bits, [bit]);
    RunStaysProper(c, bits);
    var d := Run(c, bits);
    assert Run(d, [bit]) == Next(d, bit) && Emit(d, [bit]) == Output(d, bit);
    assert Emit(c, bits) == [] by {
      assert Stored(r, v)[..0] == [];
    }
    var q := Extend(r, bit);
    assert Stored(q, v)[..q.n] == Output(d, bit);
    assert Shl(1, r.preshift + 1) == 2 * Shl(1, r.preshift);
    assert Shl(v, r.preshift + 1) == 2 * Shl(v, r.preshift);
  }

  lemma PutStores(r: Row, v: int, x: int)
    requires 1 <= r.n < 8 && UnusedAreZero(r)
    ensures Stored(Put(r, x), v)[..r.n + 1] == Stored(r, v)[..r.n] + [x]
    ensures UnusedAreZero(Put(r, x))
  {}

  /** After it, every later value is a constant of the row. */
  lemma ExtendConcrete(r: Row, s: State, v: int, bits: seq<Bit>, bit: Bit)
    requires |bits| < 8 && Proper(Config(s, v)) && Summarises(r, s, v, bits) && r.n > 0
    ensures Summarises(Extend(r, bit), s, v, bits + [bit])
  {
    var c := Config(s, v);
    RunEmitAppend(c, bits, [bit]);
    RunStaysProper(c, bits);
    var d := Run(c, bits);
    assert Run(d, [bit]) == Next(d, bit) && Emit(d, [bit]) == Output(d, bit);
    if Completes(r.state, bit) {
      PutStores(r, v, Value(d, bit));
      assert Extend(r, bit) == Put(r, Value(d, bit));
    } else {
      assert Stored(Extend(r, bit), v) == Stored(r, v);
    }
  }

  lemma ExtendSummarises(r: Row, s: State, v: int, bits: seq<Bit>, bit: Bit)
    requires |bits| < 8 && Proper(Config(s, v)) && Summarises(r, s, v, bits)
    ensures Summarises(Extend(r, bit), s, v, bits + [bit])
  {
    if r.n == 0 {
      ExtendSymbolic(r, s, v, bits, bit);
    } else {
      ExtendConcrete(r, s, v, bits, bit);
    }
  }

  lemma BlankSummarises(s: State, v: int)
    ensures Summarises(Blank(s), s, v, [])
  {
    assert Stored(Blank(s), v)[..0] == [];
  }

  lemma {:induction false} ExtendedSummarises(s: State, v: int, bits: seq<Bit>)
    requires |bits| <= 8 && Proper(Config(s, v))
    ensures Summarises(Extended(Blank(s), bits), s, v, bits)
  {
    hide Summarises, Extend, Blank;
    if bits == [] {
      BlankSummarises(s, v);
    } else {
      var n := |bits| - 1;
      ExtendedSummarises(s, v, bits[..n]);
      ExtendSummarises(Extended(Blank(s), bits[..n]), s, v, bits[..n], bits[n]);
      assert bits == bits[..n] + [bits[n]];
    }
  }

  /** The summary row of a byte does what eight single-bit steps do, whatever was accumulated before. */
  lemma SummaryIsEightSteps(s: State, v: int, b: Byte)
    requires Proper(Config(s, v))
    ensures Summarises(Summary(s, b), s, v, ByteBits(b))
  {
    ExtendedSummarises(s, v, ByteBits(b));
  }

  lemma SummaryIsNotIdle(s: State, b: Byte)
    ensures Summary(s, b).n == 0 ==> Summary(s, b).state != Start
  {
    hide Extend, BitAt;
    ExtendIsNotIdle(Extended(Blank(s), ByteBits(b)[..7]), BitAt(b, 0));
  }

  /** A bit that ends no coefficient does not lead to the start. */
  lemma ExtendIsNotIdle(r: Row, bit: Bit)
    ensures Extend(r, bit).n == 0 ==> Extend(r, bit).state != Start
  {}

  /** Unwanted stores are zeroes. */
  lemma UnusedStores(r: Row, v: int, i: nat)
    requires UnusedAreZero(r) && 1 <= i < 8 && r.n <= i
    ensures Stored(r, v)[i] == 0
  {}
}
