/** The coefficient code as a four-state machine that eats one bit at a time, and what a run of
    bits means for it: the values it emits and the configuration it ends in. */
module VlcMachine {
  type Byte = b: int | 0 <= b < 256
  type Bit = b: int | 0 <= b < 2

  datatype State = Start | Follow | Data | Sign
  datatype Config = Config(state: State, v: int)

  const INITIAL := Config(Start, 0)

  /** True when this bit completes a coefficient. */
  predicate Completes(s: State, bit: Bit) {
    s == Sign || (s == Start && bit == 1)
  }

  function Value(c: Config, bit: Bit): int {
    if c.state != Sign then 0 else if bit == 0 then c.v - 1 else 1 - c.v
  }

  function Next(c: Config, bit: Bit): Config {
    match c.state
    case Start => if bit == 1 then Config(Start, 0) else Config(Data, 1)
    case Follow => Config(if bit == 1 then Sign else Data, c.v)
    case Data => Config(Follow, 2 * c.v + bit)
    case Sign => Config(Start, 0)
  }

  function Output(c: Config, bit: Bit): seq<int> {
    if Completes(c.state, bit) then [Value(c, bit)] else []
  }

  function Run(c: Config, bits: seq<Bit>): Config
    decreases |bits|
  {
    if bits == [] then c else Run(Next(c, bits[0]), bits[1..])
  }

  function Emit(c: Config, bits: seq<Bit>): seq<int>
    decreases |bits|
  {
    if bits == [] then [] else Output(c, bits[0]) + Emit(Next(c, bits[0]), bits[1..])
  }

  /** How many 1-bits the configuration is from completing a coefficient. */
  function Rank(s: State): nat {
    match s
    case Start => 0
    case Sign => 0
    case Follow => 1
    case Data => 2
  }

  function BitAt(b: Byte, n: nat): Bit
    requires n < 8
  {
    match n
    case 0 => b % 2
    case 1 => b / 2 % 2
    case 2 => b / 4 % 2
    case 3 => b / 8 % 2
    case 4 => b / 16 % 2
    case 5 => b / 32 % 2
    case 6 => b / 64 % 2
    case _ => b / 128 % 2
  }

  function ByteBits(b: Byte): seq<Bit> {
    [BitAt(b, 7), BitAt(b, 6), BitAt(b, 5), BitAt(b, 4), BitAt(b, 3), BitAt(b, 2), BitAt(b, 1), BitAt(b, 0)]
  }

  /** Where a reader stands: the next byte, and the next bit in it, most significant first. */
  datatype Pos = Pos(byte: nat, bit: nat) {
    predicate In(block: seq<Byte>) {
      byte <= |block| && bit < 8
    }
  }

  const ORIGIN := Pos(0, 7)

  /** The next bit; past the end of the block every bit is 1. */
  function Peek(block: seq<Byte>, p: Pos): Bit
    requires p.In(block)
  {
    if p.byte < |block| then BitAt(block[p.byte], p.bit) else 1
  }

  function Advance(block: seq<Byte>, p: Pos): (q: Pos)
    requires p.In(block)
    ensures q.In(block)
  {
    if p.byte == |block| then p else if p.bit == 0 then Pos(p.byte + 1, 7) else Pos(p.byte, p.bit - 1)
  }

  /** The first n coefficients that the block yields from p on. */
  function Stream(block: seq<Byte>, c: Config, p: Pos, n: nat): (r: seq<int>)
    requires p.In(block)
    ensures |r| == n
    decreases n, |block| - p.byte, p.bit, Rank(c.state)
  {
    if n == 0 then []
    else
      var bit := Peek(block, p);
      if Completes(c.state, bit) then [Value(c, bit)] + Stream(block, Next(c, bit), Advance(block, p), n - 1)
      else Stream(block, Next(c, bit), Advance(block, p), n)
  }

  /** The reading position v is 0 exactly between coefficients. */
  ghost predicate Proper(c: Config) {
    if c.state == Start then c.v == 0 else c.v >= 1
  }

  lemma {:induction false} RunStaysProper(c: Config, bits: seq<Bit>)
    requires Proper(c)
    ensures Proper(Run(c, bits))
    decreases |bits|
  {
    if bits != [] {
      RunStaysProper(Next(c, bits[0]), bits[1..]);
    }
  }

  /** Only a run of one-bit codes emits a value for every bit. */
  lemma {:induction false} FullEmission(c: Config, bits: seq<Bit>)
    ensures |Emit(c, bits)| <= |bits|
    ensures bits != [] && |Emit(c, bits)| == |bits| ==> Run(c, bits).state == Start
    decreases |bits|
  {
    if bits != [] {
      FullEmission(Next(c, bits[0]), bits[1..]);
    }
  }

  lemma {:induction false} RunEmitAppend(c: Config, a: seq<Bit>, b: seq<Bit>)
    ensures Run(c, a + b) == Run(Run(c, a), b)
    ensures Emit(c, a + b) == Emit(c, a) + Emit(Run(c, a), b)
    decreases |a|
  {
    if a == [] {
      assert a + b == b;
    } else {
      assert (a + b)[0] == a[0] && (a + b)[1..] == a[1..] + b;
      RunEmitAppend(Next(c, a[0]), a[1..], b);
    }
  }

  function Skip(block: seq<Byte>, p: Pos, k: nat): (q: Pos)
    requires p.In(block)
    ensures q.In(block)
    decreases k
  {
    if k == 0 then p else Skip(block, Advance(block, p), k - 1)
  }

  /** The block has these bits at p. */
  predicate HasBits(block: seq<Byte>, p: Pos, bits: seq<Bit>)
    requires p.In(block)
    decreases |bits|
  {
    bits == [] || (Peek(block, p) == bits[0] && HasBits(block, Advance(block, p), bits[1..]))
  }

  /** Reading some bits yields what they emit, then whatever the rest of the block yields. */
  lemma {:induction false} StreamSplit(block: seq<Byte>, c: Config, p: Pos, bits: seq<Bit>, n: nat)
    requires p.In(block) && HasBits(block, p, bits)
    ensures |Emit(c, bits)| >= n ==> Stream(block, c, p, n) == Emit(c, bits)[..n]
    ensures |Emit(c, bits)| < n ==>
              Stream(block, c, p, n)
              == Emit(c, bits) + Stream(block, Run(c, bits), Skip(block, p, |bits|), n - |Emit(c, bits)|)
    decreases |bits|
  {
    if bits != [] && n > 0 {
      StreamSplit(block, Next(c, bits[0]), Advance(block, p), bits[1..],
                  if Completes(c.state, bits[0]) then n - 1 else n);
    }
  }

  lemma {:induction false} ZeroTail(block: seq<Byte>, p: Pos, n: nat)
    requires p.In(block) && p.byte == |block|
    ensures Stream(block, INITIAL, p, n) == seq(n, i => 0)
    decreases n
  {
    if n > 0 {
      ZeroTail(block, p, n - 1);
      assert seq(n, i => 0) == [0] + seq(n - 1, i => 0);
    }
  }

  /** What the implicit 1-bits make of a code that the end of the block cut off. */
  function Dangling(c: Config): int {
    match c.state
    case Start => 0
    case Data => -(2 * c.v)
    case _ => 1 - c.v
  }

  lemma DanglingTail(block: seq<Byte>, c: Config, p: Pos, n: nat)
    requires Proper(c) && n > 0 && p.In(block) && p.byte == |block|
    ensures Stream(block, c, p, n) == [Dangling(c)] + seq(n - 1, i => 0)
  {
    ZeroTail(block, p, n - 1);
    var d := Next(c, 1);
    var e := Next(d, 1);
    match c.state
    case Start =>
    case Sign =>
    case Follow => assert Stream(block, c, p, n) == Stream(block, d, p, n);
    case Data => assert Stream(block, c, p, n) == Stream(block, d, p, n) == Stream(block, e, p, n);
  }

  /** The lowest n + 1 bits of a byte, highest first. */
  function LowBits(b: Byte, n: nat): seq<Bit>
    requires n < 8
  {
    [BitAt(b, n)] + if n == 0 then [] else LowBits(b, n - 1)
  }

  lemma {:induction false} BlockHasLowBits(block: seq<Byte>, k: nat, n: nat)
    requires k < |block| && n < 8
    ensures HasBits(block, Pos(k, n), LowBits(block[k], n))
    ensures |LowBits(block[k], n)| == n + 1 && Skip(block, Pos(k, n), n + 1) == Pos(k + 1, 7)
  {
    if n > 0 {
      BlockHasLowBits(block, k, n - 1);
      assert LowBits(block[k], n)[1..] == LowBits(block[k], n - 1);
    }
  }

  lemma ByteIsLowBits(b: Byte)
    ensures LowBits(b, 7) == ByteBits(b)
  {
    var low := [BitAt(b, 1), BitAt(b, 0)];
    assert LowBits(b, 1) == low;
    assert LowBits(b, 3) == [BitAt(b, 3), BitAt(b, 2)] + LowBits(b, 1);
    assert LowBits(b, 5) == [BitAt(b, 5), BitAt(b, 4)] + LowBits(b, 3);
    assert LowBits(b, 7) == [BitAt(b, 7), BitAt(b, 6)] + LowBits(b, 5);
  }

  /** An empty block and a block of one byte 0xFF read the same. */
  lemma {:induction false} AllOnes(c: Config, p: Pos, n: nat)
    requires p.In([0xFF])
    ensures Stream([0xFF], c, p, n) == Stream([], c, ORIGIN, n)
    decreases n, 1 - p.byte, p.bit, Rank(c.state)
  {
    if n > 0 {
      assert Peek([0xFF], p) == 1;
      AllOnes(Next(c, 1), Advance([0xFF], p), if Completes(c.state, 1) then n - 1 else n);
    }
  }
}
