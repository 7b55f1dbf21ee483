/** The byte-step decoder against the bit-serial one, and both against the code they decode. */
module VlcTheorems {
  import opened VlcMachine
  import opened VlcRows
  import opened VlcDecode

  // ----- when the two decoders leave the same output

  lemma SkippedIsZero(block: seq<Byte>, n: nat, i: nat)
    requires i < n && Skipped(block, n, i)
    ensures Coefficients(block, n)[i] == 0
  {
    hide *;
    var padded := Padded(block);
    var k := |padded| - 1;
    var c, r := ConfigAt(padded, k), Entry(ConfigAt(padded, k).state, padded[k]);
    RowStep(padded, k, c, r);
    CoefficientsEnd(block, n, EmittedBy(padded, k + 1), ConfigAt(padded, k + 1));
    DanglingAtStart(ConfigAt(padded, k + 1));
    SkippedFacts(block, n, i);
  }

  lemma SkippedFacts(block: seq<Byte>, n: nat, i: nat)
    requires Skipped(block, n, i)
    ensures var padded := Padded(block);
            && |EmittedBy(padded, |padded|)| < n
            && |EmittedBy(padded, |padded| - 1)| + 8 <= i
  {}

  /** The byte-step decoder leaves what the bit-serial one leaves exactly when the buffer already
      holds zeroes in the slots it leaves alone. */
  lemma FastEqualsSlowExactly(block: seq<Byte>, n: nat, before: seq<int>, after: seq<int>)
    requires Decoded(block, n, before, after)
    ensures after[..n] == Coefficients(block, n)
       <==> forall i :: 0 <= i < n && Skipped(block, n, i) ==> before[i] == 0
  {
    hide Skipped, Coefficients;
    forall i: nat | i < n && Skipped(block, n, i)
      ensures Coefficients(block, n)[i] == 0
    {
      SkippedIsZero(block, n, i);
    }
    if after[..n] == Coefficients(block, n) {
      forall i | 0 <= i < n && Skipped(block, n, i) ensures before[i] == 0 {
        assert after[..n][i] == after[i];
      }
    }
  }

  /** A buffer that is zero at entry is decoded exactly. */
  lemma FastEqualsSlowOnZeroes(block: seq<Byte>, n: nat, before: seq<int>, after: seq<int>)
    requires Decoded(block, n, before, after)
    requires forall i :: 0 <= i < n ==> before[i] == 0
    ensures after[..n] == Coefficients(block, n)
  {
    hide Decoded, Coefficients, Skipped;
    DecodedLength(block, n, before, after);
    FastEqualsSlowExactly(block, n, before, after);
  }

  lemma DecodedLength(block: seq<Byte>, n: nat, before: seq<int>, after: seq<int>)
    requires Decoded(block, n, before, after)
    ensures n <= |after| == |before|
  {}

  /** On other buffers it is not: of the block 0xFF it leaves slots 8 to 11 alone. */
  lemma DirtyBufferShows(before: seq<int>, after: seq<int>)
    requires Decoded([0xFF], 12, before, after) && before[8] == 7
    ensures after[8] == 7 && Coefficients([0xFF], 12)[8] == 0
  {
    hide Coefficients, Summary;
    var block: seq<Byte> := [0xFF];
    assert Head(block) == 0 by {
      assert EmittedBy(block, 0) == [];
    }
    assert Total(block) == 8 by {
      EightOnes();
      assert EmittedBy(block, 1) == EmittedBy(block, 0) + Emit(INITIAL, ByteBits(0xFF));
    }
    assert Skipped(block, 12, 8);
    SkippedIsZero(block, 12, 8);
  }

  /** An empty block is read as eight 1-bits, which are eight zeroes. */
  lemma EmptyBlock()
    ensures Head([]) == 0 && Total([]) == 8
  {
    assert Padded([]) == [0xFF];
    assert Head([]) == 0 by {
      assert EmittedBy(Padded([]), 0) == [];
    }
    EightOnes();
    assert EmittedBy([0xFF], 1) == EmittedBy([0xFF], 0) + Emit(INITIAL, ByteBits(0xFF));
  }

  lemma EightOnes()
    ensures |Emit(INITIAL, ByteBits(0xFF))| == 8
  {
    assert ByteBits(0xFF) == [1, 1, 1, 1] + [1, 1, 1, 1];
    RunEmitAppend(INITIAL, [1, 1, 1, 1], [1, 1, 1, 1]);
    FourOnes();
  }

  lemma FourOnes()
    ensures Emit(INITIAL, [1, 1, 1, 1]) == [0, 0, 0, 0] && Run(INITIAL, [1, 1, 1, 1]) == INITIAL
  {
    assert [1, 1] + [1, 1] == [1, 1, 1, 1];
    RunEmitAppend(INITIAL, [1, 1], [1, 1]);
    assert [1] + [1] == [1, 1];
    RunEmitAppend(INITIAL, [1], [1]);
  }

  // ----- the code: interleaved exp-Golomb, then a sign when the value is not zero

  /** The bits of m below its leading one, each announced by a 0. */
  function Follows(m: nat): seq<Bit>
    requires m >= 1
  {
    if m == 1 then [] else Follows(m / 2) + [0, m % 2]
  }

  function EncodeUint(u: nat): seq<Bit> {
    Follows(u + 1) + [1]
  }

  function Encode(v: int): seq<Bit> {
    if v == 0 then EncodeUint(0) else if v > 0 then EncodeUint(v) + [0] else EncodeUint(-v) + [1]
  }

  function EncodeAll(vs: seq<int>): seq<Bit>
    decreases |vs|
  {
    if vs == [] then [] else Encode(vs[0]) + EncodeAll(vs[1..])
  }

  lemma RunTwo(c: Config, a: Bit, b: Bit)
    ensures Run(c, [a, b]) == Next(Next(c, a), b)
    ensures Emit(c, [a, b]) == Output(c, a) + Output(Next(c, a), b)
  {
    assert [a, b][1..] == [b] && [b][1..] == [];
    assert Run(Next(c, a), [b]) == Next(Next(c, a), b);
    assert Emit(Next(c, a), [b]) == Output(Next(c, a), b);
  }

  lemma {:induction false} FollowsLoads(m: nat)
    requires m >= 2
    ensures Run(INITIAL, Follows(m)) == Config(Follow, m)
    ensures Emit(INITIAL, Follows(m)) == []
  {
    var c := if m < 4 then INITIAL else Config(Follow, m / 2);
    if m >= 4 {
      FollowsLoads(m / 2);
    }
    assert Run(INITIAL, Follows(m / 2)) == c && Emit(INITIAL, Follows(m / 2)) == [];
    RunEmitAppend(INITIAL, Follows(m / 2), [0, m % 2]);
    RunTwo(c, 0, m % 2);
  }

  lemma EncodeEmits(v: int)
    ensures Emit(INITIAL, Encode(v)) == [v] && Run(INITIAL, Encode(v)) == INITIAL
  {
    if v == 0 {
      assert EncodeUint(0) == [1] by {
        assert Follows(1) == [];
      }
      assert [1][1..] == [];
      assert Run(INITIAL, [1]) == INITIAL && Emit(INITIAL, [1]) == [0];
    } else {
      var u, s := if v > 0 then v else -v, if v > 0 then 0 else 1;
      FollowsLoads(u + 1);
      RunEmitAppend(INITIAL, Follows(u + 1), [1, s]);
      assert Encode(v) == Follows(u + 1) + [1, s];
      RunTwo(Config(Follow, u + 1), 1, s);
    }
  }

  lemma {:induction false} EncodeAllEmits(vs: seq<int>)
    ensures Emit(INITIAL, EncodeAll(vs)) == vs
    decreases |vs|
  {
    if vs != [] {
      hide Encode;
      EncodeEmits(vs[0]);
      RunEmitAppend(INITIAL, Encode(vs[0]), EncodeAll(vs[1..]));
      EncodeAllEmits(vs[1..]);
    }
  }

  /** Decoding a block that starts with the code of a list of values gives the list. */
  lemma DecodeEncode(block: seq<Byte>, vs: seq<int>)
    requires HasBits(block, ORIGIN, EncodeAll(vs))
    ensures Coefficients(block, |vs|) == vs
  {
    hide EncodeAll, HasBits, Stream, Emit;
    EncodeAllEmits(vs);
    StreamSplit(block, INITIAL, ORIGIN, EncodeAll(vs), |vs|);
  }

  // ----- the reader of configuration data, and the coefficients as unsigned values with signs

  function UintFrom(block: seq<Byte>, p: Pos, r: nat): (u: (nat, Pos))
    requires p.In(block) && r >= 1
    ensures u.1.In(block) && u.0 >= r - 1
    decreases |block| - p.byte, p.bit
  {
    if Peek(block, p) == 1 then (r - 1, Advance(block, p))
    else
      var q := Advance(block, p);
      UintFrom(block, Advance(block, q), 2 * r + Peek(block, q))
  }

  function Signed(sign: Bit, u: int): int {
    if sign == 0 then u else -u
  }

  /** read_bool and read_uint: a byte and a bit number, moved along; true past the end. */
  method ReadBool(block: seq<Byte>, data: nat, bitnum: nat) returns (bit: Bit, data': nat, bitnum': nat)
    requires Pos(data, bitnum).In(block)
    ensures Pos(data', bitnum') == Advance(block, Pos(data, bitnum)) && bit == Peek(block, Pos(data, bitnum))
  {
    if data >= |block| {
      return 1, data, bitnum;
    }
    bit := BitAt(block[data], bitnum);
    if bitnum == 0 {
      data', bitnum' := data + 1, 7;
    } else {
      data', bitnum' := data, bitnum - 1;
    }
  }

  method ReadUint(block: seq<Byte>, data: nat, bitnum: nat) returns (u: nat, data': nat, bitnum': nat)
    requires Pos(data, bitnum).In(block)
    ensures (u, Pos(data', bitnum')) == UintFrom(block, Pos(data, bitnum), 1)
  {
    hide Peek, Advance;
    var r, bit := 1, 0;
    data', bitnum' := data, bitnum;
    bit, data', bitnum' := ReadBool(block, data', bitnum');
    ghost var p := Pos(data, bitnum);
    while bit != 1
      invariant r >= 1 && p.In(block)
      invariant Pos(data', bitnum') == Advance(block, p) && bit == Peek(block, p)
      invariant UintFrom(block, p, r) == UintFrom(block, Pos(data, bitnum), 1)
      decreases |block| - p.byte, p.bit
    {
      ZeroIsInside(block, p);
      ghost var q := Pos(data', bitnum');
      bit, data', bitnum' := ReadBool(block, data', bitnum');
      r := 2 * r;
      if bit == 1 {
        r := r + 1;
      }
      p := Pos(data', bitnum');
      bit, data', bitnum' := ReadBool(block, data', bitnum');
    }
    u := r - 1;
  }

  /** A 0 can only be read inside the block, so two more steps leave less of it. */
  lemma ZeroIsInside(block: seq<Byte>, p: Pos)
    requires p.In(block) && Peek(block, p) == 0
    ensures var q := Advance(block, Advance(block, p));
            q.byte <= |block| && (q.byte > p.byte || (q.byte == p.byte && q.bit < p.bit)) && p.byte < |block|
  {}

  lemma {:induction false} FollowReadsUint(block: seq<Byte>, p: Pos, r: nat, n: nat)
    requires p.In(block) && r >= 2 && n > 0
    ensures var (u, q) := UintFrom(block, p, r);
            Stream(block, Config(Follow, r), p, n)
            == [Signed(Peek(block, q), u)] + Stream(block, INITIAL, Advance(block, q), n - 1)
    decreases |block| - p.byte, p.bit
  {
    var q := Advance(block, p);
    if Peek(block, p) == 1 {
      assert Stream(block, Config(Follow, r), p, n) == Stream(block, Config(Sign, r), q, n);
    } else {
      var s := Advance(block, q);
      assert Stream(block, Config(Follow, r), p, n) == Stream(block, Config(Data, r), q, n);
      assert Stream(block, Config(Data, r), q, n) == Stream(block, Config(Follow, 2 * r + Peek(block, q)), s, n);
      FollowReadsUint(block, s, 2 * r + Peek(block, q), n);
    }
  }

  /** The bit-serial decoder reads an unsigned value, then a sign bit unless the value is 0. */
  lemma CoefficientIsUintAndSign(block: seq<Byte>, p: Pos, n: nat)
    requires p.In(block) && n > 0
    ensures var (u, q) := UintFrom(block, p, 1);
            Stream(block, INITIAL, p, n) ==
            if u == 0 then [0] + Stream(block, INITIAL, q, n - 1)
            else [Signed(Peek(block, q), u)] + Stream(block, INITIAL, Advance(block, q), n - 1)
  {
    if Peek(block, p) == 0 {
      var q := Advance(block, p);
      var s := Advance(block, q);
      assert Stream(block, INITIAL, p, n) == Stream(block, Config(Data, 1), q, n);
      assert Stream(block, Config(Data, 1), q, n) == Stream(block, Config(Follow, 2 + Peek(block, q)), s, n);
      FollowReadsUint(block, s, 2 + Peek(block, q), n);
    }
  }

  // ----- a block with one coefficient that is not zero

  lemma EncodeOne()
    ensures Encode(1) == [0, 0, 1, 0]
  {
    assert Follows(1) == [] && Follows(2) == Follows(1) + [0, 0];
  }

  lemma OneAndZeroes(bits: seq<Bit>)
    requires bits == [0, 0, 1, 0] + [1, 1, 1, 1]
    ensures Emit(INITIAL, bits) == [1] + [0, 0, 0, 0] && Run(INITIAL, bits) == INITIAL
  {
    hide Emit, Run, Encode;
    EncodeOne();
    EncodeEmits(1);
    FourOnes();
    RunEmitAppend(INITIAL, [0, 0, 1, 0], [1, 1, 1, 1]);
  }

  lemma Zeroes(bits: seq<Bit>)
    requires bits == [1, 1, 1, 1] + [1, 1, 1, 1]
    ensures Emit(INITIAL, bits) == [0, 0, 0, 0] + [0, 0, 0, 0] && Run(INITIAL, bits) == INITIAL
  {
    hide Emit, Run;
    FourOnes();
    RunEmitAppend(INITIAL, [1, 1, 1, 1], [1, 1, 1, 1]);
  }

  /** Eight zeroes, a one, and four zeroes. */
  lemma TwoBytes(block: seq<Byte>)
    requires |block| == 2 && ByteBits(block[0]) == [1, 1, 1, 1] + [1, 1, 1, 1]
    requires ByteBits(block[1]) == [0, 0, 1, 0] + [1, 1, 1, 1]
    ensures |EmittedBy(block, 1)| == 8 && ConfigAt(block, 2) == INITIAL
    ensures EmittedBy(block, 2) == [0, 0, 0, 0] + [0, 0, 0, 0] + ([1] + [0, 0, 0, 0])
  {
    hide Emit, Run, ByteBits;
    Zeroes(ByteBits(block[0]));
    OneAndZeroes(ByteBits(block[1]));
    NothingRead(block);
    assert ConfigAt(block, 1) == Run(ConfigAt(block, 0), ByteBits(block[0]));
    assert ConfigAt(block, 2) == Run(ConfigAt(block, 1), ByteBits(block[1]));
    assert EmittedBy(block, 1) == EmittedBy(block, 0) + Emit(ConfigAt(block, 0), ByteBits(block[0]));
    assert EmittedBy(block, 2) == EmittedBy(block, 1) + Emit(ConfigAt(block, 1), ByteBits(block[1]));
  }

  lemma BitsOf2F()
    ensures ByteBits(0x2F) == [0, 0, 1, 0] + [1, 1, 1, 1]
  {}

  lemma BitsOfFF()
    ensures ByteBits(0xFF) == [1, 1, 1, 1] + [1, 1, 1, 1]
  {}

  lemma BlockWithOne(block: seq<Byte>, n: nat)
    requires n >= 9 && block == [0xFF, 0x2F]
    ensures Coefficients(block, n) == seq(n, i => if i == 8 then 1 else 0) && !Skipped(block, n, 8)
  {
    hide ByteBits, EmittedBy, ConfigAt, Stream, Coefficients;
    BitsOf2F();
    BitsOfFF();
    TwoBytes(block);
    ReadBytes(block, 2, n);
    PaddedLength(block);
    if n > 13 {
      ZeroTail(block, Pos(2, 7), n - 13);
    }
  }

  lemma EmptyIsZero(n: nat)
    ensures Coefficients([], n) == seq(n, i => 0)
  {
    ZeroTail([], ORIGIN, n);
  }
}
