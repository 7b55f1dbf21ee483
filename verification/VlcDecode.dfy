/** The two coefficient decoders: one bit at a time, and one byte at a time through the table. */
module VlcDecode {
  import opened VlcMachine
  import opened VlcRows

  /** What a coded block means: its first n coefficients. */
  function Coefficients(block: seq<Byte>, n: nat): (r: seq<int>)
    ensures |r| == n
  {
    Stream(block, INITIAL, ORIGIN, n)
  }

  method DecodeSimple(idata: seq<Byte>, odata: array<int>, olength: nat)
    requires olength <= odata.Length
    modifies odata
    ensures forall i :: 0 <= i < olength ==> odata[i] == Coefficients(idata, olength)[i]
    ensures forall i :: olength <= i < odata.Length ==> odata[i] == old(odata[i])
  {
    hide Stream, Peek, Advance, Next, Completes, Value;
    var icounter, ocounter, bitN := 0, 0, 7;
    var c := INITIAL;
    ghost var out: seq<int> := [];
    while ocounter < olength
      invariant 0 <= icounter <= |idata| && 0 <= bitN < 8 && 0 <= ocounter <= olength
      invariant |out| == ocounter && forall i :: 0 <= i < ocounter ==> odata[i] == out[i]
      invariant out + Stream(idata, c, Pos(icounter, bitN), olength - ocounter) == Coefficients(idata, olength)
      invariant forall i :: olength <= i < odata.Length ==> odata[i] == old(odata[i])
      decreases olength - ocounter, |idata| - icounter, bitN, Rank(c.state)
    {
      ghost var p := Pos(icounter, bitN);
      StreamStep(idata, c, p, olength - ocounter);
      var bit: Bit;
      bit, icounter, bitN := NextBit(idata, icounter, bitN);
      if Completes(c.state, bit) {
        odata[ocounter] := Value(c, bit);
        ocounter := ocounter + 1;
        out := out + [Value(c, bit)];
      }
      c := Next(c, bit);
    }
  }

  /** The next bit, and the place after it. */
  method NextBit(idata: seq<Byte>, icounter: nat, bitN: nat) returns (bit: Bit, icounter': nat, bitN': nat)
    requires Pos(icounter, bitN).In(idata)
    ensures bit == Peek(idata, Pos(icounter, bitN)) && Pos(icounter', bitN') == Advance(idata, Pos(icounter, bitN))
    ensures icounter' <= |idata| && bitN' < 8
  {
    bit, icounter', bitN' := 1, icounter, bitN;
    if icounter < |idata| {
      bit := BitAt(idata[icounter], bitN);
      if bitN == 0 {
        icounter', bitN' := icounter + 1, 7;
      } else {
        bitN' := bitN - 1;
      }
    }
  }

  /** One bit of the stream; and bits that complete nothing do not go on for ever. */
  lemma StreamStep(block: seq<Byte>, c: Config, p: Pos, n: nat)
    requires p.In(block) && n > 0
    ensures var bit, q := Peek(block, p), Advance(block, p);
            && Stream(block, c, p, n) ==
               (if Completes(c.state, bit) then [Value(c, bit)] + Stream(block, Next(c, bit), q, n - 1)
                else Stream(block, Next(c, bit), q, n))
            && (!Completes(c.state, bit) ==>
                  || q.byte > p.byte || (q.byte == p.byte && q.bit < p.bit)
                  || (q == p && Rank(Next(c, bit).state) < Rank(c.state)))
  {}

  // ----- the byte-step decoder

  /** VLCLUT[(state << 8) + b] */
  function Entry(s: State, b: Byte): Row {
    Summary(s, b)
  }

  /** What is known at byte k of the block: the reader's configuration and the values so far. */
  function ConfigAt(block: seq<Byte>, k: nat): Config
    requires k <= |block|
  {
    if k == 0 then INITIAL else Run(ConfigAt(block, k - 1), ByteBits(block[k - 1]))
  }

  function EmittedBy(block: seq<Byte>, k: nat): seq<int>
    requires k <= |block|
  {
    if k == 0 then [] else EmittedBy(block, k - 1) + Emit(ConfigAt(block, k - 1), ByteBits(block[k - 1]))
  }

  lemma NothingRead(block: seq<Byte>)
    ensures ConfigAt(block, 0).state == Start && ConfigAt(block, 0).v == 0 && EmittedBy(block, 0) == []
  {}

  lemma {:induction false} ConfigIsProper(block: seq<Byte>, k: nat)
    requires k <= |block|
    ensures Proper(ConfigAt(block, k))
  {
    if k > 0 {
      ConfigIsProper(block, k - 1);
      RunStaysProper(ConfigAt(block, k - 1), ByteBits(block[k - 1]));
    }
  }

  /** Reading one whole byte. */
  lemma ByteSplit(block: seq<Byte>, c: Config, k: nat, n: nat, e: seq<int>)
    requires k < |block| && e == Emit(c, ByteBits(block[k]))
    ensures |e| >= n ==> Stream(block, c, Pos(k, 7), n) == e[..n]
    ensures |e| < n ==>
              Stream(block, c, Pos(k, 7), n)
              == e + Stream(block, Run(c, ByteBits(block[k])), Pos(k + 1, 7), n - |e|)
  {
    hide ByteBits, Emit, Run, Stream, LowBits, Skip;
    BlockHasLowBits(block, k, 7);
    ByteIsLowBits(block[k]);
    StreamSplit(block, c, Pos(k, 7), LowBits(block[k], 7), n);
  }

  /** The coefficients of a block are what its first k bytes emit, then what the rest yields. */
  lemma {:induction false} ReadBytes(block: seq<Byte>, k: nat, n: nat)
    requires k <= |block|
    ensures |EmittedBy(block, k)| >= n ==> Coefficients(block, n) == EmittedBy(block, k)[..n]
    ensures |EmittedBy(block, k)| < n ==>
              Coefficients(block, n)
              == EmittedBy(block, k) + Stream(block, ConfigAt(block, k), Pos(k, 7), n - |EmittedBy(block, k)|)
  {
    hide ByteBits, Emit, Run, Stream;
    if k > 0 {
      ReadBytes(block, k - 1, n);
      var c, out := ConfigAt(block, k - 1), EmittedBy(block, k - 1);
      if |out| < n {
        ByteSplit(block, c, k - 1, n - |out|, Emit(c, ByteBits(block[k - 1])));
      }
    }
  }

  /** One row does the work of one byte. */
  lemma RowStep(block: seq<Byte>, k: nat, c: Config, r: Row)
    requires k < |block| && c == ConfigAt(block, k) && r == Entry(c.state, block[k])
    ensures ConfigAt(block, k + 1) == Config(r.state, Partial(r, c.v))
    ensures r.n <= 8 && UnusedAreZero(r) && (r.n == 0 ==> r.state != Start) && (r.n == 8 ==> r.state == Start)
    ensures EmittedBy(block, k + 1) == EmittedBy(block, k) + Stored(r, c.v)[..r.n]
  {
    SummaryIsNotIdle(c.state, block[k]);
    FullEmission(c, ByteBits(block[k]));
    hide Summary, ByteBits, Run, Emit, Stored, Partial, UnusedAreZero;
    ConfigIsProper(block, k);
    SummaryIsEightSteps(c.state, c.v, block[k]);
  }

  /** An empty block is read as the single byte 0xFF. */
  function Padded(block: seq<Byte>): (r: seq<Byte>)
    ensures r != []
  {
    if block == [] then [0xFF] else block
  }

  lemma PaddedLength(block: seq<Byte>)
    ensures |Padded(block)| == if block == [] then 1 else |block|
    ensures block != [] ==> Padded(block) == block
  {}

  function FirstByte(block: seq<Byte>): (b: Byte)
    ensures b == Padded(block)[0]
  {
    if |block| > 0 then block[0] else 0xFF
  }

  lemma PaddedReadsTheSame(block: seq<Byte>, n: nat)
    ensures Coefficients(Padded(block), n) == Coefficients(block, n)
  {
    AllOnes(INITIAL, ORIGIN, n);
  }

  /** Coefficients completed before the last byte of the block, and by its end. */
  function Head(block: seq<Byte>): nat {
    |EmittedBy(Padded(block), |Padded(block)| - 1)|
  }

  function Total(block: seq<Byte>): nat {
    |EmittedBy(Padded(block), |Padded(block)|)|
  }

  function RoundUp4(n: nat): nat {
    (n + 4) / 4 * 4
  }

  /** The slots the byte-step decoder leaves alone: past the eight stored for the last byte, and
      before the multiple of four at which it starts to clear. */
  predicate Skipped(block: seq<Byte>, n: nat, i: int) {
    Total(block) < n && Head(block) + 8 <= i < RoundUp4(Total(block))
  }

  lemma {:induction false} EmittedGrows(block: seq<Byte>, j: nat, k: nat)
    requires j <= k <= |block|
    ensures EmittedBy(block, j) <= EmittedBy(block, k)
  {
    if j < k {
      EmittedGrows(block, j, k - 1);
    }
  }

  /** No slot of the output is left alone. */
  predicate Clean(block: seq<Byte>, n: nat) {
    n <= Total(block) || n <= Head(block) + 8 || RoundUp4(Total(block)) <= Head(block) + 8
  }

  lemma CleanIsNothingSkipped(block: seq<Byte>, n: nat)
    ensures Clean(block, n) <==> forall i :: 0 <= i < n ==> !Skipped(block, n, i)
  {
    if !Clean(block, n) {
      assert Skipped(block, n, Head(block) + 8);
    }
  }

  /** When the bytes before k complete the output, nothing after them matters. */
  lemma EnoughIsEnough(idata: seq<Byte>, k: nat, n: nat)
    requires k < |Padded(idata)| && n <= |EmittedBy(Padded(idata), k)|
    ensures Coefficients(idata, n) == EmittedBy(Padded(idata), k)[..n] && Total(idata) >= n
  {
    PaddedReadsTheSame(idata, n);
    ReadBytes(Padded(idata), k, n);
    EmittedGrows(Padded(idata), k, |Padded(idata)|);
  }

  /** The eight stores made for every row, wanted or not. */
  method StoreEight(odata: array<int>, at: nat, r: Row, v: int)
    requires at + 8 <= odata.Length
    modifies odata
    ensures forall i :: 0 <= i < 8 ==> odata[at + i] == Stored(r, v)[i]
    ensures forall i :: 0 <= i < odata.Length && !(at <= i < at + 8) ==> odata[i] == old(odata[i])
  {
    odata[at] := (Shl(v, r.preshift) + r.val0 - 1) * r.sgn;
    odata[at + 1] := r.val1;
    odata[at + 2] := r.val2;
    odata[at + 3] := r.val3;
    odata[at + 4] := r.val4;
    odata[at + 5] := r.val5;
    odata[at + 6] := r.val6;
    odata[at + 7] := r.val7;
  }

  /** What the buffer ends up as: the coefficients, except in the slots that are left alone. */
  ghost predicate Decoded(block: seq<Byte>, n: nat, before: seq<int>, after: seq<int>) {
    && n <= |after| == |before|
    && forall i :: 0 <= i < n ==> after[i] == if Skipped(block, n, i) then before[i] else Coefficients(block, n)[i]
  }

  /** After the last row: the value of a code that was cut off, then zeroes in fours. */
  method CutOff(odata: array<int>, olength: nat, total: nat, c: Config)
    requires total < olength && olength + 8 <= odata.Length
    modifies odata
    ensures odata[total] == if c.state == Start then old(odata[total]) else Dangling(c)
    ensures forall i :: 0 <= i < total || (total < i < RoundUp4(total) && i < odata.Length) ==>
              odata[i] == old(odata[i])
    ensures forall i :: RoundUp4(total) <= i < olength ==> odata[i] == 0
  {
    match c.state {
      case Data => odata[total] := -(2 * c.v + 1 - 1);
      case Follow => odata[total] := -(c.v - 1);
      case Sign => odata[total] := -(c.v - 1);
      case Start =>
    }
    var ocounter := RoundUp4(total);
    ghost var held := odata[..];
    while ocounter < olength
      invariant RoundUp4(total) <= ocounter
      invariant forall i :: 0 <= i < RoundUp4(total) && i < odata.Length ==> odata[i] == held[i]
      invariant forall i :: RoundUp4(total) <= i < ocounter && i < odata.Length ==> odata[i] == 0
    {
      odata[ocounter], odata[ocounter + 1], odata[ocounter + 2], odata[ocounter + 3] := 0, 0, 0, 0;
      ocounter := ocounter + 4;
    }
  }

  lemma CoefficientsEnd(idata: seq<Byte>, n: nat, out: seq<int>, c: Config)
    requires out == EmittedBy(Padded(idata), |Padded(idata)|) && c == ConfigAt(Padded(idata), |Padded(idata)|)
    ensures |out| >= n ==> Coefficients(idata, n) == out[..n]
    ensures |out| < n ==> Coefficients(idata, n) == out + [Dangling(c)] + seq(n - |out| - 1, i => 0)
  {
    hide Stream, ConfigAt, EmittedBy, Coefficients, Padded, Dangling;
    var block := Padded(idata);
    PaddedReadsTheSame(idata, n);
    ReadBytes(block, |block|, n);
    ConfigIsProper(block, |block|);
    if |out| < n {
      DanglingTail(block, c, Pos(|block|, 7), n - |out|);
    }
  }

  /** From the last row on: the coefficients it completes, and the end of the output. */
  method DecodeTail(ghost idata: seq<Byte>, odata: array<int>, olength: nat, at: nat, e: Row, acc: int)
    requires at < olength && olength + 8 <= odata.Length
    requires ConfigAt(Padded(idata), |Padded(idata)| - 1).v == acc
    requires e == Entry(ConfigAt(Padded(idata), |Padded(idata)| - 1).state, Padded(idata)[|Padded(idata)| - 1])
    requires at == Head(idata)
    requires forall i :: 0 <= i < at ==> odata[i] == EmittedBy(Padded(idata), |Padded(idata)| - 1)[i]
    modifies odata
    ensures Decoded(idata, olength, old(odata[..]), odata[..])
  {
    hide Entry, Stored, Partial, UnusedAreZero, ConfigAt, EmittedBy, Coefficients, Padded, Dangling;
    ghost var block := Padded(idata);
    ghost var k := |block| - 1;
    ghost var out, c := EmittedBy(block, k + 1), ConfigAt(block, k + 1);
    RowStep(block, k, ConfigAt(block, k), e);
    CoefficientsEnd(idata, olength, out, c);
    StoreEight(odata, at, e, acc);
    assert forall i :: 0 <= i < at + e.n ==> odata[i] == out[i] by {
      forall i | at <= i < at + e.n ensures odata[at + (i - at)] == out[i] {}
    }
    forall i | at + e.n <= i < at + 8 && at < i ensures odata[i] == 0 {
      UnusedStores(e, acc, i - at);
      assert odata[at + (i - at)] == Stored(e, acc)[i - at];
    }
    if at + e.n < olength {
      assert c.state == Start ==> Dangling(c) == 0 by {
        DanglingAtStart(c);
      }
      CutOff(odata, olength, at + e.n, Config(e.state, Partial(e, acc)));
    }
    forall i | 0 <= i < olength
      ensures odata[i] == if Skipped(idata, olength, i) then old(odata[i]) else Coefficients(idata, olength)[i]
    {
      if i == |out| {
        if e.n < 8 && e.n > 0 {
          assert i < at + 8;
        }
      } else if i < |out| {
      } else if i < RoundUp4(|out|) {
      } else {
      }
    }
  }

  lemma DanglingAtStart(c: Config)
    ensures c.state == Start ==> Dangling(c) == 0
  {}

  /** The stores for byte k put its coefficients behind those of the bytes before it. */
  method StoreRow(ghost block: seq<Byte>, ghost k: nat, odata: array<int>, at: nat, e: Row, v: int)
    requires k < |block| && at + 8 <= odata.Length
    requires ConfigAt(block, k).v == v && e == Entry(ConfigAt(block, k).state, block[k])
    requires at == |EmittedBy(block, k)|
    requires forall i :: 0 <= i < at ==> odata[i] == EmittedBy(block, k)[i]
    modifies odata
    ensures ConfigAt(block, k + 1) == Config(e.state, Partial(e, v))
    ensures |EmittedBy(block, k + 1)| == at + e.n <= at + 8
    ensures forall i :: 0 <= i < at + e.n ==> odata[i] == EmittedBy(block, k + 1)[i]
    ensures forall i :: at + 8 <= i < odata.Length ==> odata[i] == old(odata[i])
  {
    hide Entry, Stored, Partial, UnusedAreZero, ConfigAt, EmittedBy;
    RowStep(block, k, ConfigAt(block, k), e);
    StoreEight(odata, at, e, v);
    forall i | at <= i < at + e.n ensures odata[i] == EmittedBy(block, k + 1)[i] {
      assert odata[at + (i - at)] == Stored(e, v)[i - at];
    }
  }

  /** All bytes but the last, or as many as complete the output. */
  method DecodeBytes(idata: seq<Byte>, odata: array<int>, olength: nat)
    returns (icounter: nat, ocounter: nat, next: Row, v: int)
    requires olength + 8 <= odata.Length
    modifies odata
    ensures 1 <= icounter <= |Padded(idata)| && (icounter < |idata| ==> ocounter >= olength)
    ensures ConfigAt(Padded(idata), icounter - 1).v == v
    ensures next == Entry(ConfigAt(Padded(idata), icounter - 1).state, Padded(idata)[icounter - 1])
    ensures ocounter == |EmittedBy(Padded(idata), icounter - 1)| <= olength + 7
    ensures forall i :: 0 <= i < ocounter ==> odata[i] == EmittedBy(Padded(idata), icounter - 1)[i]
    ensures forall i :: ocounter + 8 <= i < odata.Length ==> odata[i] == old(odata[i])
    ensures forall k: nat :: k + 1 < icounter ==> |EmittedBy(Padded(idata), k)| < olength
  {
    hide *;
    ghost var block := Padded(idata);
    PaddedLength(idata);
    NothingRead(block);
    icounter, ocounter, v := 1, 0, 0;
    next := Entry(Start, FirstByte(idata));
    while icounter < |idata| && ocounter < olength
      invariant 1 <= icounter <= |block|
      invariant ConfigAt(block, icounter - 1).v == v
      invariant next == Entry(ConfigAt(block, icounter - 1).state, block[icounter - 1])
      invariant ocounter == |EmittedBy(block, icounter - 1)| <= olength + 7
      invariant forall i :: 0 <= i < ocounter ==> odata[i] == EmittedBy(block, icounter - 1)[i]
      invariant forall i :: ocounter + 8 <= i < odata.Length ==> odata[i] == old(odata[i])
      invariant forall k: nat :: k + 1 < icounter ==> |EmittedBy(block, k)| < olength
    {
      var e := next;
      StoreRow(block, icounter - 1, odata, ocounter, e, v);
      next := Entry(e.state, idata[icounter]);
      icounter := icounter + 1;
      v := Partial(e, v);
      ocounter := ocounter + e.n;
    }
  }

  /** The bytes left over: those before them, but for the one that is looked ahead at, complete the output,
      and no fewer do. */
  ghost predicate LeftOver(idata: seq<Byte>, n: nat, padding: nat) {
    && (padding > 0 ==> padding < |idata| && |EmittedBy(idata, |idata| - padding - 1)| >= n)
    && forall k: nat :: k + padding + 1 < |idata| ==> |EmittedBy(idata, k)| < n
  }

  /** The byte-step decoder: one row per byte, looked up one byte ahead. The buffer is eight slots
      longer than the output, as the decoder stores eight values whatever a row completes. */
  method DecodeC(idata: seq<Byte>, odata: array<int>, olength: nat) returns (padding: nat)
    requires olength + 8 <= odata.Length
    modifies odata
    ensures Decoded(idata, olength, old(odata[..]), odata[..])
    ensures LeftOver(idata, olength, padding)
  {
    hide Entry, ConfigAt, EmittedBy, Coefficients;
    var icounter, ocounter, next, v := DecodeBytes(idata, odata, olength);
    if icounter < |idata| {
      EnoughIsEnough(idata, icounter - 1, olength);
      return |idata| - icounter;
    }
    padding := 0;
    if ocounter < olength {
      DecodeTail(idata, odata, olength, ocounter, next, v);
    } else {
      EnoughIsEnough(idata, icounter - 1, olength);
    }
  }
}
