/** Bits as they lie in bytes, the highest bit of a byte first. */
module BitLayout {
  import opened VlcMachine

  /** Bit k of the data, counted from the highest bit of the first byte. */
  function PosAt(k: nat): Pos {
    Pos(k / 8, 7 - k % 8)
  }

  function BitNo(data: seq<Byte>, k: nat): Bit
    requires k < 8 * |data|
  {
    Peek(data, PosAt(k))
  }

  /** The data holds these bits, from bit k on. */
  ghost predicate BitsAt(data: seq<Byte>, k: nat, bits: seq<Bit>) {
    && k + |bits| <= 8 * |data|
    && forall i :: 0 <= i < |bits| ==> BitNo(data, k + i) == bits[i]
  }

  lemma NextBit(data: seq<Byte>, k: nat)
    requires k <= 8 * |data|
    ensures PosAt(k).In(data)
    ensures k < 8 * |data| ==>
      PosAt(k).byte < |data| && Peek(data, PosAt(k)) == BitNo(data, k) && Advance(data, PosAt(k)) == PosAt(k + 1)
  {}

  lemma BitsSplit(data: seq<Byte>, k: nat, a: seq<Bit>, b: seq<Bit>)
    requires BitsAt(data, k, a + b)
    ensures BitsAt(data, k, a) && BitsAt(data, k + |a|, b)
  {
    hide BitNo;
    forall i | 0 <= i < |a| ensures BitNo(data, k + i) == a[i] {
      assert (a + b)[i] == a[i];
    }
    forall i | 0 <= i < |b| ensures BitNo(data, k + |a| + i) == b[i] {
      assert (a + b)[|a| + i] == b[i];
      assert k + (|a| + i) == k + |a| + i;
    }
  }

  lemma OneBit(data: seq<Byte>, k: nat, b: Bit)
    requires BitsAt(data, k, [b])
    ensures k < 8 * |data| && BitNo(data, k) == b
  {
    hide BitNo;
    assert BitNo(data, k + 0) == [b][0];
  }

  /** A byte with these bits, the highest first. */
  function Octet(a: nat, b: nat, c: nat, d: nat, e: nat, f: nat, g: nat, h: nat): nat {
    128 * a + 64 * b + 32 * c + 16 * d + 8 * e + 4 * f + 2 * g + h
  }

  function ByteOf(b: seq<Bit>): Byte
    requires |b| == 8
  {
    Octet(b[0], b[1], b[2], b[3], b[4], b[5], b[6], b[7])
  }

  lemma OctetHigh(a: nat, b: nat, c: nat, d: nat, e: nat, f: nat, g: nat, h: nat)
    requires a < 2 && b < 2 && c < 2 && d < 2 && e < 2 && f < 2 && g < 2 && h < 2
    ensures var x := Octet(a, b, c, d, e, f, g, h);
            x / 128 % 2 == a && x / 64 % 2 == b && x / 32 % 2 == c && x / 16 % 2 == d
  {
    var x := Octet(a, b, c, d, e, f, g, h);
    assert x / 128 == a && x / 64 == 2 * a + b;
    assert x / 32 == 2 * (2 * a + b) + c;
    assert x / 16 == 2 * (4 * a + 2 * b + c) + d;
  }

  lemma OctetLow(a: nat, b: nat, c: nat, d: nat, e: nat, f: nat, g: nat, h: nat)
    requires a < 2 && b < 2 && c < 2 && d < 2 && e < 2 && f < 2 && g < 2 && h < 2
    ensures var x := Octet(a, b, c, d, e, f, g, h);
            x / 8 % 2 == e && x / 4 % 2 == f && x / 2 % 2 == g && x % 2 == h
  {
    var x := Octet(a, b, c, d, e, f, g, h);
    assert x / 8 == 2 * (8 * a + 4 * b + 2 * c + d) + e;
    assert x / 4 == 2 * (16 * a + 8 * b + 4 * c + 2 * d + e) + f;
    assert x / 2 == 2 * (32 * a + 16 * b + 8 * c + 4 * d + 2 * e + f) + g;
  }

  lemma ByteOfBits(b: seq<Bit>, i: nat)
    requires |b| == 8 && i < 8
    ensures BitAt(ByteOf(b), 7 - i) == b[i]
  {
    hide Octet;
    OctetHigh(b[0], b[1], b[2], b[3], b[4], b[5], b[6], b[7]);
    OctetLow(b[0], b[1], b[2], b[3], b[4], b[5], b[6], b[7]);
  }

  /** The bits in bytes, the last one filled up with 0s. */
  function Bytes(bits: seq<Bit>): (r: seq<Byte>)
    ensures |r| == (|bits| + 7) / 8
    decreases |bits|
  {
    if bits == [] then []
    else if |bits| < 8 then [ByteOf(bits + Zeroes(8 - |bits|))]
    else [ByteOf(bits[..8])] + Bytes(bits[8..])
  }

  function Zeroes(n: nat): seq<Bit> {
    seq<Bit>(n, i => 0)
  }

  lemma {:induction false} BytesHold(bits: seq<Bit>, rest: seq<Byte>)
    ensures BitsAt(Bytes(bits) + rest, 0, bits)
    decreases |bits|
  {
    hide ByteOf, BitAt;
    var data := Bytes(bits) + rest;
    if |bits| >= 8 {
      BytesHold(bits[8..], rest);
    }
    forall i | 0 <= i < |bits| ensures BitNo(data, 0 + i) == bits[i] {
      if i < 8 {
        ByteOfBits(if |bits| < 8 then bits + Zeroes(8 - |bits|) else bits[..8], i);
      } else {
        LaterByte(ByteOf(bits[..8]), Bytes(bits[8..]) + rest, i);
        assert data == [ByteOf(bits[..8])] + (Bytes(bits[8..]) + rest);
        assert BitNo(Bytes(bits[8..]) + rest, 0 + (i - 8)) == bits[8..][i - 8];
      }
    }
  }

  lemma LaterByte(b: Byte, data: seq<Byte>, i: nat)
    requires 8 <= i < 8 + 8 * |data|
    ensures BitNo([b] + data, i) == BitNo(data, i - 8)
  {
    hide BitAt;
    assert i / 8 == (i - 8) / 8 + 1 && i % 8 == (i - 8) % 8;
  }
}
