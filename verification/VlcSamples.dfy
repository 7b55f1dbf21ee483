/** Rows of the table as they are written down, four ways into it, against the summaries they stand for. */
module VlcSamples {
  import opened VlcMachine
  import opened VlcRows
  import opened VlcDecode

  /** A row that has two values at most. */
  function Two(state: State, preshift: nat, sgn: int, term: int, part: int, n: nat, val0: int, val1: int): Row {
    R(state, preshift, sgn, term, part, n, val0, val1, 0, 0, 0, 0, 0, 0)
  }

  /** A row by way of the rows for no bits, for one, and so on to all eight. */
  lemma ByBits(s: State, b: Byte, b7: Bit, b6: Bit, b5: Bit, b4: Bit, b3: Bit, b2: Bit, b1: Bit, b0: Bit)
    returns (r: seq<Row>)
    requires ByteBits(b) == [b7, b6, b5, b4, b3, b2, b1, b0]
    ensures |r| == 9 && r[0] == Blank(s) && r[8] == Entry(s, b)
    ensures r[1] == Extend(r[0], b7) && r[2] == Extend(r[1], b6) && r[3] == Extend(r[2], b5)
    ensures r[4] == Extend(r[3], b4) && r[5] == Extend(r[4], b3) && r[6] == Extend(r[5], b2)
    ensures r[7] == Extend(r[6], b1) && r[8] == Extend(r[7], b0)
  {
    hide Extend, ByteBits, Extended;
    var bits := ByteBits(b);
    r := seq(9, k requires 0 <= k < 9 => Extended(Blank(s), bits[..k]));
    forall k: nat | k < 8 ensures r[k + 1] == Extend(r[k], bits[k]) {
      OneMore(Blank(s), bits, k);
    }
    assert r[0 + 1] == Extend(r[0], b7) && r[1 + 1] == Extend(r[1], b6) && r[2 + 1] == Extend(r[2], b5);
    assert r[3 + 1] == Extend(r[3], b4) && r[4 + 1] == Extend(r[4], b3) && r[5 + 1] == Extend(r[5], b2);
    assert r[6 + 1] == Extend(r[6], b1) && r[7 + 1] == Extend(r[7], b0);
    OneMore(Blank(s), bits, 0);
    assert bits[..8] == bits;
  }

  lemma OneMore(r: Row, bits: seq<Bit>, k: nat)
    requires k < |bits|
    ensures Extended(r, bits[..k + 1]) == Extend(Extended(r, bits[..k]), bits[k])
    ensures Extended(r, bits[..0]) == r
  {
    hide Extend;
    assert bits[..k + 1][..k] == bits[..k];
  }

  /** Rows for a reader that begins a coefficient. */
  lemma StartRows()
    ensures Entry(Start, 0x02) == R(Start, 4, 1, 1, 0, 1, 8, 0, 0, 0, 0, 0, 0, 0)
    ensures Entry(Start, 0x03) == R(Start, 4, -1, 1, 0, 1, 8, 0, 0, 0, 0, 0, 0, 0)
    ensures Entry(Start, 0x85) == R(Start, 0, 0, 1, 0, 3, 0, 3, 0, 0, 0, 0, 0, 0)
    ensures Entry(Start, 0xFF) == R(Start, 0, 0, 1, 0, 8, 0, 0, 0, 0, 0, 0, 0, 0)
  {
    hide Entry, Extend, Extended;
    StartSteps();
    var r1 := ByBits(Start, 0x02, 0, 0, 0, 0, 0, 0, 1, 0);
    var r2 := ByBits(Start, 0x03, 0, 0, 0, 0, 0, 0, 1, 1);
    var r3 := ByBits(Start, 0x85, 1, 0, 0, 0, 0, 1, 0, 1);
    var r4 := ByBits(Start, 0xFF, 1, 1, 1, 1, 1, 1, 1, 1);
  }

  lemma StartSteps()
    ensures Extend(Blank(Start), 0) == Two(Data, 1, 1, 0, 0, 0, 1, 0)
    ensures Extend(Two(Data, 1, 1, 0, 0, 0, 1, 0), 0) == Two(Follow, 2, 1, 0, 0, 0, 2, 0)
    ensures Extend(Two(Follow, 2, 1, 0, 0, 0, 2, 0), 0) == Two(Data, 2, 1, 0, 0, 0, 2, 0)
    ensures Extend(Two(Data, 2, 1, 0, 0, 0, 2, 0), 0) == Two(Follow, 3, 1, 0, 0, 0, 4, 0)
    ensures Extend(Two(Follow, 3, 1, 0, 0, 0, 4, 0), 0) == Two(Data, 3, 1, 0, 0, 0, 4, 0)
    ensures Extend(Two(Data, 3, 1, 0, 0, 0, 4, 0), 0) == Two(Follow, 4, 1, 0, 0, 0, 8, 0)
    ensures Extend(Two(Follow, 4, 1, 0, 0, 0, 8, 0), 1) == Two(Sign, 4, 1, 0, 0, 0, 8, 0)
    ensures Extend(Two(Sign, 4, 1, 0, 0, 0, 8, 0), 0) == Two(Start, 4, 1, 1, 0, 1, 8, 0)
    ensures Extend(Two(Sign, 4, 1, 0, 0, 0, 8, 0), 1) == Two(Start, 4, -1, 1, 0, 1, 8, 0)
    ensures Extend(Blank(Start), 1) == Two(Start, 0, 0, 1, 0, 1, 0, 0)
    ensures Extend(Two(Start, 0, 0, 1, 0, 1, 0, 0), 0) == Two(Data, 0, 0, 1, 1, 1, 0, 0)
    ensures Extend(Two(Data, 0, 0, 1, 1, 1, 0, 0), 0) == Two(Follow, 0, 0, 1, 2, 1, 0, 0)
    ensures Extend(Two(Follow, 0, 0, 1, 2, 1, 0, 0), 0) == Two(Data, 0, 0, 1, 2, 1, 0, 0)
    ensures Extend(Two(Data, 0, 0, 1, 2, 1, 0, 0), 0) == Two(Follow, 0, 0, 1, 4, 1, 0, 0)
    ensures Extend(Two(Follow, 0, 0, 1, 4, 1, 0, 0), 1) == Two(Sign, 0, 0, 1, 4, 1, 0, 0)
    ensures Extend(Two(Sign, 0, 0, 1, 4, 1, 0, 0), 0) == Two(Start, 0, 0, 1, 0, 2, 0, 3)
    ensures Extend(Two(Start, 0, 0, 1, 0, 2, 0, 3), 1) == Two(Start, 0, 0, 1, 0, 3, 0, 3)
    ensures Extend(Two(Start, 0, 0, 1, 0, 1, 0, 0), 1) == Two(Start, 0, 0, 1, 0, 2, 0, 0)
    ensures Extend(Two(Start, 0, 0, 1, 0, 2, 0, 0), 1) == Two(Start, 0, 0, 1, 0, 3, 0, 0)
    ensures Extend(Two(Start, 0, 0, 1, 0, 3, 0, 0), 1) == Two(Start, 0, 0, 1, 0, 4, 0, 0)
    ensures Extend(Two(Start, 0, 0, 1, 0, 4, 0, 0), 1) == Two(Start, 0, 0, 1, 0, 5, 0, 0)
    ensures Extend(Two(Start, 0, 0, 1, 0, 5, 0, 0), 1) == Two(Start, 0, 0, 1, 0, 6, 0, 0)
    ensures Extend(Two(Start, 0, 0, 1, 0, 6, 0, 0), 1) == Two(Start, 0, 0, 1, 0, 7, 0, 0)
    ensures Extend(Two(Start, 0, 0, 1, 0, 7, 0, 0), 1) == Two(Start, 0, 0, 1, 0, 8, 0, 0)
  {}

  /** For one that is told whether more bits follow. */
  lemma FollowRows()
    ensures Entry(Follow, 0xFF) == R(Start, 0, -1, 1, 0, 7, 0, 0, 0, 0, 0, 0, 0, 0)
    ensures Entry(Follow, 0x80) == R(Follow, 0, 1, 1, 8, 1, 0, 0, 0, 0, 0, 0, 0, 0)
  {
    hide Entry, Extend, Extended;
    FollowSteps();
    var r1 := ByBits(Follow, 0xFF, 1, 1, 1, 1, 1, 1, 1, 1);
    var r2 := ByBits(Follow, 0x80, 1, 0, 0, 0, 0, 0, 0, 0);
  }

  lemma FollowSteps()
    ensures Extend(Blank(Follow), 1) == Two(Sign, 0, 1, 0, 0, 0, 0, 0)
    ensures Extend(Two(Sign, 0, 1, 0, 0, 0, 0, 0), 1) == Two(Start, 0, -1, 1, 0, 1, 0, 0)
    ensures Extend(Two(Start, 0, -1, 1, 0, 1, 0, 0), 1) == Two(Start, 0, -1, 1, 0, 2, 0, 0)
    ensures Extend(Two(Start, 0, -1, 1, 0, 2, 0, 0), 1) == Two(Start, 0, -1, 1, 0, 3, 0, 0)
    ensures Extend(Two(Start, 0, -1, 1, 0, 3, 0, 0), 1) == Two(Start, 0, -1, 1, 0, 4, 0, 0)
    ensures Extend(Two(Start, 0, -1, 1, 0, 4, 0, 0), 1) == Two(Start, 0, -1, 1, 0, 5, 0, 0)
    ensures Extend(Two(Start, 0, -1, 1, 0, 5, 0, 0), 1) == Two(Start, 0, -1, 1, 0, 6, 0, 0)
    ensures Extend(Two(Start, 0, -1, 1, 0, 6, 0, 0), 1) == Two(Start, 0, -1, 1, 0, 7, 0, 0)
    ensures Extend(Two(Sign, 0, 1, 0, 0, 0, 0, 0), 0) == Two(Start, 0, 1, 1, 0, 1, 0, 0)
    ensures Extend(Two(Start, 0, 1, 1, 0, 1, 0, 0), 0) == Two(Data, 0, 1, 1, 1, 1, 0, 0)
    ensures Extend(Two(Data, 0, 1, 1, 1, 1, 0, 0), 0) == Two(Follow, 0, 1, 1, 2, 1, 0, 0)
    ensures Extend(Two(Follow, 0, 1, 1, 2, 1, 0, 0), 0) == Two(Data, 0, 1, 1, 2, 1, 0, 0)
    ensures Extend(Two(Data, 0, 1, 1, 2, 1, 0, 0), 0) == Two(Follow, 0, 1, 1, 4, 1, 0, 0)
    ensures Extend(Two(Follow, 0, 1, 1, 4, 1, 0, 0), 0) == Two(Data, 0, 1, 1, 4, 1, 0, 0)
    ensures Extend(Two(Data, 0, 1, 1, 4, 1, 0, 0), 0) == Two(Follow, 0, 1, 1, 8, 1, 0, 0)
  {}

  /** For one that takes a bit of the value. */
  lemma DataRows()
    ensures Entry(Data, 0x37) == R(Start, 2, 1, 1, 0, 4, 1, 0, 0, 0, 0, 0, 0, 0)
    ensures Entry(Data, 0xAA) == R(Data, 4, 1, 0, 0, 0, 15, 0, 0, 0, 0, 0, 0, 0)
    ensures Entry(Data, 0xFF) == R(Start, 1, -1, 1, 0, 6, 1, 0, 0, 0, 0, 0, 0, 0)
  {
    hide Entry, Extend, Extended;
    DataSteps();
    var r1 := ByBits(Data, 0x37, 0, 0, 1, 1, 0, 1, 1, 1);
    var r2 := ByBits(Data, 0xAA, 1, 0, 1, 0, 1, 0, 1, 0);
    var r3 := ByBits(Data, 0xFF, 1, 1, 1, 1, 1, 1, 1, 1);
  }

  lemma DataSteps()
    ensures Extend(Blank(Data), 0) == Two(Follow, 1, 1, 0, 0, 0, 0, 0)
    ensures Extend(Two(Follow, 1, 1, 0, 0, 0, 0, 0), 0) == Two(Data, 1, 1, 0, 0, 0, 0, 0)
    ensures Extend(Two(Data, 1, 1, 0, 0, 0, 0, 0), 1) == Two(Follow, 2, 1, 0, 0, 0, 1, 0)
    ensures Extend(Two(Follow, 2, 1, 0, 0, 0, 1, 0), 1) == Two(Sign, 2, 1, 0, 0, 0, 1, 0)
    ensures Extend(Two(Sign, 2, 1, 0, 0, 0, 1, 0), 0) == Two(Start, 2, 1, 1, 0, 1, 1, 0)
    ensures Extend(Two(Start, 2, 1, 1, 0, 1, 1, 0), 1) == Two(Start, 2, 1, 1, 0, 2, 1, 0)
    ensures Extend(Two(Start, 2, 1, 1, 0, 2, 1, 0), 1) == Two(Start, 2, 1, 1, 0, 3, 1, 0)
    ensures Extend(Two(Start, 2, 1, 1, 0, 3, 1, 0), 1) == Two(Start, 2, 1, 1, 0, 4, 1, 0)
    ensures Extend(Blank(Data), 1) == Two(Follow, 1, 1, 0, 0, 0, 1, 0)
    ensures Extend(Two(Follow, 1, 1, 0, 0, 0, 1, 0), 0) == Two(Data, 1, 1, 0, 0, 0, 1, 0)
    ensures Extend(Two(Data, 1, 1, 0, 0, 0, 1, 0), 1) == Two(Follow, 2, 1, 0, 0, 0, 3, 0)
    ensures Extend(Two(Follow, 2, 1, 0, 0, 0, 3, 0), 0) == Two(Data, 2, 1, 0, 0, 0, 3, 0)
    ensures Extend(Two(Data, 2, 1, 0, 0, 0, 3, 0), 1) == Two(Follow, 3, 1, 0, 0, 0, 7, 0)
    ensures Extend(Two(Follow, 3, 1, 0, 0, 0, 7, 0), 0) == Two(Data, 3, 1, 0, 0, 0, 7, 0)
    ensures Extend(Two(Data, 3, 1, 0, 0, 0, 7, 0), 1) == Two(Follow, 4, 1, 0, 0, 0, 15, 0)
    ensures Extend(Two(Follow, 4, 1, 0, 0, 0, 15, 0), 0) == Two(Data, 4, 1, 0, 0, 0, 15, 0)
    ensures Extend(Two(Follow, 1, 1, 0, 0, 0, 1, 0), 1) == Two(Sign, 1, 1, 0, 0, 0, 1, 0)
    ensures Extend(Two(Sign, 1, 1, 0, 0, 0, 1, 0), 1) == Two(Start, 1, -1, 1, 0, 1, 1, 0)
    ensures Extend(Two(Start, 1, -1, 1, 0, 1, 1, 0), 1) == Two(Start, 1, -1, 1, 0, 2, 1, 0)
    ensures Extend(Two(Start, 1, -1, 1, 0, 2, 1, 0), 1) == Two(Start, 1, -1, 1, 0, 3, 1, 0)
    ensures Extend(Two(Start, 1, -1, 1, 0, 3, 1, 0), 1) == Two(Start, 1, -1, 1, 0, 4, 1, 0)
    ensures Extend(Two(Start, 1, -1, 1, 0, 4, 1, 0), 1) == Two(Start, 1, -1, 1, 0, 5, 1, 0)
    ensures Extend(Two(Start, 1, -1, 1, 0, 5, 1, 0), 1) == Two(Start, 1, -1, 1, 0, 6, 1, 0)
  {}

  /** For one that takes the sign. */
  lemma SignRows()
    ensures Entry(Sign, 0x00) == R(Data, 0, 1, 1, 8, 1, 0, 0, 0, 0, 0, 0, 0, 0)
    ensures Entry(Sign, 0xC1) == R(Follow, 0, -1, 1, 9, 2, 0, 0, 0, 0, 0, 0, 0, 0)
  {
    hide Entry, Extend, Extended;
    SignSteps();
    var r1 := ByBits(Sign, 0x00, 0, 0, 0, 0, 0, 0, 0, 0);
    var r2 := ByBits(Sign, 0xC1, 1, 1, 0, 0, 0, 0, 0, 1);
  }

  lemma SignSteps()
    ensures Extend(Blank(Sign), 0) == Two(Start, 0, 1, 1, 0, 1, 0, 0)
    ensures Extend(Two(Start, 0, 1, 1, 0, 1, 0, 0), 0) == Two(Data, 0, 1, 1, 1, 1, 0, 0)
    ensures Extend(Two(Data, 0, 1, 1, 1, 1, 0, 0), 0) == Two(Follow, 0, 1, 1, 2, 1, 0, 0)
    ensures Extend(Two(Follow, 0, 1, 1, 2, 1, 0, 0), 0) == Two(Data, 0, 1, 1, 2, 1, 0, 0)
    ensures Extend(Two(Data, 0, 1, 1, 2, 1, 0, 0), 0) == Two(Follow, 0, 1, 1, 4, 1, 0, 0)
    ensures Extend(Two(Follow, 0, 1, 1, 4, 1, 0, 0), 0) == Two(Data, 0, 1, 1, 4, 1, 0, 0)
    ensures Extend(Two(Data, 0, 1, 1, 4, 1, 0, 0), 0) == Two(Follow, 0, 1, 1, 8, 1, 0, 0)
    ensures Extend(Two(Follow, 0, 1, 1, 8, 1, 0, 0), 0) == Two(Data, 0, 1, 1, 8, 1, 0, 0)
    ensures Extend(Blank(Sign), 1) == Two(Start, 0, -1, 1, 0, 1, 0, 0)
    ensures Extend(Two(Start, 0, -1, 1, 0, 1, 0, 0), 1) == Two(Start, 0, -1, 1, 0, 2, 0, 0)
    ensures Extend(Two(Start, 0, -1, 1, 0, 2, 0, 0), 0) == Two(Data, 0, -1, 1, 1, 2, 0, 0)
    ensures Extend(Two(Data, 0, -1, 1, 1, 2, 0, 0), 0) == Two(Follow, 0, -1, 1, 2, 2, 0, 0)
    ensures Extend(Two(Follow, 0, -1, 1, 2, 2, 0, 0), 0) == Two(Data, 0, -1, 1, 2, 2, 0, 0)
    ensures Extend(Two(Data, 0, -1, 1, 2, 2, 0, 0), 0) == Two(Follow, 0, -1, 1, 4, 2, 0, 0)
    ensures Extend(Two(Follow, 0, -1, 1, 4, 2, 0, 0), 0) == Two(Data, 0, -1, 1, 4, 2, 0, 0)
    ensures Extend(Two(Data, 0, -1, 1, 4, 2, 0, 0), 1) == Two(Follow, 0, -1, 1, 9, 2, 0, 0)
  {}
}
