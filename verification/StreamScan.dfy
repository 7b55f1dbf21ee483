/** Parse-info headers in a stream of bytes, and the two scans that look for them. */
module StreamScan {
  import opened VlcMachine

  /** next and prev are distances to the neighbouring headers, zero when they are not known. */
  datatype Segment = Segment(code: Byte, next: nat, prev: nat, dataLength: int)

  datatype Parsed = Header(segment: Segment) | NotParseInfo | Overrun

  const SEQUENCE_HEADER: Byte := 0x00
  const AUXILIARY_DATA: Byte := 0x20

  function Word(data: seq<Byte>, at: nat): (r: nat)
    requires at + 4 <= |data|
    ensures r < 0x1_0000_0000
  {
    var a: int, b: int, c: int := data[at], data[at + 1], data[at + 2];
    a * 0x100_0000 + b * 0x1_0000 + c * 0x100 + data[at + 3]
  }

  /** A 32-bit word taken for a signed number. */
  function Signed(w: int): (r: int)
    requires -0x8000_0000 <= w < 0x1_0000_0000
    ensures -0x8000_0000 <= r < 0x8000_0000
  {
    if w < 0x8000_0000 then w else w - 0x1_0000_0000
  }

  /** The header at a place of the data. */
  function ParseInfo(data: seq<Byte>, at: nat): Parsed {
    if at + 13 > |data| then Overrun
    else if data[at..at + 4] != [0x42, 0x42, 0x43, 0x44] then NotParseInfo
    else
      var next := Word(data, at + 5);
      if 0 < next < 13 then NotParseInfo
      else
        var length := Signed(next - 13);
        if at + length > |data| then Overrun
        else Header(Segment(data[at + 4], next, Word(data, at + 9), length))
  }

  // ----- headers that were written

  /** A word of four bytes, the highest first. */
  function BigEndian(w: nat): (b: seq<Byte>)
    requires w < 0x1_0000_0000
    ensures |b| == 4
  {
    [w / 0x100_0000, w / 0x1_0000 % 0x100, w / 0x100 % 0x100, w % 0x100]
  }

  lemma LastDigit(q: int, r: nat, w: nat)
    requires r < 0x100
    ensures q * 0x100 + r == w <==> q == w / 0x100 && r == w % 0x100
  {}

  lemma FourDigits(a: nat, b: nat, c: nat, d: nat, w: nat)
    requires a < 0x100 && b < 0x100 && c < 0x100 && d < 0x100
    ensures a * 0x100_0000 + b * 0x1_0000 + c * 0x100 + d == w <==>
      a == w / 0x100_0000 && b == w / 0x1_0000 % 0x100 && c == w / 0x100 % 0x100 && d == w % 0x100
  {
    LastDigit(a * 0x1_0000 + b * 0x100 + c, d, w);
    LastDigit(a * 0x100 + b, c, w / 0x100);
    LastDigit(a, b, w / 0x100 / 0x100);
    assert w / 0x100 / 0x100 == w / 0x1_0000 && w / 0x1_0000 / 0x100 == w / 0x100_0000;
  }

  lemma WordIsRead(data: seq<Byte>, at: nat, w: nat)
    requires at + 4 <= |data| && w < 0x1_0000_0000
    ensures data[at..at + 4] == BigEndian(w) <==> Word(data, at) == w
  {
    var a: int, b: int, c: int, d: int := data[at], data[at + 1], data[at + 2], data[at + 3];
    assert data[at..at + 4] == [a, b, c, d];
    FourDigits(a, b, c, d, w);
  }

  /** The prefix, the code, and the distances to the next header and to the one before. */
  function HeaderBytes(code: Byte, next: nat, prev: nat): (b: seq<Byte>)
    requires next < 0x1_0000_0000 && prev < 0x1_0000_0000
    ensures |b| == 13
  {
    [0x42, 0x42, 0x43, 0x44, code] + BigEndian(next) + BigEndian(prev)
  }

  /** A header is accepted exactly where one was written, with no next one or one past it, and the data so led to does
      not end past the end: taken for a number of 32 bits with a sign. */
  lemma HeaderExactly(data: seq<Byte>, at: nat, code: Byte, next: nat, prev: nat)
    requires next < 0x1_0000_0000 && prev < 0x1_0000_0000
    ensures ParseInfo(data, at) == Header(Segment(code, next, prev, Signed(next - 13))) <==>
              && at + 13 <= |data| && data[at..at + 13] == HeaderBytes(code, next, prev) && (next == 0 || next >= 13)
              && at + Signed(next - 13) <= |data|
  {
    hide Word, BigEndian;
    if at + 13 <= |data| {
      WordIsRead(data, at + 5, next);
      WordIsRead(data, at + 9, prev);
      var h, w := data[at..at + 13], HeaderBytes(code, next, prev);
      assert h == data[at..at + 5] + data[at + 5..at + 9] + data[at + 9..at + 13];
      assert data[at..at + 5] == data[at..at + 4] + [data[at + 4]];
      assert h[..5] == data[at..at + 5] && h[5..9] == data[at + 5..at + 9] && h[9..] == data[at + 9..at + 13];
      assert w[..5] == [0x42, 0x42, 0x43, 0x44, code] && w[5..9] == BigEndian(next) && w[9..] == BigEndian(prev);
      assert w[..5][..4] == [0x42, 0x42, 0x43, 0x44];
    }
  }

  /** A data unit: its header, which may or may not lead to the next one, and its data. */
  datatype Unit = Unit(code: Byte, prev: nat, data: seq<Byte>, linked: bool) {
    predicate Valid() {
      prev < 0x1_0000_0000 && Size() < 0x8000_0000
    }

    function Size(): (n: nat)
      ensures n > 0
    {
      13 + |data|
    }

    function Next(): nat {
      if linked then Size() else 0
    }

    function Written(): (b: seq<Byte>)
      requires Valid()
      ensures |b| == Size()
    {
      HeaderBytes(code, Next(), prev) + data
    }

    function AsSegment(): Segment {
      Segment(code, Next(), prev, Next() - 13)
    }

    predicate Lies(stream: seq<Byte>, at: nat) {
      Valid() && at + Size() <= |stream| && stream[at..at + Size()] == Written()
    }

    /** The scan goes from it to the next unit. */
    predicate LeadsOn(skipAux: bool) {
      code != SEQUENCE_HEADER && (code != AUXILIARY_DATA || skipAux) && (linked || data == [])
    }
  }

  /** Units one after the other, from the beginning of the stream. */
  function Place(units: seq<Unit>, k: nat): nat
    requires k <= |units|
  {
    if k == 0 then 0 else Place(units, k - 1) + units[k - 1].Size()
  }

  ghost predicate Units(stream: seq<Byte>, units: seq<Unit>) {
    forall k :: 0 <= k < |units| ==> units[k].Lies(stream, Place(units, k))
  }

  lemma UnitIsRead(stream: seq<Byte>, skipAux: bool, at: nat, u: Unit)
    requires u.Lies(stream, at)
    ensures Passes(stream, skipAux, at) <==> u.code != SEQUENCE_HEADER && (u.code != AUXILIARY_DATA || skipAux)
    ensures at + u.Size() <= |stream| && ParseInfo(stream, at) == Header(u.AsSegment())
    ensures Hop(stream, at) == at + if u.linked then u.Size() else 13
  {
    hide ParseInfo, HeaderBytes;
    HeaderExactly(stream, at, u.code, u.Next(), u.prev);
    assert stream[at..at + 13] == stream[at..at + u.Size()][..13];
  }

  /** Where the scan stops: the first unit that does not lead on. */
  ghost predicate Stops(stream: seq<Byte>, skipAux: bool, units: seq<Unit>) {
    && units != [] && Units(stream, units)
    && (forall k :: 0 <= k < |units| - 1 ==> units[k].LeadsOn(skipAux))
    && (units[|units| - 1].code == SEQUENCE_HEADER || (units[|units| - 1].code == AUXILIARY_DATA && !skipAux))
  }

  lemma StopsAt(stream: seq<Byte>, skipAux: bool, units: seq<Unit>, k: nat)
    requires Stops(stream, skipAux, units) && k < |units|
    ensures units[k].Lies(stream, Place(units, k))
    ensures Passes(stream, skipAux, Place(units, k)) <==> k < |units| - 1
    ensures k < |units| - 1 ==> Hop(stream, Place(units, k)) == Place(units, k) + units[k].Size()
  {
    hide Passes, Hop, Unit.Lies, ParseInfo, Unit.AsSegment, Unit.Written, Unit.Valid, Place;
    UnitIsRead(stream, skipAux, Place(units, k), units[k]);
  }

  /** Up to there the trail goes from unit to unit. */
  lemma {:induction false} TrailOfUnits(stream: seq<Byte>, skipAux: bool, units: seq<Unit>, path: seq<nat>, i: nat)
    requires Stops(stream, skipAux, units) && Trail(stream, skipAux, path) && i < |path|
    ensures i < |units| && path[i] == Place(units, i)
  {
    hide Passes, Hop, Unit.Lies, Units, Unit.LeadsOn;
    if i > 0 {
      TrailOfUnits(stream, skipAux, units, path, i - 1);
      StopsAt(stream, skipAux, units, i - 1);
      assert path[i] == Hop(stream, path[i - 1]) && Passes(stream, skipAux, path[i - 1]);
    }
  }

  /** The outcome of the scan, and where the caller goes on: at the unit that was found, or behind a sequence header. */
  ghost predicate StopFound(stream: seq<Byte>, skipAux: bool, units: seq<Unit>, r: Synchronised, position: Position) {
    units != [] && var last, at := units[|units| - 1], Place(units, |units| - 1);
      if last.code == SEQUENCE_HEADER then
        r == Reconfigured(at, last.AsSegment()) && position == if last.linked then At(at + last.Size()) else Nowhere
      else
        r == Auxiliary(at) && position == At(at)
  }

  lemma UnitFound(stream: seq<Byte>, skipAux: bool, units: seq<Unit>, path: seq<nat>, r: Synchronised)
    requires Stops(stream, skipAux, units) && Trail(stream, skipAux, path)
    requires EndsWith(stream, skipAux, path[|path| - 1], r)
    ensures StopFound(stream, skipAux, units, r, Resume(r))
  {
    hide ParseInfo, Hop, Unit.Lies, Units, Place, Unit.LeadsOn, EndsWith, Passes;
    var i := |path| - 1;
    TrailOfUnits(stream, skipAux, units, path, i);
    StopsAt(stream, skipAux, units, i);
    UnitIsRead(stream, skipAux, Place(units, i), units[i]);
    EndIsUnit(stream, skipAux, Place(units, i), units[i], r);
  }

  /** At a unit the scan ends because of its code. */
  lemma EndIsUnit(stream: seq<Byte>, skipAux: bool, at: nat, u: Unit, r: Synchronised)
    requires at + u.Size() <= |stream| && ParseInfo(stream, at) == Header(u.AsSegment())
    requires EndsWith(stream, skipAux, at, r)
    ensures if u.code == SEQUENCE_HEADER then r == Reconfigured(at, u.AsSegment())
            else u.code == AUXILIARY_DATA && !skipAux && r == Auxiliary(at)
  {
    hide ParseInfo;
  }

  // ----- the next header

  datatype Sought = Found(at: nat) | NotFound | Failed

  /** Looks for the first header. It fails at the first place where one is cut off, so it only comes back
      empty-handed from no data at all. */
  method FindNextParseInfo(data: seq<Byte>) returns (r: Sought)
    ensures r.Found? ==>
      && r.at < |data| && ParseInfo(data, r.at).Header?
      && forall k: nat :: k < r.at ==> ParseInfo(data, k).NotParseInfo?
    ensures r.Failed? ==> exists at: nat :: CutOff(data, at)
    ensures r == NotFound <==> data == []
  {
    hide ParseInfo;
    var offset := 0;
    while offset < |data|
      invariant offset <= |data|
      invariant forall k: nat :: k < offset ==> ParseInfo(data, k).NotParseInfo?
    {
      match ParseInfo(data, offset) {
        case NotParseInfo => offset := offset + 1;
        case Overrun =>
          assert CutOff(data, offset);
          return Failed;
        case Header(_) => return Found(offset);
      }
    }
    if data != [] {
      LastByteOverruns(data);
    }
    return NotFound;
  }

  /** The first place that does not hold something else holds a header that is cut off. */
  ghost predicate CutOff(data: seq<Byte>, at: nat) {
    && at < |data| && ParseInfo(data, at).Overrun?
    && forall k: nat :: k < at ==> ParseInfo(data, k).NotParseInfo?
  }

  lemma LastByteOverruns(data: seq<Byte>)
    requires data != []
    ensures ParseInfo(data, |data| - 1).Overrun?
  {}

  // ----- synchronising on a sequence header

  datatype Synchronised = Reconfigured(at: nat, segment: Segment) | Auxiliary(at: nat) | EndOfSequence | Lost

  /** Where the caller is told to go on: there may be no next header to go to. */
  datatype Position = At(offset: nat) | Nowhere

  function Resume(r: Synchronised): Position {
    match r
    case Reconfigured(at, segment) => if segment.next == 0 then Nowhere else At(at + segment.next)
    case Auxiliary(at) => At(at)
    case _ => At(0)
  }

  /** The scan goes on from this place. */
  predicate Passes(data: seq<Byte>, skipAux: bool, at: nat) {
    match ParseInfo(data, at)
    case NotParseInfo => true
    case Overrun => false
    case Header(h) => h.code != SEQUENCE_HEADER && (h.code != AUXILIARY_DATA || skipAux)
  }

  function Hop(data: seq<Byte>, at: nat): (n: nat)
    ensures n > at
  {
    match ParseInfo(data, at)
    case Header(h) => at + if h.next == 0 then 13 else h.next
    case _ => at + 1
  }

  /** The places looked at, up to one that is not passed over or lies outside. */
  ghost predicate Trail(data: seq<Byte>, skipAux: bool, path: seq<nat>) {
    && path != [] && path[0] == 0
    && forall i :: 0 <= i < |path| - 1 ==>
         path[i] < |data| && Passes(data, skipAux, path[i]) && path[i + 1] == Hop(data, path[i])
  }

  lemma {:induction false} TrailClimbs(data: seq<Byte>, skipAux: bool, path: seq<nat>, i: nat, j: nat)
    requires Trail(data, skipAux, path) && i < j < |path|
    ensures path[i] < path[j]
  {
    hide Passes, Hop;
    if i < j - 1 {
      TrailClimbs(data, skipAux, path, i, j - 1);
    }
    assert path[j] == Hop(data, path[j - 1]);
  }

  /** What the scan reports of the place it ends at. */
  ghost predicate EndsWith(data: seq<Byte>, skipAux: bool, end: nat, r: Synchronised) {
    match r
    case Reconfigured(at, segment) =>
      && at == end < |data| && ParseInfo(data, at) == Header(segment) && segment.code == SEQUENCE_HEADER
      && at + 13 + segment.dataLength <= |data|
    case Auxiliary(at) =>
      && at == end < |data| && !skipAux && ParseInfo(data, at).Header?
      && ParseInfo(data, at).segment.code == AUXILIARY_DATA
    case Lost => end < |data| && ParseInfo(data, end).Overrun?
    case EndOfSequence =>
      || end >= |data|
      || (ParseInfo(data, end).Header? && ParseInfo(data, end).segment.code == SEQUENCE_HEADER
          && end + 13 + ParseInfo(data, end).segment.dataLength > |data|)
  }

  /** Of units that were written one after the other, the scan finds the one that stops it. */
  ghost predicate UnitsFound(stream: seq<Byte>, skipAux: bool, r: Synchronised, position: Position) {
    forall units: seq<Unit> :: Stops(stream, skipAux, units) ==> StopFound(stream, skipAux, units, r, position)
  }

  lemma AlwaysFound(stream: seq<Byte>, skipAux: bool)
    ensures forall path: seq<nat>, r: Synchronised ::
              Trail(stream, skipAux, path) && EndsWith(stream, skipAux, path[|path| - 1], r)
              ==> UnitsFound(stream, skipAux, r, Resume(r))
  {
    hide Stops, EndsWith, StopFound, Resume;
    forall path: seq<nat>, r: Synchronised
      | Trail(stream, skipAux, path) && EndsWith(stream, skipAux, path[|path| - 1], r)
      ensures UnitsFound(stream, skipAux, r, Resume(r))
    {
      forall units: seq<Unit> | Stops(stream, skipAux, units)
        ensures StopFound(stream, skipAux, units, r, Resume(r))
      {
        UnitFound(stream, skipAux, units, path, r);
      }
    }
  }

  /** Follows the headers to a sequence header. Every step goes forward, so the scan ends. */
  method SequenceSynchronise(data: seq<Byte>, skipAux: bool)
    returns (r: Synchronised, position: Position, ghost path: seq<nat>)
    ensures position == Resume(r)
    ensures Trail(data, skipAux, path)
    ensures EndsWith(data, skipAux, path[|path| - 1], r)
    ensures UnitsFound(data, skipAux, r, position)
  {
    hide ParseInfo, UnitsFound;
    AlwaysFound(data, skipAux);
    var offset := 0;
    position, path := At(0), [0];
    while offset < |data|
      invariant Trail(data, skipAux, path) && offset == path[|path| - 1]
      decreases |data| - offset
    {
      var p := ParseInfo(data, offset);
      if p.Overrun? {
        return Lost, position, path;
      }
      if p.Header? {
        if p.segment.code == SEQUENCE_HEADER {
          if offset + 13 + p.segment.dataLength > |data| {
            return EndOfSequence, position, path;
          }
          position := if p.segment.next == 0 then Nowhere else At(offset + p.segment.next);
          return Reconfigured(offset, p.segment), position, path;
        }
        if p.segment.code == AUXILIARY_DATA && !skipAux {
          return Auxiliary(offset), At(offset), path;
        }
      }
      offset := if p.NotParseInfo? then offset + 1
                else if p.segment.next == 0 then offset + 13 else offset + p.segment.next;
      path := path + [offset];
    }
    return EndOfSequence, position, path;
  }

  /** A header with no way to the next one is accepted, and its length comes out negative. */
  lemma HeaderWithoutNext(data: seq<Byte>, at: nat)
    requires at + 13 <= |data| && data[at..at + 4] == [0x42, 0x42, 0x43, 0x44] && Word(data, at + 5) == 0
    ensures ParseInfo(data, at).Header? && ParseInfo(data, at).segment.dataLength == -13
  {}

  /** Exactly when a header that leads to another one is accepted: the bound is taken on the length less
      the thirteen bytes of the header, and on a signed number. */
  lemma LengthBound(data: seq<Byte>, at: nat)
    requires at + 13 <= |data| && data[at..at + 4] == [0x42, 0x42, 0x43, 0x44] && Word(data, at + 5) >= 13
    ensures ParseInfo(data, at).Header?
        <==> at + Word(data, at + 5) <= |data| + 13 || Word(data, at + 5) >= 0x8000_0000 + 13
  {}
}
