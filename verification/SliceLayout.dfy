/** Slices written out byte by byte, and read back from memory. */
module SliceLayout {
  import opened VlcMachine
  import opened SliceStream

  /** A component: a byte with the number of units of its data, and the data. */
  datatype Part = Part(units: Byte, data: seq<Byte>) {
    function Written(): (b: seq<Byte>)
      ensures |b| == 1 + |data|
    {
      [units] + data
    }
  }

  /** A slice: bytes that are skipped, the quantiser index, and three components. */
  datatype Slice = Slice(skipped: seq<Byte>, q: Byte, luma: Part, first: Part, second: Part) {
    /** The bytes to be skipped are as many as the prefix, and the data is in whole units. */
    predicate Fits(s: Source) {
      && |skipped| == s.prefix
      && |luma.data| == luma.units * s.scalar && |first.data| == first.units * s.scalar
      && |second.data| == second.units * s.scalar
    }

    function Written(): seq<Byte> {
      skipped + ([q] + (luma.Written() + (first.Written() + second.Written())))
    }

    function Size(): (n: nat)
      ensures n == |Written()|
    {
      |skipped| + 4 + |luma.data| + |first.data| + |second.data|
    }

    /** The bytes up to the end of the second component: reading checks that they end inside the data. */
    function Checked(): (n: nat)
      ensures n <= Size()
    {
      |skipped| + 3 + |luma.data| + |first.data|
    }

    function Content(): Content {
      Coded(q, [luma.data, first.data, second.data])
    }
  }

  /** One slice after the other. */
  function Written(slices: seq<Slice>): seq<Byte> {
    if slices == [] then [] else slices[0].Written() + Written(slices[1..])
  }

  ghost predicate AllFit(s: Source, slices: seq<Slice>) {
    forall k :: 0 <= k < |slices| ==> slices[k].Fits(s)
  }

  /** The bytes are in memory from a place on. */
  ghost predicate InMemory(s: Source, at: nat, bytes: seq<Byte>) {
    forall i :: 0 <= i < |bytes| ==> s.mem(at + i) == bytes[i]
  }

  lemma InTwoParts(s: Source, at: nat, a: seq<Byte>, b: seq<Byte>)
    requires InMemory(s, at, a + b)
    ensures InMemory(s, at, a) && InMemory(s, at + |a|, b)
  {
    forall i | 0 <= i < |a| ensures s.mem(at + i) == a[i] {
      assert (a + b)[i] == a[i];
    }
    forall i | 0 <= i < |b| ensures s.mem(at + |a| + i) == b[i] {
      assert (a + b)[|a| + i] == b[i];
      assert at + (|a| + i) == at + |a| + i;
    }
  }

  lemma BytesAre(s: Source, at: nat, bytes: seq<Byte>)
    requires InMemory(s, at, bytes)
    ensures s.Bytes(at, |bytes|) == bytes
  {}

  /** A component is read where it is written: its length byte, and its data behind it. */
  lemma PartIsRead(s: Source, at: nat, p: Part, rest: seq<Byte>)
    requires InMemory(s, at, p.Written() + rest) && |p.data| == p.units * s.scalar
    ensures s.Length(at) == |p.data| && s.Bytes(at + 1, |p.data|) == p.data
    ensures InMemory(s, at + 1 + |p.data|, rest)
  {
    InTwoParts(s, at, p.Written(), rest);
    InTwoParts(s, at, [p.units], p.data);
    assert s.mem(at + 0) == [p.units][0];
    BytesAre(s, at + 1, p.data);
  }

  /** A slice is read where it is written, and what follows it is where the next one is looked for. */
  lemma SliceIsRead(s: Source, at: nat, z: Slice, rest: seq<Byte>, limit: nat)
    requires InMemory(s, at, z.Written() + rest) && z.Fits(s)
    ensures s.Content(s.At(at + s.prefix)) == z.Content()
    ensures s.Next(at + s.prefix) == at + z.Size() + s.prefix && InMemory(s, at + z.Size(), rest)
    ensures s.Overruns(at + s.prefix, limit) <==> limit < at + z.Checked()
  {
    hide Part.Written, InMemory, s.Length, s.Bytes;
    var c := z.second.Written();
    var b := z.first.Written();
    var a := z.luma.Written();
    var q := at + s.prefix;
    assert z.Written() + rest == z.skipped + ([z.q] + (a + (b + (c + rest))));
    InTwoParts(s, at, z.skipped, [z.q] + (a + (b + (c + rest))));
    InTwoParts(s, q, [z.q], a + (b + (c + rest)));
    FirstByte(s, q, z.q);
    PartIsRead(s, q + 1, z.luma, b + (c + rest));
    var d0 := q + 2;
    PartIsRead(s, d0 + |z.luma.data|, z.first, c + rest);
    var d1 := d0 + |z.luma.data| + 1;
    PartIsRead(s, d1 + |z.first.data|, z.second, rest);
  }

  lemma FirstByte(s: Source, at: nat, b: Byte)
    requires InMemory(s, at, [b])
    ensures s.mem(at) == b
  {
    assert s.mem(at + 0) == [b][0];
  }

  lemma WrittenFrom(slices: seq<Slice>)
    requires slices != []
    ensures Written(slices) == slices[0].Written() + Written(slices[1..])
  {}

  lemma Regrouped(a: seq<Byte>, b: seq<Byte>, c: seq<Byte>)
    ensures a + (b + c) == (a + b) + c
  {}

  lemma {:induction false} WrittenSplits(slices: seq<Slice>, k: nat)
    requires k < |slices|
    ensures Written(slices) == Written(slices[..k]) + (slices[k].Written() + Written(slices[k + 1..]))
  {
    hide Slice.Written, Written;
    WrittenFrom(slices);
    if k == 0 {
      NothingWritten(slices[..0]);
    } else {
      var rest := slices[1..];
      WrittenSplits(rest, k - 1);
      WrittenFrom(slices[..k]);
      assert rest[..k - 1] == slices[..k][1..] && rest[k - 1 + 1..] == slices[k + 1..];
      Regrouped(slices[0].Written(), Written(slices[..k][1..]), slices[k].Written() + Written(slices[k + 1..]));
    }
  }

  lemma NothingWritten(slices: seq<Slice>)
    requires slices == []
    ensures Written(slices) == [] && forall b: seq<Byte> :: Written(slices) + b == b
  {}

  /** Written slices lie in memory from base on. */
  ghost predicate Laid(s: Source, base: nat, slices: seq<Slice>) {
    InMemory(s, base, Written(slices)) && AllFit(s, slices)
  }

  /** Slice k ends inside so many bytes, as far as it is checked. */
  predicate EndsInside(slices: seq<Slice>, k: nat, ilength: nat)
    requires k < |slices|
  {
    |Written(slices[..k])| + slices[k].Checked() <= ilength
  }

  /** Slices that were written out, whatever unit and prefix they were written for, are read as they were: the k-th
      with its own index and data; it overruns exactly when its first two components end past the data. */
  lemma {:induction false} WrittenIsRead(s: Source, base: nat, slices: seq<Slice>, k: nat, ilength: nat)
    requires Laid(s, base, slices) && k <= |slices|
    ensures s.Addr(base, k) == base + |Written(slices[..k])| + s.prefix
    ensures k == |slices| ==> s.Addr(base, k) == base + |Written(slices)| + s.prefix
    ensures k < |slices| ==> s.Content(s.Slice(base, k)) == slices[k].Content()
    ensures k < |slices| ==> (s.Overruns(s.Addr(base, k), base + ilength) <==> !EndsInside(slices, k, ilength))
  {
    hide Slice.Written, Slice.Fits, InMemory, Laid, s.At, s.Next, s.Content, s.Overruns;
    if k == 0 {
      NothingWritten(slices[..0]);
    } else {
      WrittenIsRead(s, base, slices, k - 1, ilength);
      assert slices[..k][..k - 1] == slices[..k - 1];
      WrittenSplits(slices[..k], k - 1);
      ReadAt(s, base, slices, k - 1, ilength);
    }
    if k < |slices| {
      ReadAt(s, base, slices, k, ilength);
    } else {
      assert slices[..k] == slices;
    }
  }

  lemma ReadAt(s: Source, base: nat, slices: seq<Slice>, k: nat, ilength: nat)
    requires Laid(s, base, slices) && k < |slices|
    requires s.Addr(base, k) == base + |Written(slices[..k])| + s.prefix
    ensures s.Content(s.Slice(base, k)) == slices[k].Content()
    ensures s.Next(s.Addr(base, k)) == s.Addr(base, k) + slices[k].Size()
    ensures s.Overruns(s.Addr(base, k), base + ilength) <==> !EndsInside(slices, k, ilength)
  {
    hide Slice.Written, Slice.Fits, InMemory, s.At, s.Next, s.Content, s.Overruns;
    WrittenSplits(slices, k);
    var done := Written(slices[..k]);
    InTwoParts(s, base, done, slices[k].Written() + Written(slices[k + 1..]));
    SliceIsRead(s, base + |done|, slices[k], Written(slices[k + 1..]), base + ilength);
  }

  /** The data of so many bytes at base begins with these slices. */
  ghost predicate LaidOut(s: Source, base: nat, ilength: nat, slices: seq<Slice>) {
    Laid(s, base, slices) && |Written(slices)| <= ilength
  }

  lemma LaidOutEndsInside(s: Source, base: nat, ilength: nat, slices: seq<Slice>, k: nat)
    requires LaidOut(s, base, ilength, slices) && k < |slices|
    ensures EndsInside(slices, k, ilength)
  {
    hide Slice.Written, InMemory;
    WrittenSplits(slices, k);
  }

  /** A written slice lies at a place. */
  ghost predicate Lies(s: Source, at: int, z: Slice) {
    at >= 0 && z.Fits(s) && InMemory(s, at, z.Written())
  }

  lemma OneIsRead(s: Source, at: nat, z: Slice, limit: nat)
    requires Lies(s, at, z)
    ensures s.Content(s.At(at + s.prefix)) == z.Content() && s.Next(at + s.prefix) == at + z.Size() + s.prefix
    ensures s.Overruns(at + s.prefix, limit) <==> limit < at + z.Checked()
  {
    hide Slice.Written, z.Fits, InMemory, s.At, s.Next, s.Content, s.Overruns;
    assert z.Written() + [] == z.Written();
    SliceIsRead(s, at, z, [], limit);
  }
}
