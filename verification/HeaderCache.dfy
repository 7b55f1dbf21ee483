/** The two headers whose bytes the decoder remembers, so as not to parse them again: the sequence header,
    and the transform parameters at the head of a picture. */
module HeaderCache {
  import opened VlcMachine
  import opened HeaderParse
  import HeaderLayout

  // ----- what the decoder remembers

  /** A header's bytes, up to the end of the data, and what lies in memory beyond it. */
  datatype Data = Data(bytes: seq<Byte>, beyond: seq<Byte>)

  /** One remembered header, and the values that are in effect. */
  datatype Memory = Memory(encoded: seq<Byte>, vals: seq<nat>)

  /** The comparison with the remembered bytes does not look where the data ends. */
  predicate Hit(m: Memory, d: Data) {
    m.encoded != [] && m.encoded <= d.bytes + d.beyond
  }

  /** The remembered bytes are those of the values in effect. */
  ghost predicate Consistent(m: Memory, plan: seq<Item>) {
    m.encoded != [] ==> ParseAll(m.encoded, plan) == Done(m.vals, |m.encoded|, true)
  }

  /** What a fresh parse remembers. */
  function Remembered(d: Data, plan: seq<Item>): (m: Memory)
    requires ParseAll(d.bytes, plan).Done?
  {
    var r := ParseAll(d.bytes, plan);
    Memory(d.bytes[..r.used], r.vals)
  }

  /** On a hit the remembered values are those of a fresh parse exactly when the remembered bytes end with the
      data or before it. */
  lemma HitIsExact(m: Memory, d: Data, plan: seq<Item>)
    requires Consistent(m, plan) && Hit(m, d)
    ensures ParseAll(d.bytes, plan) == Done(m.vals, |m.encoded|, true) <==> |m.encoded| <= |d.bytes|
  {
    if |m.encoded| <= |d.bytes| {
      ParseLocal(m.encoded, d.bytes, ORIGIN, plan, []);
    }
  }

  /** A fresh parse inside the data, and a hit, cannot disagree. */
  lemma HitAgrees(m: Memory, d: Data, plan: seq<Item>)
    requires Consistent(m, plan) && Hit(m, d)
    requires ParseAll(d.bytes, plan).Done? && ParseAll(d.bytes, plan).inside
    ensures ParseAll(d.bytes, plan) == Done(m.vals, |m.encoded|, true) && Remembered(d, plan) == m
  {
    if |m.encoded| > |d.bytes| {
      ParseLocal(d.bytes, m.encoded, ORIGIN, plan, []);
    }
    HitIsExact(m, d, plan);
  }

  lemma Bounded(data: seq<Byte>, plan: seq<Item>)
    ensures ParseAll(data, plan).Done? ==> ParseAll(data, plan).used <= |data|
  {}

  /** Some byte is taken up, when there is any data and anything to read. */
  lemma SomeBytes(data: seq<Byte>, rest: seq<Item>)
    requires data != []
    ensures ParseAll(data, [Num] + rest).Done? ==> ParseAll(data, [Num] + rest).used > 0
  {
    var plan := [Num] + rest;
    var x := Read(data, ORIGIN, true);
    PlanShrinks(plan, x.value);
    assert ParseAll(data, plan) == ParseFrom(data, x.at, Following(Num, x.value) + plan[1..], [] + [x.value], x.inside);
  }

  /** Bytes just parsed are consistent with the values in effect exactly when the parse stayed inside the data
      and gave those values; or when there were no bytes. */
  lemma FreshBytes(d: Data, plan: seq<Item>, vals: seq<nat>)
    requires ParseAll(d.bytes, plan).Done?
    ensures var r := ParseAll(d.bytes, plan);
            Consistent(Memory(d.bytes[..r.used], vals), plan) <==> r.used == 0 || (r.inside && r.vals == vals)
  {
    var r := ParseAll(d.bytes, plan);
    Bounded(d.bytes, plan);
    if r.inside {
      ParseLocal(d.bytes, d.bytes[..r.used], ORIGIN, plan, []);
    } else {
      OutsideTakesAll(d.bytes, ORIGIN, plan, [], true);
      assert d.bytes[..r.used] == d.bytes;
    }
  }

  // ----- the two headers together

  /** version is the one last read from a sequence header; picture is in use when configured; cut are the parameters
      for which the slices were counted last. */
  datatype Headers = Headers(version: nat, sequence: Memory, configured: bool, picture: Memory, cut: seq<nat>)

  function PicturePlan(h: Headers): seq<Item> {
    TransformPlan(h.version)
  }

  ghost predicate SequenceConsistent(h: Headers) {
    && Consistent(h.sequence, SequencePlan())
    && (h.sequence.encoded != [] ==> h.sequence.vals != [] && h.version == h.sequence.vals[0])
  }

  ghost predicate PictureConsistent(h: Headers) {
    h.configured ==> Consistent(h.picture, PicturePlan(h))
  }

  datatype Outcome = Known | Changed | Refused

  /** A sequence header that is known changes nothing. Another one puts its values in effect and calls for new
      transform parameters, and only then may its format turn out not to be supported. */
  function TakeSequence(h: Headers, d: Data, accepted: bool): (Headers, Outcome)
    requires ParseAll(d.bytes, SequencePlan()).Done?
  {
    if Hit(h.sequence, d) then (h, Known)
    else
      var m := Remembered(d, SequencePlan());
      var next := h.(version := if m.vals == [] then 0 else m.vals[0], configured := false);
      if accepted then (next.(sequence := m), Changed)
      else (next.(sequence := Memory(h.sequence.encoded, m.vals)), Refused)
  }

  /** Parameters may be refused before anything is changed, after the picture has been cut for them, or when they are
      in use already. */
  datatype Verdict = Accepted | Denied(cutFor: bool, inUse: bool) {
    predicate Cuts() {
      Accepted? || cutFor
    }

    predicate Uses() {
      Accepted? || inUse
    }
  }

  /** Transform parameters that are known are in use. Others are remembered before it is known whether they can
      be put to use. The number is of bytes taken. */
  function TakePicture(h: Headers, d: Data, v: Verdict): (Headers, Outcome, nat) {
    if h.configured && Hit(h.picture, d) then (h, Known, |h.picture.encoded|)
    else
      match ParseAll(d.bytes, PicturePlan(h))
      case NotImplemented => (h, Refused, 0)
      case Done(vals, used, _) =>
        var next := h.(picture := Memory(d.bytes[..used], if v.Uses() then vals else h.picture.vals),
                       cut := if v.Cuts() then vals else h.cut);
        if v.Accepted? then (next.(configured := true), Changed, used) else (next, Refused, 0)
  }

  // ----- one call

  /** A call with a sequence header is exact: what is in effect afterwards is what a fresh parse gives. */
  lemma SequenceIsExact(h: Headers, d: Data, accepted: bool)
    requires SequenceConsistent(h) && ParseAll(d.bytes, SequencePlan()).Done?
    requires ParseAll(d.bytes, SequencePlan()).inside
    ensures TakeSequence(h, d, accepted).0.sequence.vals == ParseAll(d.bytes, SequencePlan()).vals
  {
    hide ParseFrom;
    if Hit(h.sequence, d) {
      HitAgrees(h.sequence, d, SequencePlan());
    }
  }

  /** A sequence header leaves the memory consistent exactly when it is known; or accepted, from inside the data;
      or refused with the values that were remembered, or with none remembered. */
  lemma SequenceConsistency(h: Headers, d: Data, accepted: bool)
    requires SequenceConsistent(h) && ParseAll(d.bytes, SequencePlan()).Done?
    ensures var r := ParseAll(d.bytes, SequencePlan());
            SequenceConsistent(TakeSequence(h, d, accepted).0) <==>
              || Hit(h.sequence, d)
              || (accepted && (r.inside || r.used == 0))
              || (!accepted && (h.sequence.encoded == [] || r.vals == h.sequence.vals))
  {
    hide ParseFrom;
    SequenceParses(d.bytes);
    if accepted {
      FreshBytes(d, SequencePlan(), ParseAll(d.bytes, SequencePlan()).vals);
    }
  }

  /** Transform parameters leave the memory consistent exactly when they are known or not supported; or accepted,
      from inside the data; or refused in a decoder that is not configured, or with the values in use, or when they
      are. */
  lemma PictureConsistency(h: Headers, d: Data, v: Verdict)
    requires PictureConsistent(h)
    ensures var r := ParseAll(d.bytes, PicturePlan(h));
            PictureConsistent(TakePicture(h, d, v).0) <==>
              || (h.configured && Hit(h.picture, d)) || r.NotImplemented? || r.used == 0
              || (v.Accepted? && r.inside)
              || (!v.Accepted? && (!h.configured || (r.inside && (v.inUse || r.vals == h.picture.vals))))
  {
    hide ParseFrom;
    if !(h.configured && Hit(h.picture, d)) && ParseAll(d.bytes, PicturePlan(h)).Done? {
      var r := ParseAll(d.bytes, PicturePlan(h));
      FreshBytes(d, PicturePlan(h), if v.Uses() then r.vals else h.picture.vals);
    }
  }

  /** In a configured decoder the picture is cut for the parameters in use. */
  predicate CutForUse(h: Headers) {
    h.configured ==> h.cut == h.picture.vals
  }

  /** That stays so exactly when the parameters are known, not supported or accepted; or refused in a decoder that is
      not configured, or with the values in use, or before both changes or after both. */
  lemma CutConsistency(h: Headers, d: Data, v: Verdict)
    requires CutForUse(h)
    ensures var r := ParseAll(d.bytes, PicturePlan(h));
            CutForUse(TakePicture(h, d, v).0) <==>
              || !h.configured || Hit(h.picture, d) || r.NotImplemented? || v.Accepted?
              || v.cutFor == v.inUse || r.vals == h.picture.vals
  {
    hide ParseFrom;
  }

  /** After a refusal in a configured decoder, the same data again is taken without a parse: the parameters in use, and
      those that the picture is cut for, are what the refusal left. */
  lemma RefusedDataReturns(h: Headers, d: Data, first: Verdict, v: Verdict)
    requires h.configured && !Hit(h.picture, d) && ParseAll(d.bytes, PicturePlan(h)).Done? && d.bytes != []
    requires first.Denied?
    ensures var (again, r, used) := TakePicture(TakePicture(h, d, first).0, d, v);
            var vals := ParseAll(d.bytes, PicturePlan(h)).vals;
            && r == Known && used == ParseAll(d.bytes, PicturePlan(h)).used
            && again.picture.vals == (if first.inUse then vals else h.picture.vals)
            && again.cut == (if first.cutFor then vals else h.cut)
  {
    hide ParseFrom;
    SomeBytes(d.bytes, PicturePlan(h)[1..]);
    assert PicturePlan(h) == [Num] + PicturePlan(h)[1..];
    Bounded(d.bytes, PicturePlan(h));
  }

  /** After a refused sequence header, the one remembered from before is known when it comes again, and the
      refused one's values stay in effect. */
  lemma RefusedSequenceStays(h: Headers, d: Data, old': Data, accepted: bool)
    requires ParseAll(d.bytes, SequencePlan()).Done? && !Hit(h.sequence, d)
    requires Hit(h.sequence, old') && ParseAll(old'.bytes, SequencePlan()).Done?
    ensures var refused := TakeSequence(h, d, false).0;
            && TakeSequence(refused, old', accepted) == (refused, Known)
            && refused.sequence.vals == ParseAll(d.bytes, SequencePlan()).vals
  {
    hide ParseFrom;
  }

  // ----- whole runs

  /** The decoder without the shortcuts. */
  function FreshSequence(h: Headers, d: Data): Headers
    requires ParseAll(d.bytes, SequencePlan()).Done?
  {
    var m := Remembered(d, SequencePlan());
    h.(version := if m.vals == [] then 0 else m.vals[0], configured := false, sequence := m)
  }

  function FreshPicture(h: Headers, d: Data): (Headers, nat)
    requires ParseAll(d.bytes, PicturePlan(h)).Done?
  {
    var m := Remembered(d, PicturePlan(h));
    (h.(configured := true, picture := m, cut := m.vals), ParseAll(d.bytes, PicturePlan(h)).used)
  }

  datatype Event = Sequence(data: Data) | Picture(data: Data)

  /** The header parses inside its data; in a picture, with the version in effect. */
  predicate Parses(h: Headers, e: Event) {
    var plan := if e.Sequence? then SequencePlan() else PicturePlan(h);
    ParseAll(e.data.bytes, plan).Done? && ParseAll(e.data.bytes, plan).inside
  }

  function Fresh(h: Headers, e: Event): (Headers, nat)
    requires Parses(h, e)
  {
    match e
    case Sequence(d) => (FreshSequence(h, d), 0)
    case Picture(d) => FreshPicture(h, d)
  }

  function Cached(h: Headers, e: Event): (Headers, nat)
    requires Parses(h, e)
  {
    match e
    case Sequence(d) => (TakeSequence(h, d, true).0, 0)
    case Picture(d) => var (next, _, used) := TakePicture(h, d, Accepted); (next, used)
  }

  /** No header in the run ends short or is refused, parsing every one. */
  predicate AllParse(h: Headers, es: seq<Event>)
    decreases |es|
  {
    es == [] || (Parses(h, es[0]) && AllParse(Fresh(h, es[0]).0, es[1..]))
  }

  /** The decoders agree on everything but whether parameters must be read again. */
  ghost predicate Agree(h: Headers, k: Headers) {
    && SequenceConsistent(h) && PictureConsistent(h) && CutForUse(h) && h.cut == k.cut
    && h.version == k.version && h.sequence.vals == k.sequence.vals && h.picture.vals == k.picture.vals
  }

  lemma StepAgrees(h: Headers, k: Headers, e: Event)
    requires Agree(h, k) && Parses(k, e)
    ensures Parses(h, e) && Agree(Cached(h, e).0, Fresh(k, e).0) && Cached(h, e).1 == Fresh(k, e).1
  {
    hide ParseFrom;
    match e
    case Sequence(d) =>
      SequenceParses(d.bytes);
      SequenceConsistency(h, d, true);
      if Hit(h.sequence, d) {
        HitAgrees(h.sequence, d, SequencePlan());
      }
    case Picture(d) =>
      PictureConsistency(h, d, Accepted);
      CutConsistency(h, d, Accepted);
      if h.configured && Hit(h.picture, d) {
        HitAgrees(h.picture, d, PicturePlan(h));
      }
  }

  /** What a run leaves, and the bytes its pictures' headers took. */
  function RunFresh(h: Headers, es: seq<Event>): (Headers, seq<nat>)
    requires AllParse(h, es)
    decreases |es|
  {
    if es == [] then (h, [])
    else
      var (next, used) := Fresh(h, es[0]);
      var (last, rest) := RunFresh(next, es[1..]);
      (last, [used] + rest)
  }

  ghost predicate AllParseCached(h: Headers, es: seq<Event>)
    decreases |es|
  {
    es == [] || (Parses(h, es[0]) && AllParseCached(Cached(h, es[0]).0, es[1..]))
  }

  ghost function RunCached(h: Headers, es: seq<Event>): (Headers, seq<nat>)
    requires AllParseCached(h, es)
    decreases |es|
  {
    if es == [] then (h, [])
    else
      var (next, used) := Cached(h, es[0]);
      var (last, rest) := RunCached(next, es[1..]);
      (last, [used] + rest)
  }

  /** Over any run of sequence headers and pictures, the decoder with both shortcuts has the same version, formats
      and parameters in effect as one that parses everything, and takes the same bytes. */
  lemma {:induction false} ShortcutsInvisible(h: Headers, k: Headers, es: seq<Event>)
    requires Agree(h, k) && AllParse(k, es)
    ensures AllParseCached(h, es)
    ensures Agree(RunCached(h, es).0, RunFresh(k, es).0) && RunCached(h, es).1 == RunFresh(k, es).1
    decreases |es|
  {
    hide Parses, Fresh, Cached, Agree;
    if es != [] {
      StepAgrees(h, k, es[0]);
      ShortcutsInvisible(Cached(h, es[0]).0, Fresh(k, es[0]).0, es[1..]);
    }
  }

  // ----- headers that were written

  /** A sequence header that was written is in effect with the values it was written from. */
  ghost predicate SequenceInEffect(d: Data, h: Headers) {
    forall z: HeaderLayout.Sequence :: z.Valid() && z.Written() <= d.bytes ==>
      h.version == z.major && h.sequence.vals == HeaderLayout.Values(z.Fields())
  }

  /** Parameters that were written for the version before, and are accepted, are in use with the values they were
      written from; and as many bytes have been taken. */
  ghost predicate ParametersInUse(was: Headers, d: Data, judge: seq<nat> -> Verdict, h: Headers, r: Outcome,
                                  used: nat) {
    forall t: HeaderLayout.Transform ::
      t.Valid() && t.Written(was.version) <= d.bytes && judge(t.Values(was.version)).Accepted? ==>
        && r != Refused && h.configured && h.version == was.version
        && h.picture.vals == t.Values(was.version) && used == |t.Written(was.version)|
  }

  lemma WrittenSequence(h: Headers, d: Data, accepted: bool)
    requires SequenceConsistent(h) && ParseAll(d.bytes, SequencePlan()).Done?
    ensures SequenceInEffect(d, TakeSequence(h, d, accepted).0)
  {
    hide ParseAll, SequencePlan, HeaderLayout.Sequence.Valid, HeaderLayout.Sequence.Written;
    hide HeaderLayout.Sequence.Fields;
    hide HeaderLayout.Values;
    forall z: HeaderLayout.Sequence | z.Valid() && z.Written() <= d.bytes
      ensures var k := TakeSequence(h, d, accepted).0;
              k.version == z.major && k.sequence.vals == HeaderLayout.Values(z.Fields())
    {
      assert d.bytes == z.Written() + d.bytes[|z.Written()|..];
      HeaderLayout.SequenceIsParsed(z, d.bytes[|z.Written()|..]);
      HeaderLayout.MajorIsFirst(z);
      if Hit(h.sequence, d) {
        HitAgrees(h.sequence, d, SequencePlan());
      }
    }
  }

  lemma WrittenParameters(h: Headers, d: Data, judge: seq<nat> -> Verdict)
    requires PictureConsistent(h)
    ensures var p := ParseAll(d.bytes, PicturePlan(h));
            var (next, r, used) := TakePicture(h, d, if p.Done? then judge(p.vals) else Accepted);
            ParametersInUse(h, d, judge, next, r, used)
  {
    hide ParseAll, TransformPlan, HeaderLayout.Transform.Valid, HeaderLayout.Transform.Written;
    hide HeaderLayout.Transform.Values;
    forall t: HeaderLayout.Transform
      | t.Valid() && t.Written(h.version) <= d.bytes && judge(t.Values(h.version)).Accepted?
      ensures ParseAll(d.bytes, PicturePlan(h)) == Done(t.Values(h.version), |t.Written(h.version)|, true)
      ensures h.configured && Hit(h.picture, d) ==> Remembered(d, PicturePlan(h)) == h.picture
    {
      assert d.bytes == t.Written(h.version) + d.bytes[|t.Written(h.version)|..];
      HeaderLayout.TransformIsParsed(t, h.version, d.bytes[|t.Written(h.version)|..]);
      if h.configured && Hit(h.picture, d) {
        HitAgrees(h.picture, d, PicturePlan(h));
      }
    }
  }

  // ----- the calls as they update the decoder's fields

  class Decoder {
    var version: nat
    var sequenceEncoded: seq<Byte>
    var sequenceVals: seq<nat>
    var configured: bool
    var pictureEncoded: seq<Byte>
    var pictureVals: seq<nat>
    var cut: seq<nat>

    function View(): Headers
      reads this
    {
      Headers(version, Memory(sequenceEncoded, sequenceVals), configured, Memory(pictureEncoded, pictureVals), cut)
    }

    method ParseSeqHeader(d: Data, accepts: seq<nat> -> bool) returns (r: Outcome)
      modifies this
      ensures ParseAll(d.bytes, SequencePlan()).Done?
      ensures (View(), r) == TakeSequence(old(View()), d, accepts(ParseAll(d.bytes, SequencePlan()).vals))
      ensures old(SequenceConsistent(View())) ==> SequenceInEffect(d, View())
    {
      hide ParseAll, SequenceConsistent, SequenceInEffect;
      SequenceParses(d.bytes);
      if SequenceConsistent(View()) {
        WrittenSequence(View(), d, accepts(ParseAll(d.bytes, SequencePlan()).vals));
      }
      if sequenceEncoded == [] || !(sequenceEncoded <= d.bytes + d.beyond) {
        var p := ParseAll(d.bytes, SequencePlan());
        Bounded(d.bytes, SequencePlan());
        version := p.vals[0];
        sequenceVals := p.vals;
        configured := false;
        if !accepts(p.vals) {
          return Refused;
        }
        sequenceEncoded := d.bytes[..p.used];
        return Changed;
      }
      return Known;
    }

    method ProcessTransformParams(d: Data, judge: seq<nat> -> Verdict) returns (r: Outcome, used: nat)
      modifies this
      ensures var p := ParseAll(d.bytes, old(PicturePlan(View())));
              (View(), r, used) == TakePicture(old(View()), d, if p.Done? then judge(p.vals) else Accepted)
      ensures old(PictureConsistent(View())) ==> ParametersInUse(old(View()), d, judge, View(), r, used)
    {
      hide ParseAll, PictureConsistent, ParametersInUse;
      if PictureConsistent(View()) {
        WrittenParameters(View(), d, judge);
      }
      if !configured || pictureEncoded == [] || !(pictureEncoded <= d.bytes + d.beyond) {
        var p := ParseAll(d.bytes, TransformPlan(version));
        if p.NotImplemented? {
          return Refused, 0;
        }
        Bounded(d.bytes, TransformPlan(version));
        pictureEncoded := d.bytes[..p.used];
        var v := judge(p.vals);
        if v.Cuts() {
          cut := p.vals;
        }
        if v.Uses() {
          pictureVals := p.vals;
        }
        if !v.Accepted? {
          return Refused, 0;
        }
        configured := true;
        return Changed, p.used;
      }
      return Known, |pictureEncoded|;
    }
  }
}
