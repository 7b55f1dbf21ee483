/** Headers written out field by field, and read back. */
module HeaderLayout {
  import opened VlcMachine
  import opened VlcTheorems
  import opened BitLayout
  import opened HeaderParse

  lemma ReaderAt(data: seq<Byte>, k: nat)
    requires k <= 8 * |data|
    ensures Within(PosAt(k), data) && Touched(PosAt(k)) == (k + 7) / 8
    ensures k < 8 * |data| ==>
      PosAt(k).byte < |data| && Peek(data, PosAt(k)) == BitNo(data, k) && Advance(data, PosAt(k)) == PosAt(k + 1)
  {}

  // ----- fields

  /** A field of a header: a number in its interleaved code, or a flag. */
  datatype Field = Uint(u: nat) | Bool(b: Bit) {
    function Bits(): seq<Bit> {
      match this
      case Uint(u) => EncodeUint(u)
      case Bool(b) => [b]
    }

    function Value(): nat {
      match this
      case Uint(u) => u
      case Bool(b) => b
    }
  }

  function Bits(fields: seq<Field>): seq<Bit> {
    if fields == [] then [] else fields[0].Bits() + Bits(fields[1..])
  }

  function Values(fields: seq<Field>): (v: seq<nat>)
    ensures |v| == |fields|
  {
    if fields == [] then [] else [fields[0].Value()] + Values(fields[1..])
  }

  lemma {:induction false} BitsOfSum(a: seq<Field>, b: seq<Field>)
    ensures Values(a + b) == Values(a) + Values(b)
  {
    if a == [] {
      assert a + b == b;
    } else {
      assert (a + b)[1..] == a[1..] + b;
      BitsOfSum(a[1..], b);
    }
  }

  lemma {:induction false} FollowsAreRead(data: seq<Byte>, k: nat, m: nat)
    requires m >= 1 && BitsAt(data, k, Follows(m))
    ensures Within(PosAt(k), data) && Within(PosAt(k + |Follows(m)|), data)
    ensures UintIn(data, PosAt(k), 1) == UintIn(data, PosAt(k + |Follows(m)|), m)
  {
    hide BitNo, PosAt, Advance, Peek;
    ReaderAt(data, k);
    if m > 1 {
      var before, bit: Bit := Follows(m / 2), m % 2;
      var j := k + |before|;
      BitsSplit(data, k, before, [0, bit]);
      FollowsAreRead(data, k, m / 2);
      assert [0, bit] == [0] + [bit];
      BitsSplit(data, j, [0], [bit]);
      OneBit(data, j, 0);
      OneBit(data, j + 1, bit);
      ReaderAt(data, j);
      ReaderAt(data, j + 1);
      ReaderAt(data, j + 2);
    }
  }

  lemma UintIsRead(data: seq<Byte>, k: nat, u: nat)
    requires BitsAt(data, k, EncodeUint(u))
    ensures Within(PosAt(k), data)
    ensures UintIn(data, PosAt(k), 1) == Some((u, PosAt(k + |EncodeUint(u)|)))
  {
    hide BitNo, PosAt, Advance, Peek, Follows;
    var m := u + 1;
    BitsSplit(data, k, Follows(m), [1]);
    FollowsAreRead(data, k, m);
    var j := k + |Follows(m)|;
    OneBit(data, j, 1);
    ReaderAt(data, j);
  }

  lemma FieldIsRead(data: seq<Byte>, k: nat, f: Field)
    requires BitsAt(data, k, f.Bits())
    ensures Within(PosAt(k), data)
    ensures Read(data, PosAt(k), f.Uint?) == Reading(f.Value(), PosAt(k + |f.Bits()|), true)
  {
    hide BitNo, PosAt, Advance, Peek, EncodeUint;
    match f
    case Uint(u) => UintIsRead(data, k, u);
    case Bool(b) =>
      OneBit(data, k, b);
      ReaderAt(data, k);
  }

  // ----- fields that a plan asks for

  /** The fields are of the kinds that the plan asks for, one after the other, when vals have been read before. */
  predicate Fills(fields: seq<Field>, plan: seq<Item>, vals: seq<nat>)
    decreases Expansions(plan), Size(plan)
  {
    if plan == [] then fields == []
    else if plan[0] == Entries then
      SizeOfSum(Nums(MatrixEntries(vals)), plan[1..]);
      Fills(fields, Nums(MatrixEntries(vals)) + plan[1..], vals)
    else
      && fields != [] && (fields[0].Uint? <==> plan[0].Num? || plan[0].Code?)
      && (plan[0] == Unset ==> fields[0].Value() == 0)
      && (PlanShrinks(plan, fields[0].Value());
          Fills(fields[1..], Following(plan[0], fields[0].Value()) + plan[1..], vals + [fields[0].Value()]))
  }

  /** Fields that a plan asks for are parsed as they were written. */
  lemma {:induction false} FieldsAreRead(data: seq<Byte>, k: nat, fields: seq<Field>, plan: seq<Item>, vals: seq<nat>)
    requires BitsAt(data, k, Bits(fields)) && Fills(fields, plan, vals)
    ensures Within(PosAt(k), data)
    ensures ParseFrom(data, PosAt(k), plan, vals, true)
         == Done(vals + Values(fields), (k + |Bits(fields)| + 7) / 8, true)
    decreases Expansions(plan), Size(plan)
  {
    hide BitNo, PosAt, Advance, Peek, Read, Field.Bits, Field.Value, BitsAt, Touched;
    NextBitIn(data, k, Bits(fields));
    if plan == [] {
    } else if plan[0] == Entries {
      SizeOfSum(Nums(MatrixEntries(vals)), plan[1..]);
      FieldsAreRead(data, k, fields, Nums(MatrixEntries(vals)) + plan[1..], vals);
    } else {
      var f := fields[0];
      BitsSplit(data, k, f.Bits(), Bits(fields[1..]));
      FieldIsRead(data, k, f);
      PlanShrinks(plan, f.Value());
      FieldsAreRead(data, k + |f.Bits()|, fields[1..], Following(plan[0], f.Value()) + plan[1..], vals + [f.Value()]);
      assert vals + [f.Value()] + Values(fields[1..]) == vals + Values(fields);
    }
  }

  lemma NextBitIn(data: seq<Byte>, k: nat, bits: seq<Bit>)
    requires BitsAt(data, k, bits)
    ensures Within(PosAt(k), data) && Touched(PosAt(k)) == (k + 7) / 8
  {
    ReaderAt(data, k);
  }

  lemma {:induction false} FillsSum(a: seq<Field>, b: seq<Field>, plan: seq<Item>, more: seq<Item>, vals: seq<nat>)
    requires Fills(a, plan, vals) && Fills(b, more, vals + Values(a))
    ensures Fills(a + b, plan + more, vals)
    decreases Expansions(plan), Size(plan)
  {
    hide Size, Nums, MatrixEntries, Following, Field.Value;
    if plan == [] {
      assert a + b == b && plan + more == more && vals + Values(a) == vals;
    } else if plan[0] == Entries {
      var entries := Nums(MatrixEntries(vals));
      SizeOfSum(entries, plan[1..]);
      FillsSum(a, b, entries + plan[1..], more, vals);
      assert entries + plan[1..] + more == entries + (plan + more)[1..];
    } else {
      var v := a[0].Value();
      PlanShrinks(plan, v);
      assert vals + Values(a) == vals + [v] + Values(a[1..]);
      FillsSum(a[1..], b, Following(plan[0], v) + plan[1..], more, vals + [v]);
      assert Following(plan[0], v) + plan[1..] + more == Following(plan[0], v) + (plan + more)[1..];
      assert (a + b)[1..] == a[1..] + b;
    }
  }

  // ----- transform parameters

  /** Transform parameters; the values of a custom matrix by subband, the coarsest first. */
  datatype Transform = Transform(wavelet: nat, depth: nat, slicesX: nat, slicesY: nat, prefix: nat, unit: nat,
                                 matrix: Option<seq<nat>>) {
    /** A matrix has a value for the coarsest subband, and three for each level but one. */
    predicate Valid() {
      matrix.Some? ==> |matrix.value| == 1 + 3 * if depth > 0 then depth - 1 else 0
    }

    /** From version 3 on there are two flags for asymmetric transforms, here not set. */
    function Fields(version: nat): seq<Field> {
      [Uint(wavelet), Uint(depth)] + (if version < 3 then [] else [Bool(0), Bool(0)])
      + [Uint(slicesX), Uint(slicesY), Uint(prefix), Uint(unit)]
      + if matrix.None? then [Bool(0)] else [Bool(1)] + Uints(matrix.value)
    }

    function Written(version: nat): seq<Byte> {
      Bytes(Bits(Fields(version)))
    }

    function Values(version: nat): seq<nat> {
      [wavelet, depth] + (if version < 3 then [] else [0, 0]) + [slicesX, slicesY, prefix, unit]
      + if matrix.None? then [0] else [1] + matrix.value
    }
  }

  function Uints(vals: seq<nat>): (f: seq<Field>)
    ensures |f| == |vals|
  {
    if vals == [] then [] else [Uint(vals[0])] + Uints(vals[1..])
  }

  lemma FirstNum(n: nat)
    requires n > 0
    ensures Nums(n)[0] == Num && Nums(n)[1..] == Nums(n - 1)
  {}

  /** One more field. */
  lemma FillsMore(f: Field, fields: seq<Field>, plan: seq<Item>, vals: seq<nat>)
    requires plan != [] && plan[0] != Entries && (f.Uint? <==> plan[0].Num? || plan[0].Code?)
    requires plan[0] == Unset ==> f.Value() == 0
    requires Fills(fields, Following(plan[0], f.Value()) + plan[1..], vals + [f.Value()])
    ensures Fills([f] + fields, plan, vals) && Values([f] + fields) == [f.Value()] + Values(fields)
  {
    hide Size, Expansions, Following;
    assert ([f] + fields)[1..] == fields;
  }

  lemma {:induction false} UintsFill(us: seq<nat>, vals: seq<nat>)
    ensures Fills(Uints(us), Nums(|us|), vals) && Values(Uints(us)) == us
    decreases |us|
  {
    hide Fills, Nums;
    if us == [] {
      NothingFills(vals);
    } else {
      UintsFill(us[1..], vals + [us[0]]);
      FirstNum(|us|);
      assert Following(Num, us[0]) + Nums(|us|)[1..] == Nums(|us| - 1);
      FillsMore(Uint(us[0]), Uints(us[1..]), Nums(|us|), vals);
    }
  }

  lemma NothingFills(vals: seq<nat>)
    ensures Fills([], [], vals) && Nums(0) == [] && Values([]) == []
  {}

  lemma MatrixFills(us: seq<nat>, vals: seq<nat>)
    requires |us| == MatrixEntries(vals + [1])
    ensures Fills([Bool(1)] + Uints(us), [Flag([Entries])], vals)
    ensures Values([Bool(1)] + Uints(us)) == [1] + us
  {
    hide Nums, Size, Expansions, MatrixEntries;
    UintsFill(us, vals + [1]);
    var next := [Entries];
    assert Nums(|us|) + next[1..] == Nums(|us|);
    assert Fills(Uints(us), next, vals + [1]);
    assert next + [Flag([Entries])][1..] == next;
    FillsMore(Bool(1), Uints(us), [Flag([Entries])], vals);
  }

  lemma NoMatrixFills(vals: seq<nat>)
    ensures Fills([Bool(0)], [Flag([Entries])], vals) && Values([Bool(0)]) == [0]
  {
    NothingFills(vals + [0]);
    FillsMore(Bool(0), [], [Flag([Entries])], vals);
  }

  lemma UnsetFills(vals: seq<nat>)
    ensures Fills([Bool(0), Bool(0)], [Unset, Unset], vals) && Values([Bool(0), Bool(0)]) == [0, 0]
  {
    NothingFills(vals + [0] + [0]);
    FillsMore(Bool(0), [], [Unset], vals + [0]);
    FillsMore(Bool(0), [Bool(0)], [Unset, Unset], vals);
  }

  /** When `read` has been read, the fields are those the plan asks for, and these are their values. */
  ghost predicate Stage(fields: seq<Field>, plan: seq<Item>, read: seq<nat>, vals: seq<nat>) {
    Fills(fields, plan, read) && Values(fields) == vals
  }

  lemma Join(a: seq<Field>, b: seq<Field>, p: seq<Item>, q: seq<Item>, read: seq<nat>, v: seq<nat>, next: seq<nat>,
             w: seq<nat>)
    requires Stage(a, p, read, v) && next == read + v && Stage(b, q, next, w)
    ensures Stage(a + b, p + q, read, v + w)
  {
    hide Fills, Values;
    FillsSum(a, b, p, q, read);
    BitsOfSum(a, b);
  }

  lemma NumsStage(us: seq<nat>, read: seq<nat>)
    ensures Stage(Uints(us), Nums(|us|), read, us)
  {
    hide Fills, Values, Nums, Uints;
    UintsFill(us, read);
  }

  lemma MatrixEntriesAre(read: seq<nat>, depth: nat)
    requires |read| > 1 && read[1] == depth
    ensures MatrixEntries(read) == 1 + 3 * if depth > 0 then depth - 1 else 0
  {}

  lemma FewNums()
    ensures Nums(1) == [Num] && Nums(2) == [Num, Num] && Nums(4) == [Num, Num, Num, Num]
  {
    assert Nums(0) == [] && Nums(1) == [Num] + Nums(0) && Nums(2) == [Num] + Nums(1);
    assert Nums(3) == [Num] + Nums(2) && Nums(4) == [Num] + Nums(3);
  }

  lemma UintsFrom(a: nat, us: seq<nat>)
    ensures Uints([a] + us) == [Uint(a)] + Uints(us) && Uints([]) == []
  {
    assert ([a] + us)[1..] == us;
  }

  lemma FewUints(a: nat, b: nat, c: nat, d: nat)
    ensures Uints([a]) == [Uint(a)] && Uints([a, b]) == [Uint(a), Uint(b)]
    ensures Uints([a, b, c, d]) == [Uint(a), Uint(b), Uint(c), Uint(d)]
  {
    hide Uints;
    UintsFrom(a, []);
    UintsFrom(b, []);
    UintsFrom(d, []);
    UintsFrom(a, [b]);
    UintsFrom(c, [d]);
    UintsFrom(b, [c, d]);
    UintsFrom(a, [b, c, d]);
    assert [a] + [] == [a] && [b] + [] == [b] && [d] + [] == [d] && [a] + [b] == [a, b] && [c] + [d] == [c, d];
    assert [b] + [c, d] == [b, c, d] && [a] + [b, c, d] == [a, b, c, d];
  }

  lemma TransformFills(t: Transform, version: nat)
    requires t.Valid()
    ensures Stage(t.Fields(version), TransformPlan(version), [], t.Values(version))
  {
    hide Fills, Values, Nums, Uints, MatrixEntries;
    var a, c := [t.wavelet, t.depth], [t.slicesX, t.slicesY, t.prefix, t.unit];
    FewNums();
    FewUints(t.wavelet, t.depth, 0, 0);
    FewUints(t.slicesX, t.slicesY, t.prefix, t.unit);
    var flags: seq<Field>, unset: seq<Item>, zeroes: seq<nat> := [], [], [];
    if version >= 3 {
      flags, unset, zeroes := [Bool(0), Bool(0)], [Unset, Unset], [0, 0];
      UnsetFills(a);
    } else {
      NothingFills(a);
    }
    var head, heads, read := Uints(a) + flags, [Num, Num] + unset, a + zeroes;
    NumsStage(a, []);
    Join(Uints(a), flags, [Num, Num], unset, [], a, a, zeroes);
    NumsStage(c, read);
    Join(head, Uints(c), heads, [Num, Num, Num, Num], [], read, read, c);
    var last := if t.matrix.None? then [Bool(0)] else [Bool(1)] + Uints(t.matrix.value);
    var vals := if t.matrix.None? then [0] else [1] + t.matrix.value;
    if t.matrix.None? {
      NoMatrixFills(read + c);
    } else {
      MatrixEntriesAre(read + c + [1], t.depth);
      MatrixFills(t.matrix.value, read + c);
    }
    Join(head + Uints(c), last, heads + [Num, Num, Num, Num], [Flag([Entries])], [], read + c, read + c, vals);
    assert heads + [Num, Num, Num, Num] + [Flag([Entries])] == TransformPlan(version);
  }

  /** Transform parameters that were written for a version are parsed under it as they were, and as many bytes are
      taken, whatever follows them. */
  lemma TransformIsParsed(t: Transform, version: nat, rest: seq<Byte>)
    requires t.Valid()
    ensures ParseAll(t.Written(version) + rest, TransformPlan(version))
         == Done(t.Values(version), |t.Written(version)|, true)
  {
    hide Fills, Values, TransformPlan, ParseFrom;
    TransformFills(t, version);
    FieldsAreParsed(t.Fields(version), TransformPlan(version), rest);
  }

  lemma FieldsAreParsed(fields: seq<Field>, plan: seq<Item>, rest: seq<Byte>)
    requires Fills(fields, plan, [])
    ensures ParseAll(Bytes(Bits(fields)) + rest, plan) == Done(Values(fields), |Bytes(Bits(fields))|, true)
  {
    hide Fills, Values, ParseFrom, Bits, BitsAt;
    var bytes := Bytes(Bits(fields));
    BytesHold(Bits(fields), rest);
    assert PosAt(0) == ORIGIN && [] + Values(fields) == Values(fields);
    FieldsAreRead(bytes + rest, 0, fields, plan, []);
  }

  // ----- sequence headers

  /** A number that stands for one of the known settings; or 0, and the setting itself. */
  datatype Preset = Known(number: nat) | Own(values: seq<nat>) {
    predicate Valid(n: nat) {
      if Known? then number > 0 else |values| == n
    }

    function Fields(): seq<Field> {
      if Known? then [Uint(number)] else [Uint(0)] + Uints(values)
    }
  }

  datatype Colours = KnownColours(number: nat)
                   | OwnColours(primaries: Option<nat>, matrix: Option<nat>, transfer: Option<nat>) {
    predicate Valid() {
      KnownColours? ==> number > 0
    }

    function Fields(): seq<Field> {
      if KnownColours? then [Uint(number)]
      else [Uint(0)] + (OneField(primaries) + OneField(matrix) + OneField(transfer))
    }
  }

  /** A flag, and the numbers when there are any. */
  function SomeFields(o: Option<seq<nat>>): seq<Field> {
    if o.None? then [Bool(0)] else [Bool(1)] + Uints(o.value)
  }

  function OneField(o: Option<nat>): seq<Field> {
    if o.None? then [Bool(0)] else [Bool(1), Uint(o.value)]
  }

  function PresetFields(o: Option<Preset>): seq<Field> {
    if o.None? then [Bool(0)] else [Bool(1)] + o.value.Fields()
  }

  function ColourFields(o: Option<Colours>): seq<Field> {
    if o.None? then [Bool(0)] else [Bool(1)] + o.value.Fields()
  }

  /** A sequence header: what is not given is as the base format has it. Width and height; frame rate and pixel aspect
      ratio as fractions; width, height, left and top of the clean area; offsets and excursions of luma and chroma. */
  datatype Sequence = Sequence(major: nat, minor: nat, profile: nat, level: nat, base: nat,
                               dimensions: Option<seq<nat>>, chromaFormat: Option<nat>, scan: Option<nat>,
                               frameRate: Option<Preset>, aspectRatio: Option<Preset>, cleanArea: Option<seq<nat>>,
                               signalRange: Option<Preset>, colours: Option<Colours>, codingMode: nat) {
    predicate Valid() {
      && (dimensions.Some? ==> |dimensions.value| == 2) && (cleanArea.Some? ==> |cleanArea.value| == 4)
      && (frameRate.Some? ==> frameRate.value.Valid(2)) && (aspectRatio.Some? ==> aspectRatio.value.Valid(2))
      && (signalRange.Some? ==> signalRange.value.Valid(4)) && (colours.Some? ==> colours.value.Valid())
    }

    function Fields(): seq<Field> {
      Uints([major, minor, profile, level, base])
      + (SomeFields(dimensions) + (OneField(chromaFormat) + (OneField(scan) + (PresetFields(frameRate)
      + (PresetFields(aspectRatio) + (SomeFields(cleanArea) + (PresetFields(signalRange)
      + (ColourFields(colours) + Uints([codingMode])))))))))
    }

    function Written(): seq<Byte> {
      Bytes(Bits(Fields()))
    }
  }

  /** The fields are those the plan asks for, whatever has been read before. */
  ghost predicate Suit(fields: seq<Field>, plan: seq<Item>) {
    forall read :: Fills(fields, plan, read)
  }

  lemma SuitSum(a: seq<Field>, b: seq<Field>, p: seq<Item>, q: seq<Item>)
    requires Suit(a, p) && Suit(b, q)
    ensures Suit(a + b, p + q)
  {
    hide Fills, Values;
    forall read ensures Fills(a + b, p + q, read) {
      FillsSum(a, b, p, q, read);
    }
  }

  lemma NumsSuit(us: seq<nat>)
    ensures Suit(Uints(us), Nums(|us|))
  {
    hide Fills, Values, Nums, Uints;
    forall read ensures Fills(Uints(us), Nums(|us|), read) {
      UintsFill(us, read);
    }
  }

  /** A flag or a code, and the fields that follow it. */
  lemma SuitAfter(f: Field, fields: seq<Field>, item: Item)
    requires item != Entries && (f.Uint? <==> item.Num? || item.Code?) && item != Unset
    requires Suit(fields, Following(item, f.Value()))
    ensures Suit([f] + fields, [item])
  {
    hide Fills, Following;
    var next := Following(item, f.Value());
    assert next + [item][1..] == next;
    forall read ensures Fills([f] + fields, [item], read) {
      FillsMore(f, fields, [item], read);
    }
  }

  lemma NothingSuits()
    ensures Suit([], [])
  {}

  lemma SomeSuits(o: Option<seq<nat>>, n: nat)
    requires o.Some? ==> |o.value| == n
    ensures Suit(SomeFields(o), [Optional(n)])
  {
    hide Suit, Uints, Nums;
    if o.None? {
      NothingSuits();
      SuitAfter(Bool(0), [], Optional(n));
      assert [Bool(0)] + [] == [Bool(0)];
    } else {
      NumsSuit(o.value);
      SuitAfter(Bool(1), Uints(o.value), Optional(n));
    }
  }

  lemma OneSuits(o: Option<nat>)
    ensures Suit(OneField(o), [Optional(1)])
  {
    hide Suit, Nums;
    SomeSuits(if o.None? then None else Some([o.value]), 1);
    if o.Some? {
      FewUints(o.value, 0, 0, 0);
      assert [Bool(1)] + [Uint(o.value)] == OneField(o);
    }
  }

  lemma CodeSuits(f: Field, fields: seq<Field>, custom: seq<Item>)
    requires f.Uint? && Suit(fields, if f.u == 0 then custom else [])
    ensures Suit([Bool(1)] + ([f] + fields), [Flag([Code(custom)])])
  {
    hide Suit;
    SuitAfter(f, fields, Code(custom));
    SuitAfter(Bool(1), [f] + fields, Flag([Code(custom)]));
  }

  lemma NoCodeSuits(custom: seq<Item>)
    ensures Suit([Bool(0)], [Flag([Code(custom)])])
  {
    hide Suit;
    NothingSuits();
    SuitAfter(Bool(0), [], Flag([Code(custom)]));
    assert [Bool(0)] + [] == [Bool(0)];
  }

  lemma PresetSuits(o: Option<Preset>, n: nat)
    requires o.Some? ==> o.value.Valid(n)
    ensures Suit(PresetFields(o), [OptionalCode(n)])
  {
    hide Suit, Uints, Nums;
    NoCodeSuits(Nums(n));
    if o.Some? {
      match o.value
      case Known(k) =>
        NothingSuits();
        CodeSuits(Uint(k), [], Nums(n));
        assert [Uint(k)] + [] == [Uint(k)];
      case Own(us) =>
        NumsSuit(us);
        CodeSuits(Uint(0), Uints(us), Nums(n));
    }
  }

  lemma ColoursSuit(o: Option<Colours>)
    requires o.Some? ==> o.value.Valid()
    ensures Suit(ColourFields(o), [HeaderParse.Colours()])
  {
    hide Suit, OneField, Optional;
    var custom := [Optional(1), Optional(1), Optional(1)];
    NoCodeSuits(custom);
    if o.Some? {
      match o.value
      case KnownColours(k) =>
        NothingSuits();
        CodeSuits(Uint(k), [], custom);
        assert [Uint(k)] + [] == [Uint(k)];
      case OwnColours(a, b, c) =>
        OneSuits(a);
        OneSuits(b);
        OneSuits(c);
        SuitSum(OneField(a), OneField(b), [Optional(1)], [Optional(1)]);
        SuitSum(OneField(a) + OneField(b), OneField(c), [Optional(1)] + [Optional(1)], [Optional(1)]);
        assert [Optional(1)] + [Optional(1)] + [Optional(1)] == custom;
        CodeSuits(Uint(0), OneField(a) + OneField(b) + OneField(c), custom);
    }
  }

  lemma SequenceSuits(z: Sequence)
    requires z.Valid()
    ensures Suit(z.Fields(), SequencePlan())
  {
    hide Suit, Uints, Nums, SomeFields, OneField, PresetFields, ColourFields, Optional, OptionalCode;
    hide HeaderParse.Colours, SequencePlan;
    NumsSuit([z.codingMode]);
    ColoursSuit(z.colours);
    var p0, f0 := [HeaderParse.Colours()] + Nums(1), ColourFields(z.colours) + Uints([z.codingMode]);
    SuitSum(ColourFields(z.colours), Uints([z.codingMode]), [HeaderParse.Colours()], Nums(1));
    PresetSuits(z.signalRange, 4);
    SuitSum(PresetFields(z.signalRange), f0, [OptionalCode(4)], p0);
    var p1, f1 := [OptionalCode(4)] + p0, PresetFields(z.signalRange) + f0;
    SomeSuits(z.cleanArea, 4);
    SuitSum(SomeFields(z.cleanArea), f1, [Optional(4)], p1);
    var p2, f2 := [Optional(4)] + p1, SomeFields(z.cleanArea) + f1;
    PresetSuits(z.aspectRatio, 2);
    SuitSum(PresetFields(z.aspectRatio), f2, [OptionalCode(2)], p2);
    var p3, f3 := [OptionalCode(2)] + p2, PresetFields(z.aspectRatio) + f2;
    FirstSuit(z, p3, f3);
    SequencePlanIs();
  }

  lemma FirstSuit(z: Sequence, p3: seq<Item>, f3: seq<Field>)
    requires z.Valid() && Suit(f3, p3)
    ensures Suit(Uints([z.major, z.minor, z.profile, z.level, z.base])
                 + (SomeFields(z.dimensions) + (OneField(z.chromaFormat) + (OneField(z.scan)
                 + (PresetFields(z.frameRate) + f3)))),
                 Nums(5) + ([Optional(2)] + ([Optional(1)] + ([Optional(1)] + ([OptionalCode(2)] + p3)))))
  {
    hide Suit, Uints, Nums, SomeFields, OneField, PresetFields, ColourFields, Optional, OptionalCode;
    PresetSuits(z.frameRate, 2);
    SuitSum(PresetFields(z.frameRate), f3, [OptionalCode(2)], p3);
    var p4, f4 := [OptionalCode(2)] + p3, PresetFields(z.frameRate) + f3;
    OneSuits(z.scan);
    SuitSum(OneField(z.scan), f4, [Optional(1)], p4);
    var p5, f5 := [Optional(1)] + p4, OneField(z.scan) + f4;
    OneSuits(z.chromaFormat);
    SuitSum(OneField(z.chromaFormat), f5, [Optional(1)], p5);
    var p6, f6 := [Optional(1)] + p5, OneField(z.chromaFormat) + f5;
    SomeSuits(z.dimensions, 2);
    SuitSum(SomeFields(z.dimensions), f6, [Optional(2)], p6);
    var five := [z.major, z.minor, z.profile, z.level, z.base];
    NumsSuit(five);
    SuitSum(Uints(five), SomeFields(z.dimensions) + f6, Nums(5), [Optional(2)] + p6);
  }

  lemma SequencePlanIs()
    ensures SequencePlan() == Nums(5) + ([Optional(2)] + ([Optional(1)] + ([Optional(1)] + ([OptionalCode(2)]
      + ([OptionalCode(2)] + ([Optional(4)] + ([OptionalCode(4)] + ([HeaderParse.Colours()] + Nums(1)))))))))
  {
    hide Nums, Optional, OptionalCode, HeaderParse.Colours;
  }

  /** A sequence header that was written is parsed as it was, and as many bytes are taken, whatever follows it. */
  lemma SequenceIsParsed(z: Sequence, rest: seq<Byte>)
    requires z.Valid()
    ensures ParseAll(z.Written() + rest, SequencePlan()) == Done(Values(z.Fields()), |z.Written()|, true)
  {
    hide Fills, Values, SequencePlan, ParseFrom, Sequence.Fields;
    SequenceSuits(z);
    FieldsAreParsed(z.Fields(), SequencePlan(), rest);
  }

  /** The version is the first of the values. */
  lemma MajorIsFirst(z: Sequence)
    ensures |Values(z.Fields())| > 0 && Values(z.Fields())[0] == z.major
  {
    hide SomeFields, OneField, PresetFields, ColourFields;
    assert z.Fields()[0] == Uints([z.major, z.minor, z.profile, z.level, z.base])[0] == Uint(z.major);
  }
}
