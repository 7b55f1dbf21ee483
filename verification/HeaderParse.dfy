/** The sequence header, and the transform parameters at the head of a picture: what they hold, and how they are
    parsed. */
module HeaderParse {
  import opened VlcMachine
  import VlcTheorems

  // ----- reading, and reading past the end

  datatype Option<T> = None | Some(value: T)

  /** A place of a reader: at the end of the data it stands at the beginning of a byte. */
  predicate Within(p: Pos, data: seq<Byte>) {
    p.In(data) && (p.byte == |data| ==> p.bit == 7)
  }

  predicate Later(p: Pos, q: Pos) {
    q.byte > p.byte || (q.byte == p.byte && q.bit < p.bit)
  }

  /** An unsigned number whose bits all lie inside the data. */
  function UintIn(data: seq<Byte>, p: Pos, r: nat): (x: Option<(nat, Pos)>)
    requires Within(p, data) && r >= 1
    ensures x.Some? ==> Within(x.value.1, data) && Later(p, x.value.1) && p.byte < |data|
    decreases |data| - p.byte, p.bit
  {
    if p.byte >= |data| then None
    else if Peek(data, p) == 1 then Some((r - 1, Advance(data, p)))
    else
      var q := Advance(data, p);
      if q.byte >= |data| then None else UintIn(data, Advance(data, q), 2 * r + Peek(data, q))
  }

  /** The end of the data. */
  function End(data: seq<Byte>): Pos {
    Pos(|data|, 7)
  }

  /** It is the number that read_uint gives; and when the bits run out, read_uint ends at the end. */
  lemma {:induction false} UintInIsUint(data: seq<Byte>, p: Pos, r: nat)
    requires Within(p, data) && r >= 1
    ensures match UintIn(data, p, r)
            case Some(x) => x == VlcTheorems.UintFrom(data, p, r)
            case None => VlcTheorems.UintFrom(data, p, r).1 == End(data)
    decreases |data| - p.byte, p.bit
  {
    if p.byte < |data| && Peek(data, p) == 0 {
      var q := Advance(data, p);
      if q.byte < |data| {
        UintInIsUint(data, Advance(data, q), 2 * r + Peek(data, q));
      } else {
        assert q == End(data) && Advance(data, q) == q && Peek(data, q) == 1;
      }
    }
  }

  /** The bytes that have been touched when the reader is at p. */
  function Touched(p: Pos): nat {
    if p.bit == 7 then p.byte else p.byte + 1
  }

  ghost predicate Same(data: seq<Byte>, other: seq<Byte>, n: nat) {
    n <= |data| && n <= |other| && forall i :: 0 <= i < n ==> data[i] == other[i]
  }

  /** Reading depends on nothing but the bytes it touches. */
  lemma {:induction false} UintLocal(data: seq<Byte>, other: seq<Byte>, p: Pos, r: nat)
    requires Within(p, data) && Within(p, other) && r >= 1 && UintIn(data, p, r).Some?
    requires Same(data, other, Touched(UintIn(data, p, r).value.1))
    ensures UintIn(other, p, r) == UintIn(data, p, r)
    decreases |data| - p.byte, p.bit
  {
    var end := UintIn(data, p, r).value.1;
    assert p.byte < Touched(end);
    if Peek(data, p) == 0 {
      var q := Advance(data, p);
      var s := Advance(data, q);
      UintLocal(data, other, s, 2 * r + Peek(data, q));
    }
  }

  // ----- what the headers hold

  /** A number; a flag with what follows when it is set; a code with what follows when it is zero; a flag that
      must not be set; and the entries of a quantisation matrix, as many as the depth read before asks for. */
  datatype Item = Num | Flag(body: seq<Item>) | Code(custom: seq<Item>) | Unset | Entries

  function Nums(n: nat): (s: seq<Item>)
    ensures |s| == n && Expansions(s) == 0 && Size(s) == n
  {
    if n == 0 then [] else [Num] + Nums(n - 1)
  }

  function Size(plan: seq<Item>): nat
    decreases plan
  {
    if plan == [] then 0
    else
      Size(plan[1..]) + match plan[0]
        case Flag(body) => 1 + Size(body)
        case Code(custom) => 1 + Size(custom)
        case _ => 1
  }

  function Expansions(plan: seq<Item>): nat
    decreases plan
  {
    if plan == [] then 0
    else
      Expansions(plan[1..]) + match plan[0]
        case Flag(body) => Expansions(body)
        case Code(custom) => Expansions(custom)
        case Entries => 1
        case _ => 0
  }

  lemma {:induction false} SizeOfSum(a: seq<Item>, b: seq<Item>)
    ensures Size(a + b) == Size(a) + Size(b) && Expansions(a + b) == Expansions(a) + Expansions(b)
    decreases |a|
  {
    if a == [] {
      assert a + b == b;
    } else {
      assert (a + b)[1..] == a[1..] + b;
      SizeOfSum(a[1..], b);
    }
  }

  /** Versions, profile, level and base format; then what may be given in place of the format's own: dimensions,
      colour difference format, scan, frame rate, pixel aspect ratio, clean area, signal range and colours;
      then the picture coding mode. */
  function SequencePlan(): seq<Item> {
    Nums(5) + [Optional(2), Optional(1), Optional(1), OptionalCode(2), OptionalCode(2), Optional(4), OptionalCode(4),
               Colours()]
    + Nums(1)
  }

  function Optional(n: nat): Item {
    Flag(Nums(n))
  }

  function OptionalCode(n: nat): Item {
    Flag([Code(Nums(n))])
  }

  function Colours(): Item {
    Flag([Code([Optional(1), Optional(1), Optional(1)])])
  }

  /** Wavelet and depth; in later versions two flags for asymmetric transforms, which are not supported; slices
      across and down, prefix and size unit; and a custom quantisation matrix. */
  function TransformPlan(major: nat): seq<Item> {
    [Num, Num] + (if major >= 3 then [Unset, Unset] else []) + [Num, Num, Num, Num, Flag([Entries])]
  }

  // ----- parsing

  /** The values, the bytes they take up, and whether all of them lay inside the data; or no support. */
  datatype Parse = Done(vals: seq<nat>, used: nat, inside: bool) | NotImplemented

  datatype Reading = Reading(value: nat, at: Pos, inside: bool)

  /** Past the end a flag reads as set, and a number goes on with 1-bits. */
  function Read(data: seq<Byte>, p: Pos, number: bool): (x: Reading)
    requires Within(p, data)
    ensures Within(x.at, data) && (x.inside ==> Later(p, x.at) && p.byte < |data|) && (!x.inside ==> x.at == End(data))
  {
    if number then
      match UintIn(data, p, 1)
      case Some(x) => Reading(x.0, x.1, true)
      case None => Reading(VlcTheorems.UintFrom(data, p, 1).0, End(data), false)
    else if p.byte < |data| then Reading(Peek(data, p), Advance(data, p), true)
    else Reading(1, p, false)
  }

  function Following(item: Item, value: nat): seq<Item> {
    match item
    case Flag(body) => if value == 1 then body else []
    case Code(custom) => if value == 0 then custom else []
    case _ => []
  }

  function MatrixEntries(vals: seq<nat>): nat {
    1 + 3 * if |vals| > 1 && vals[1] > 1 then vals[1] - 1 else 0
  }

  lemma PlanShrinks(plan: seq<Item>, value: nat)
    requires plan != []
    ensures var next := Following(plan[0], value) + plan[1..];
            Expansions(next) <= Expansions(plan) && (plan[0] != Entries ==> Size(next) < Size(plan))
  {
    SizeOfSum(Following(plan[0], value), plan[1..]);
  }

  function ParseFrom(data: seq<Byte>, p: Pos, plan: seq<Item>, vals: seq<nat>, inside: bool): (r: Parse)
    requires Within(p, data)
    ensures r.Done? ==> Touched(p) <= r.used <= |data| && (r.inside ==> inside)
    decreases Expansions(plan), Size(plan)
  {
    if plan == [] then Done(vals, Touched(p), inside)
    else if plan[0] == Entries then
      SizeOfSum(Nums(MatrixEntries(vals)), plan[1..]);
      ParseFrom(data, p, Nums(MatrixEntries(vals)) + plan[1..], vals, inside)
    else
      var x := Read(data, p, plan[0].Num? || plan[0].Code?);
      PlanShrinks(plan, x.value);
      if plan[0] == Unset && x.value == 1 then NotImplemented
      else ParseFrom(data, x.at, Following(plan[0], x.value) + plan[1..], vals + [x.value], inside && x.inside)
  }

  function ParseAll(data: seq<Byte>, plan: seq<Item>): Parse {
    ParseFrom(data, ORIGIN, plan, [], true)
  }

  lemma ReadLocal(data: seq<Byte>, other: seq<Byte>, p: Pos, number: bool)
    requires Within(p, data) && Within(p, other) && Read(data, p, number).inside
    requires Same(data, other, Touched(Read(data, p, number).at))
    ensures Read(other, p, number) == Read(data, p, number)
  {
    if number {
      UintLocal(data, other, p, 1);
    } else {
      assert p.byte < Touched(Advance(data, p));
    }
  }

  /** A parse inside the data depends on nothing but the bytes it takes up. */
  lemma {:induction false} ParseLocal(data: seq<Byte>, other: seq<Byte>, p: Pos, plan: seq<Item>, vals: seq<nat>)
    requires Within(p, data) && Within(p, other)
    requires ParseFrom(data, p, plan, vals, true).Done? && ParseFrom(data, p, plan, vals, true).inside
    requires Same(data, other, ParseFrom(data, p, plan, vals, true).used)
    ensures ParseFrom(other, p, plan, vals, true) == ParseFrom(data, p, plan, vals, true)
    decreases Expansions(plan), Size(plan)
  {
    hide Read;
    if plan != [] {
      if plan[0] == Entries {
        SizeOfSum(Nums(MatrixEntries(vals)), plan[1..]);
        ParseLocal(data, other, p, Nums(MatrixEntries(vals)) + plan[1..], vals);
      } else {
        var x := Read(data, p, plan[0].Num? || plan[0].Code?);
        PlanShrinks(plan, x.value);
        ReadLocal(data, other, p, plan[0].Num? || plan[0].Code?);
        ParseLocal(data, other, x.at, Following(plan[0], x.value) + plan[1..], vals + [x.value]);
      }
    }
  }

  /** A parse that runs out of data takes it all. */
  lemma {:induction false} OutsideTakesAll(data: seq<Byte>, p: Pos, plan: seq<Item>, vals: seq<nat>, inside: bool)
    requires Within(p, data) && (!inside ==> p == End(data))
    ensures var r := ParseFrom(data, p, plan, vals, inside); r.Done? && !r.inside ==> r.used == |data|
    decreases Expansions(plan), Size(plan)
  {
    hide Read;
    if plan != [] {
      if plan[0] == Entries {
        SizeOfSum(Nums(MatrixEntries(vals)), plan[1..]);
        OutsideTakesAll(data, p, Nums(MatrixEntries(vals)) + plan[1..], vals, inside);
      } else {
        var x := Read(data, p, plan[0].Num? || plan[0].Code?);
        PlanShrinks(plan, x.value);
        EndStays(data, plan[0].Num? || plan[0].Code?);
        OutsideTakesAll(data, x.at, Following(plan[0], x.value) + plan[1..], vals + [x.value], inside && x.inside);
      }
    }
  }

  lemma EndStays(data: seq<Byte>, number: bool)
    ensures !Read(data, End(data), number).inside
  {}

  /** No flag of the plan refuses a header. */
  predicate Supports(item: Item) {
    match item
    case Flag(body) => forall i :: 0 <= i < |body| ==> Supports(body[i])
    case Code(custom) => forall i :: 0 <= i < |custom| ==> Supports(custom[i])
    case Unset => false
    case _ => true
  }

  predicate Supported(plan: seq<Item>) {
    forall i :: 0 <= i < |plan| ==> Supports(plan[i])
  }

  lemma SupportedSum(a: seq<Item>, b: seq<Item>)
    requires Supported(a) && Supported(b)
    ensures Supported(a + b)
  {}

  lemma {:induction false} NumsSupported(n: nat)
    ensures Supported(Nums(n))
  {
    if n > 0 {
      NumsSupported(n - 1);
    }
  }

  lemma OptionalSupported(n: nat)
    ensures Supports(Optional(n)) && Supports(OptionalCode(n))
  {
    NumsSupported(n);
    assert Supports(Code(Nums(n)));
  }

  /** Such a plan parses whatever the data, and the values read before stay in front. */
  lemma {:induction false} AlwaysParses(data: seq<Byte>, p: Pos, plan: seq<Item>, vals: seq<nat>, inside: bool)
    requires Within(p, data) && Supported(plan)
    ensures ParseFrom(data, p, plan, vals, inside).Done? && vals <= ParseFrom(data, p, plan, vals, inside).vals
    decreases Expansions(plan), Size(plan)
  {
    hide Read;
    if plan != [] {
      if plan[0] == Entries {
        SizeOfSum(Nums(MatrixEntries(vals)), plan[1..]);
        NumsSupported(MatrixEntries(vals));
        SupportedSum(Nums(MatrixEntries(vals)), plan[1..]);
        AlwaysParses(data, p, Nums(MatrixEntries(vals)) + plan[1..], vals, inside);
      } else {
        var x := Read(data, p, plan[0].Num? || plan[0].Code?);
        PlanShrinks(plan, x.value);
        SupportedSum(Following(plan[0], x.value), plan[1..]);
        AlwaysParses(data, x.at, Following(plan[0], x.value) + plan[1..], vals + [x.value], inside && x.inside);
      }
    }
  }

  /** Every sequence header parses, and gives a version. */
  lemma SequenceParses(data: seq<Byte>)
    ensures ParseAll(data, SequencePlan()).Done? && ParseAll(data, SequencePlan()).vals != []
  {
    var plan := SequencePlan();
    SequenceSupported();
    hide SequencePlan;
    var x := Read(data, ORIGIN, true);
    PlanShrinks(plan, x.value);
    AlwaysParses(data, x.at, Following(plan[0], x.value) + plan[1..], [] + [x.value], true && x.inside);
  }

  lemma SequenceSupported()
    ensures Supported(SequencePlan()) && SequencePlan() != [] && SequencePlan()[0] == Num
  {
    var custom := [Optional(2), Optional(1), Optional(1), OptionalCode(2), OptionalCode(2), Optional(4),
                   OptionalCode(4), Colours()];
    assert Supported(custom) by { CustomSupported(); }
    NumsSupported(5);
    NumsSupported(1);
    hide Optional, OptionalCode, Colours;
    SupportedSum(Nums(5), custom);
    SupportedSum(Nums(5) + custom, Nums(1));
    assert Nums(5)[0] == Num;
  }

  lemma CustomSupported()
    ensures Supported([Optional(2), Optional(1), Optional(1), OptionalCode(2), OptionalCode(2), Optional(4),
                       OptionalCode(4), Colours()])
  {
    OptionalSupported(1);
    OptionalSupported(2);
    OptionalSupported(4);
    ColoursSupported();
    hide Optional, OptionalCode, Colours;
  }

  lemma ColoursSupported()
    ensures Supports(Colours())
  {
    OptionalSupported(1);
    hide Optional;
    assert Supports(Code([Optional(1), Optional(1), Optional(1)]));
  }
}
