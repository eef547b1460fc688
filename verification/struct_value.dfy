/** `google.protobuf.Struct`, `Value` and `ListValue`: wrapping JavaScript values into messages and back. */
module StructValue {
  import opened Wrappers

  /** A JavaScript value. Objects list their own keys in order, numbers are carried as their bits, and
      `Foreign` is a value of a type that cannot be wrapped (a function, symbol or bigint), by its `typeof`. */
  datatype Js =
    | Undefined
    | Null
    | Boolean(b: bool)
    | Number(bits: bv64)
    | String(s: string)
    | Array(items: seq<Js>)
    | Object(props: seq<Property>)
    | Foreign(kind: string)

  datatype Property = Property(key: string, value: Js)

  datatype NullValue = NULL_VALUE | UNRECOGNIZED

  /** A `Value` message: any subset of its variants may be set. */
  datatype Message = Message(
    nullValue: Option<NullValue>, numberValue: Option<bv64>, stringValue: Option<string>, boolValue: Option<bool>,
    structValue: OptionalStruct, listValue: OptionalList)

  datatype OptionalStruct = NoStruct | Struct(fields: seq<Field>)

  datatype OptionalList = NoList | List(values: seq<Message>)

  datatype Field = Field(key: string, value: Message)

  const EMPTY := Message(None, None, None, None, NoStruct, NoList)

  // ----- Wrapping -----

  /** `Value.wrap`; the error is the `typeof` named in the exception. */
  function Wrap(v: Js): Result<Message, string> {
    match v
    case Undefined => Ok(EMPTY)
    case Null => Ok(EMPTY.(nullValue := Some(NULL_VALUE)))
    case Boolean(b) => Ok(EMPTY.(boolValue := Some(b)))
    case Number(bits) => Ok(EMPTY.(numberValue := Some(bits)))
    case String(s) => Ok(EMPTY.(stringValue := Some(s)))
    case Array(items) => (
      match WrapItems(items)
      case Ok(ms) => Ok(EMPTY.(listValue := List(ms)))
      case Err(kind) => Err(kind))
    case Object(props) => (
      match WrapProps(props)
      case Ok(fs) => Ok(EMPTY.(structValue := Struct(fs)))
      case Err(kind) => Err(kind))
    case Foreign(kind) => Err(kind)
  }

  function WrapItems(items: seq<Js>): (r: Result<seq<Message>, string>)
    ensures r.Ok? ==> |r.value| == |items|
  {
    if items == [] then Ok([])
    else
      match Wrap(items[0])
      case Err(kind) => Err(kind)
      case Ok(m) =>
        match WrapItems(items[1..])
        case Err(kind) => Err(kind)
        case Ok(ms) => Ok([m] + ms)
  }

  function WrapProps(props: seq<Property>): (r: Result<seq<Field>, string>)
    ensures r.Ok? ==> |r.value| == |props|
  {
    if props == [] then Ok([])
    else
      match Wrap(props[0].value)
      case Err(kind) => Err(kind)
      case Ok(m) =>
        match WrapProps(props[1..])
        case Err(kind) => Err(kind)
        case Ok(fs) => Ok([Field(props[0].key, m)] + fs)
  }

  // ----- Unwrapping -----

  /** `Value.unwrap`: the variants are tried in a fixed order of precedence. */
  function Unwrap(m: Message): Js {
    if m.stringValue.Some? then String(m.stringValue.value)
    else if m.numberValue.Some? then Number(m.numberValue.value)
    else if m.boolValue.Some? then Boolean(m.boolValue.value)
    else if m.structValue.Struct? then Object(UnwrapFields(m.structValue.fields))
    else if m.listValue.List? then Array(UnwrapItems(m.listValue.values))
    else if m.nullValue.Some? then Null
    else Undefined
  }

  function UnwrapItems(ms: seq<Message>): (items: seq<Js>)
    ensures |items| == |ms|
  {
    if ms == [] then [] else [Unwrap(ms[0])] + UnwrapItems(ms[1..])
  }

  function UnwrapFields(fs: seq<Field>): (props: seq<Property>)
    ensures |props| == |fs|
  {
    if fs == [] then [] else [Property(fs[0].key, Unwrap(fs[0].value))] + UnwrapFields(fs[1..])
  }

  // ----- When wrapping fails -----

  /** The types that cannot be wrapped, at any depth of a value, in the order of a traversal. */
  function ForeignKinds(v: Js): seq<string> {
    match v
    case Foreign(kind) => [kind]
    case Array(items) => ForeignItems(items)
    case Object(props) => ForeignProps(props)
    case _ => []
  }

  function ForeignItems(items: seq<Js>): seq<string> {
    if items == [] then [] else ForeignKinds(items[0]) + ForeignItems(items[1..])
  }

  function ForeignProps(props: seq<Property>): seq<string> {
    if props == [] then [] else ForeignKinds(props[0].value) + ForeignProps(props[1..])
  }

  /** The outcome that a list of unsupported types calls for: the first one is reported. */
  ghost predicate Reports<T>(r: Result<T, string>, kinds: seq<string>) {
    if kinds == [] then r.Ok? else r == Err(kinds[0])
  }

  /** Wrapping fails exactly when some node at some depth has an unsupported type, and names the first such type. */
  lemma {:induction false} WrapFailsIff(v: Js)
    ensures Reports(Wrap(v), ForeignKinds(v))
  {
    match v
    case Array(items) => WrapItemsFailsIff(items);
    case Object(props) => WrapPropsFailsIff(props);
    case _ =>
  }

  lemma {:induction false} WrapItemsFailsIff(items: seq<Js>)
    ensures Reports(WrapItems(items), ForeignItems(items))
  {
    if items != [] {
      WrapFailsIff(items[0]);
      WrapItemsFailsIff(items[1..]);
    }
  }

  lemma {:induction false} WrapPropsFailsIff(props: seq<Property>)
    ensures Reports(WrapProps(props), ForeignProps(props))
  {
    if props != [] {
      WrapFailsIff(props[0].value);
      WrapPropsFailsIff(props[1..]);
    }
  }

  // ----- Round trip -----

  /** What was wrapped is unwrapped unchanged, at every depth. */
  lemma {:induction false} RoundTrip(v: Js)
    ensures Wrap(v).Ok? ==> Unwrap(Wrap(v).value) == v
  {
    match v
    case Array(items) => RoundTripItems(items);
    case Object(props) => RoundTripProps(props);
    case _ =>
  }

  lemma {:induction false} RoundTripItems(items: seq<Js>)
    ensures WrapItems(items).Ok? ==> UnwrapItems(WrapItems(items).value) == items
  {
    if items != [] && WrapItems(items).Ok? {
      RoundTrip(items[0]);
      RoundTripItems(items[1..]);
      var ms := WrapItems(items).value;
      assert ms[1..] == WrapItems(items[1..]).value;
      assert items == [items[0]] + items[1..];
    }
  }

  lemma {:induction false} RoundTripProps(props: seq<Property>)
    ensures WrapProps(props).Ok? ==> UnwrapFields(WrapProps(props).value) == props
  {
    if props != [] && WrapProps(props).Ok? {
      RoundTrip(props[0].value);
      RoundTripProps(props[1..]);
      var fs := WrapProps(props).value;
      assert fs[1..] == WrapProps(props[1..]).value;
      assert props == [props[0]] + props[1..];
    }
  }

  // ----- Canonical messages -----

  /** Unwrapping never yields an unsupported value, so what it yields can be wrapped. */
  lemma {:induction false} UnwrapIsWrappable(m: Message)
    ensures ForeignKinds(Unwrap(m)) == [] && Wrap(Unwrap(m)).Ok?
  {
    if m.stringValue.None? && m.numberValue.None? && m.boolValue.None? {
      if m.structValue.Struct? {
        UnwrapFieldsWrappable(m.structValue.fields);
      } else if m.listValue.List? {
        UnwrapItemsWrappable(m.listValue.values);
      }
    }
    WrapFailsIff(Unwrap(m));
  }

  lemma {:induction false} UnwrapItemsWrappable(ms: seq<Message>)
    ensures ForeignItems(UnwrapItems(ms)) == []
  {
    if ms != [] {
      UnwrapIsWrappable(ms[0]);
      UnwrapItemsWrappable(ms[1..]);
      assert UnwrapItems(ms)[1..] == UnwrapItems(ms[1..]);
    }
  }

  lemma {:induction false} UnwrapFieldsWrappable(fs: seq<Field>)
    ensures ForeignProps(UnwrapFields(fs)) == []
  {
    if fs != [] {
      UnwrapIsWrappable(fs[0].value);
      UnwrapFieldsWrappable(fs[1..]);
      assert UnwrapFields(fs)[1..] == UnwrapFields(fs[1..]);
    }
  }

  /** Wrapping what a message unwraps to. */
  function Canon(m: Message): Message {
    UnwrapIsWrappable(m);
    Wrap(Unwrap(m)).value
  }

  function VariantsSet(m: Message): nat {
    (if m.nullValue.Some? then 1 else 0) + (if m.numberValue.Some? then 1 else 0) + (if m.stringValue.Some? then 1 else 0) +
    (if m.boolValue.Some? then 1 else 0) + (if m.structValue.Struct? then 1 else 0) + (if m.listValue.List? then 1 else 0)
  }

  /** At every level at most one variant is set, and nulls are `NULL_VALUE`. */
  predicate Canonical(m: Message) {
    && VariantsSet(m) <= 1
    && m.nullValue != Some(UNRECOGNIZED)
    && (m.structValue.Struct? ==> CanonicalFields(m.structValue.fields))
    && (m.listValue.List? ==> CanonicalItems(m.listValue.values))
  }

  predicate CanonicalItems(ms: seq<Message>) {
    ms == [] || (Canonical(ms[0]) && CanonicalItems(ms[1..]))
  }

  predicate CanonicalFields(fs: seq<Field>) {
    fs == [] || (Canonical(fs[0].value) && CanonicalFields(fs[1..]))
  }

  /** Re-wrapping is a canonicaliser: it keeps what unwrapping sees, is idempotent, yields only canonical messages,
      and leaves exactly the canonical ones alone. */
  lemma CanonCanonicalises(m: Message)
    ensures Unwrap(Canon(m)) == Unwrap(m)
    ensures Canon(Canon(m)) == Canon(m)
    ensures Canonical(Canon(m))
    ensures Canon(m) == m <==> Canonical(m)
  {
    UnwrapIsWrappable(m);
    RoundTrip(Unwrap(m));
    UnwrapIsWrappable(Canon(m));
    WrapIsCanonical(Unwrap(m));
    CanonFixes(m);
  }

  lemma {:induction false} WrapIsCanonical(v: Js)
    ensures Wrap(v).Ok? ==> Canonical(Wrap(v).value)
  {
    match v
    case Array(items) => WrapItemsCanonical(items);
    case Object(props) => WrapPropsCanonical(props);
    case _ =>
  }

  lemma {:induction false} WrapItemsCanonical(items: seq<Js>)
    ensures WrapItems(items).Ok? ==> CanonicalItems(WrapItems(items).value)
  {
    if items != [] && WrapItems(items).Ok? {
      WrapIsCanonical(items[0]);
      WrapItemsCanonical(items[1..]);
      assert WrapItems(items).value[1..] == WrapItems(items[1..]).value;
    }
  }

  lemma {:induction false} WrapPropsCanonical(props: seq<Property>)
    ensures WrapProps(props).Ok? ==> CanonicalFields(WrapProps(props).value)
  {
    if props != [] && WrapProps(props).Ok? {
      WrapIsCanonical(props[0].value);
      WrapPropsCanonical(props[1..]);
      assert WrapProps(props).value[1..] == WrapProps(props[1..]).value;
    }
  }

  lemma {:induction false} CanonFixes(m: Message)
    ensures Canonical(m) ==> Wrap(Unwrap(m)) == Ok(m)
  {
    if Canonical(m) {
      if m.structValue.Struct? {
        CanonFixesFields(m.structValue.fields);
      } else if m.listValue.List? {
        CanonFixesItems(m.listValue.values);
      } else if m.nullValue.Some? {
        assert m.nullValue.value == NULL_VALUE;
        assert m.nullValue == Some(NULL_VALUE);
        assert m == EMPTY.(nullValue := Some(NULL_VALUE));
      }
    }
  }

  lemma {:induction false} CanonFixesItems(ms: seq<Message>)
    requires CanonicalItems(ms)
    ensures WrapItems(UnwrapItems(ms)) == Ok(ms)
  {
    if ms != [] {
      CanonFixes(ms[0]);
      CanonFixesItems(ms[1..]);
      assert UnwrapItems(ms)[1..] == UnwrapItems(ms[1..]);
      assert ms == [ms[0]] + ms[1..];
    }
  }

  lemma {:induction false} CanonFixesFields(fs: seq<Field>)
    requires CanonicalFields(fs)
    ensures WrapProps(UnwrapFields(fs)) == Ok(fs)
  {
    if fs != [] {
      CanonFixes(fs[0].value);
      CanonFixesFields(fs[1..]);
      assert UnwrapFields(fs)[1..] == UnwrapFields(fs[1..]);
      assert fs == [fs[0]] + fs[1..];
    }
  }

  // ----- What a message says -----

  /** The message `m` says `v`: of its variants exactly the one for the type of `v` is set, and no other (none at all
      for `undefined`), to the very scalar, to messages that say the items in order, or to messages that say the
      properties under their keys in order. */
  predicate Says(m: Message, v: Js) {
    && VariantsSet(m) == (if v.Undefined? then 0 else 1)
    && match v
       case Undefined => true
       case Null => m.nullValue == Some(NULL_VALUE)
       case Boolean(b) => m.boolValue == Some(b)
       case Number(bits) => m.numberValue == Some(bits)
       case String(s) => m.stringValue == Some(s)
       case Array(items) =>
         && m.listValue.List? && |m.listValue.values| == |items|
         && forall i | 0 <= i < |items| :: Says(m.listValue.values[i], items[i])
       case Object(props) =>
         && m.structValue.Struct? && |m.structValue.fields| == |props|
         && forall i | 0 <= i < |props| ::
              && m.structValue.fields[i].key == props[i].key
              && Says(m.structValue.fields[i].value, props[i].value)
       case Foreign(_) => false
  }

  /** Wrapping yields the one message that says the value. */
  lemma {:induction false} WrapSays(m: Message, v: Js)
    ensures Wrap(v) == Ok(m) <==> Says(m, v)
    decreases v
  {
    match v
    case Array(items) =>
      if m.listValue.List? {
        WrapItemsSay(m.listValue.values, items);
        OnlyVariant(m);
      }
    case Object(props) =>
      if m.structValue.Struct? {
        WrapPropsSay(m.structValue.fields, props);
        OnlyVariant(m);
      }
    case _ =>
  }

  /** A message with a single variant set is the empty one but for that variant. */
  lemma OnlyVariant(m: Message)
    ensures VariantsSet(m) <= 1 && m.listValue.List? ==> m == EMPTY.(listValue := m.listValue)
    ensures VariantsSet(m) <= 1 && m.structValue.Struct? ==> m == EMPTY.(structValue := m.structValue)
  {
  }

  lemma {:induction false} WrapItemsSay(ms: seq<Message>, items: seq<Js>)
    ensures WrapItems(items) == Ok(ms) <==>
            |ms| == |items| && forall i | 0 <= i < |items| :: Says(ms[i], items[i])
    decreases items
  {
    if items != [] && ms != [] {
      WrapSays(ms[0], items[0]);
      WrapItemsSay(ms[1..], items[1..]);
      assert ms == [ms[0]] + ms[1..];
      assert forall i | 0 < i < |items| :: items[i] == items[1..][i - 1];
      assert forall i | 0 < i < |ms| :: ms[i] == ms[1..][i - 1];
    }
  }

  lemma {:induction false} WrapPropsSay(fs: seq<Field>, props: seq<Property>)
    ensures WrapProps(props) == Ok(fs) <==>
            |fs| == |props| && forall i | 0 <= i < |props| :: fs[i].key == props[i].key && Says(fs[i].value, props[i].value)
    decreases props
  {
    if props != [] && fs != [] {
      WrapSays(fs[0].value, props[0].value);
      WrapPropsSay(fs[1..], props[1..]);
      assert fs == [fs[0]] + fs[1..];
      assert forall i | 0 < i < |props| :: props[i] == props[1..][i - 1];
      assert forall i | 0 < i < |fs| :: fs[i] == fs[1..][i - 1];
    }
  }

  /** And so it is the canonical message that unwraps to the value. */
  lemma SaysIsCanonical(m: Message, v: Js)
    ensures Says(m, v) <==> Canonical(m) && Unwrap(m) == v
  {
    WrapSays(m, v);
    RoundTrip(v);
    WrapIsCanonical(v);
    CanonFixes(m);
  }

  // ----- Precedence among the variants that are set -----

  /** Which variants are set, in the order of precedence. */
  function Variants(m: Message): (r: seq<bool>)
    ensures |r| == 6
  {
    [m.stringValue.Some?, m.numberValue.Some?, m.boolValue.Some?, m.structValue.Struct?, m.listValue.List?,
     m.nullValue.Some?]
  }

  /** What is left of a message that goes through a JavaScript value: of the variants that are set only the one of
      highest precedence, with its scalar as it was, its fields under the same keys in the same order, its items in
      the same order, and the same done to each of these. */
  lemma CanonKeepsHighest(m: Message)
    ensures forall i | 0 <= i < 6 :: Variants(Canon(m))[i] <==> Variants(m)[i] && forall j | 0 <= j < i :: !Variants(m)[j]
    ensures Canon(m).stringValue.Some? ==> Canon(m).stringValue == m.stringValue
    ensures Canon(m).numberValue.Some? ==> Canon(m).numberValue == m.numberValue
    ensures Canon(m).boolValue.Some? ==> Canon(m).boolValue == m.boolValue
    ensures Canon(m).structValue.Struct? ==>
              m.structValue.Struct? && Canon(m).structValue == Struct(CanonFields(m.structValue.fields))
    ensures Canon(m).listValue.List? ==>
              m.listValue.List? && Canon(m).listValue == List(CanonItems(m.listValue.values))
  {
    UnwrapIsWrappable(m);
    if m.structValue.Struct? {
      WrapUnwrapFields(m.structValue.fields);
    }
    if m.listValue.List? {
      WrapUnwrapItems(m.listValue.values);
    }
    OnlyFirst(Variants(m), Variants(Canon(m)));
  }

  lemma OnlyFirst(before: seq<bool>, after: seq<bool>)
    requires |before| == |after| == 6
    requires after == if before[0] then [true, false, false, false, false, false]
                      else if before[1] then [false, true, false, false, false, false]
                      else if before[2] then [false, false, true, false, false, false]
                      else if before[3] then [false, false, false, true, false, false]
                      else if before[4] then [false, false, false, false, true, false]
                      else [false, false, false, false, false, before[5]]
    ensures forall i | 0 <= i < 6 :: after[i] <==> before[i] && forall j | 0 <= j < i :: !before[j]
  {
  }

  function CanonFields(fs: seq<Field>): (r: seq<Field>)
    ensures |r| == |fs|
    ensures forall i | 0 <= i < |fs| :: r[i] == Field(fs[i].key, Canon(fs[i].value))
  {
    if fs == [] then [] else [Field(fs[0].key, Canon(fs[0].value))] + CanonFields(fs[1..])
  }

  function CanonItems(ms: seq<Message>): (r: seq<Message>)
    ensures |r| == |ms|
    ensures forall i | 0 <= i < |ms| :: r[i] == Canon(ms[i])
  {
    if ms == [] then [] else [Canon(ms[0])] + CanonItems(ms[1..])
  }

  lemma {:induction false} WrapUnwrapFields(fs: seq<Field>)
    ensures WrapProps(UnwrapFields(fs)) == Ok(CanonFields(fs))
  {
    if fs != [] {
      UnwrapIsWrappable(fs[0].value);
      WrapUnwrapFields(fs[1..]);
      assert UnwrapFields(fs)[1..] == UnwrapFields(fs[1..]);
    }
  }

  lemma {:induction false} WrapUnwrapItems(ms: seq<Message>)
    ensures WrapItems(UnwrapItems(ms)) == Ok(CanonItems(ms))
  {
    if ms != [] {
      UnwrapIsWrappable(ms[0]);
      WrapUnwrapItems(ms[1..]);
      assert UnwrapItems(ms)[1..] == UnwrapItems(ms[1..]);
    }
  }

  // ----- The loops of Struct.wrap and Struct.unwrap -----

  ghost predicate DistinctProps(props: seq<Property>) {
    forall i, j | 0 <= i < j < |props| :: props[i].key != props[j].key
  }

  ghost predicate DistinctFields(fs: seq<Field>) {
    forall i, j | 0 <= i < j < |fs| :: fs[i].key != fs[j].key
  }

  /** JavaScript objects have distinct keys, at every depth. */
  ghost predicate ProperJs(v: Js) {
    match v
    case Array(items) => forall i | 0 <= i < |items| :: ProperJs(items[i])
    case Object(props) =>
      && DistinctProps(props)
      && (forall i | 0 <= i < |props| :: ProperJs(props[i].value))
    case _ => true
  }

  /** `fields[key] = value`: an existing key keeps its place, a new one goes last. */
  function SetField(fs: seq<Field>, key: string, value: Message): seq<Field> {
    if fs == [] then [Field(key, value)]
    else if fs[0].key == key then [Field(key, value)] + fs[1..]
    else [fs[0]] + SetField(fs[1..], key, value)
  }

  function SetProperty(props: seq<Property>, key: string, value: Js): seq<Property> {
    if props == [] then [Property(key, value)]
    else if props[0].key == key then [Property(key, value)] + props[1..]
    else [props[0]] + SetProperty(props[1..], key, value)
  }

  lemma {:induction false} SetFieldAppends(fs: seq<Field>, key: string, value: Message)
    requires forall i | 0 <= i < |fs| :: fs[i].key != key
    ensures SetField(fs, key, value) == fs + [Field(key, value)]
  {
    if fs != [] {
      SetFieldAppends(fs[1..], key, value);
    }
  }

  lemma {:induction false} SetPropertyAppends(props: seq<Property>, key: string, value: Js)
    requires forall i | 0 <= i < |props| :: props[i].key != key
    ensures SetProperty(props, key, value) == props + [Property(key, value)]
  {
    if props != [] {
      SetPropertyAppends(props[1..], key, value);
    }
  }

  lemma {:induction false} WrapPropsSnoc(props: seq<Property>, i: nat)
    requires i < |props|
    ensures WrapProps(props[..i + 1]) ==
            match WrapProps(props[..i])
            case Err(kind) => Err(kind)
            case Ok(fs) =>
              match Wrap(props[i].value)
              case Err(kind) => Err(kind)
              case Ok(m) => Ok(fs + [Field(props[i].key, m)])
  {
    if i == 0 {
      assert props[..1][1..] == [] && props[..0] == [];
      if Wrap(props[0].value).Ok? {
        var first := Field(props[0].key, Wrap(props[0].value).value);
        assert [first] + [] == [] + [first];
      }
    } else {
      WrapPropsSnoc(props[1..], i - 1);
      assert props[..i + 1][1..] == props[1..][..i];
      assert props[..i][1..] == props[1..][..i - 1];
      var rest := WrapProps(props[1..][..i - 1]);
      if Wrap(props[0].value).Ok? && rest.Ok? && Wrap(props[i].value).Ok? {
        var first := Field(props[0].key, Wrap(props[0].value).value);
        var last := Field(props[i].key, Wrap(props[i].value).value);
        assert [first] + (rest.value + [last]) == ([first] + rest.value) + [last];
      }
    }
  }

  lemma {:induction false} WrapItemsSnoc(items: seq<Js>, i: nat)
    requires i < |items|
    ensures WrapItems(items[..i + 1]) ==
            match WrapItems(items[..i])
            case Err(kind) => Err(kind)
            case Ok(ms) =>
              match Wrap(items[i])
              case Err(kind) => Err(kind)
              case Ok(m) => Ok(ms + [m])
  {
    if i == 0 {
      assert items[..1][1..] == [] && items[..0] == [];
      if Wrap(items[0]).Ok? {
        assert [Wrap(items[0]).value] + [] == [] + [Wrap(items[0]).value];
      }
    } else {
      WrapItemsSnoc(items[1..], i - 1);
      assert items[..i + 1][1..] == items[1..][..i];
      assert items[..i][1..] == items[1..][..i - 1];
      var rest := WrapItems(items[1..][..i - 1]);
      if Wrap(items[0]).Ok? && rest.Ok? && Wrap(items[i]).Ok? {
        assert [Wrap(items[0]).value] + (rest.value + [Wrap(items[i]).value])
            == ([Wrap(items[0]).value] + rest.value) + [Wrap(items[i]).value];
      }
    }
  }

  lemma {:induction false} WrapPropsErr(props: seq<Property>, i: nat)
    requires i <= |props| && WrapProps(props[..i]).Err?
    ensures WrapProps(props) == WrapProps(props[..i])
    decreases |props| - i
  {
    if i == |props| {
      assert props[..i] == props;
    } else {
      WrapPropsSnoc(props, i);
      WrapPropsErr(props, i + 1);
    }
  }

  lemma {:induction false} WrapItemsErr(items: seq<Js>, i: nat)
    requires i <= |items| && WrapItems(items[..i]).Err?
    ensures WrapItems(items) == WrapItems(items[..i])
    decreases |items| - i
  {
    if i == |items| {
      assert items[..i] == items;
    } else {
      WrapItemsSnoc(items, i);
      WrapItemsErr(items, i + 1);
    }
  }

  lemma {:induction false} UnwrapFieldsSnoc(fs: seq<Field>, i: nat)
    requires i < |fs|
    ensures UnwrapFields(fs[..i + 1]) == UnwrapFields(fs[..i]) + [Property(fs[i].key, Unwrap(fs[i].value))]
  {
    if i == 0 {
      assert fs[..1][1..] == [];
    } else {
      UnwrapFieldsSnoc(fs[1..], i - 1);
      assert fs[..i + 1][1..] == fs[1..][..i];
      assert fs[..i][1..] == fs[1..][..i - 1];
    }
  }

  method ValueWrap(v: Js) returns (r: Result<Message, string>)
    requires ProperJs(v)
    ensures r == Wrap(v)
    decreases v, 1
  {
    var result := EMPTY;
    match v {
      case Undefined =>
      case Null => result := result.(nullValue := Some(NULL_VALUE));
      case Boolean(b) => result := result.(boolValue := Some(b));
      case Number(bits) => result := result.(numberValue := Some(bits));
      case String(s) => result := result.(stringValue := Some(s));
      case Array(items) =>
        var list := ListWrap(items);
        if list.Err? {
          return Err(list.error);
        }
        result := result.(listValue := List(list.value));
      case Object(props) =>
        var struct := StructWrap(props);
        if struct.Err? {
          return Err(struct.error);
        }
        result := result.(structValue := Struct(struct.value));
      case Foreign(kind) => return Err(kind);
    }
    return Ok(result);
  }

  method StructWrap(props: seq<Property>) returns (r: Result<seq<Field>, string>)
    requires DistinctProps(props)
    requires forall i | 0 <= i < |props| :: ProperJs(props[i].value)
    ensures r == WrapProps(props)
    decreases props, 0
  {
    var fields: seq<Field> := [];
    for i := 0 to |props|
      invariant |fields| == i && forall j | 0 <= j < i :: fields[j].key == props[j].key
      invariant WrapProps(props[..i]) == Ok(fields)
    {
      var value := ValueWrap(props[i].value);
      WrapPropsSnoc(props, i);
      if value.Err? {
        WrapPropsErr(props, i + 1);
        return Err(value.error);
      }
      SetFieldAppends(fields, props[i].key, value.value);
      fields := SetField(fields, props[i].key, value.value);
    }
    assert props[..|props|] == props;
    return Ok(fields);
  }

  method ListWrap(items: seq<Js>) returns (r: Result<seq<Message>, string>)
    requires forall i | 0 <= i < |items| :: ProperJs(items[i])
    ensures r == WrapItems(items)
    decreases items, 0
  {
    var values: seq<Message> := [];
    for i := 0 to |items|
      invariant WrapItems(items[..i]) == Ok(values)
    {
      var value := ValueWrap(items[i]);
      WrapItemsSnoc(items, i);
      if value.Err? {
        WrapItemsErr(items, i + 1);
        return Err(value.error);
      }
      values := values + [value.value];
    }
    assert items[..|items|] == items;
    return Ok(values);
  }

  /** `Struct.unwrap`. */
  method StructUnwrap(fs: seq<Field>) returns (props: seq<Property>)
    requires DistinctFields(fs)
    ensures props == UnwrapFields(fs)
  {
    props := [];
    for i := 0 to |fs|
      invariant |props| == i && forall j | 0 <= j < i :: props[j].key == fs[j].key
      invariant props == UnwrapFields(fs[..i])
    {
      UnwrapFieldsSnoc(fs, i);
      SetPropertyAppends(props, fs[i].key, Unwrap(fs[i].value));
      props := SetProperty(props, fs[i].key, Unwrap(fs[i].value));
    }
    assert fs[..|fs|] == fs;
  }
}
