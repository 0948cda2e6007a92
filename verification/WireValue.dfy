/**
 The tagged value encoding of backend/strategy_runtime/protocol.py, on JSON trees,
 and the freezing of values by backend/app/strategy_lab_v2/canonical.py.

 Decimals, instants, dates and floats are opaque contents; which of them are fit for
 the wire, how each kind is written as text and read back, and the two sort orders
 belong to the environment.
 */
module WireValue {
  import opened Wrappers

  // The name of a JSON field: one that the protocols use, or any other string.
  datatype Name =
    | Tag | Payload
    | ProtocolVersion | Fingerprint
    | SourceText | DefinitionField | Observations | Parameters | Invocations
    | MetricName | Unit | BasisField | SourceDigest | Entrypoint | DefinitionVersion
    | SampleSize | AnnualizationBasis | CalculationBasis | NullReason | CalculationDefinition | EvidenceReferences
    | FormulaId | ContractVersion | Role | Digest
    | RequestFingerprint | DefinitionFingerprint | InputDigest | ParametersDigest | StatusField | MetricField
    | RejectionReasons | ErrorDigest | Results
    | OtherName(name: string)

  datatype Json =
    | JNull
    | JBool(flag: bool)
    | JInt(number: int)
    | JFloat(float: int)
    | JStr(text: string)
    | JList(items: seq<Json>)
    | JObject(fields: map<Name, Json>)

  datatype LeafKind = Decimal | DateTime | Date | Float

  // A set stands for a set or a frozenset.  A duration can be a parameter, but has no
  // place on the wire.
  datatype Value =
    | Null
    | Bool(flag: bool)
    | Int(number: int)
    | Str(text: string)
    | Leaf(kind: LeafKind, content: int)
    | Duration(micros: int)
    | Mapping(entries: map<Name, Value>)
    | Tuple(items: seq<Value>)
    | List(items: seq<Value>)
    | Set(elements: set<Value>)

  // Finite numbers and instants with a time zone are fit.
  datatype Codec = Codec(
    fit: (LeafKind, int) -> bool,
    show: (LeafKind, int) -> string, read: (LeafKind, string) -> Option<int>,
    order: set<Json> -> seq<Json>, arrange: set<Value> -> seq<Value>)

  ghost predicate Lawful(codec: Codec) {
    && (forall kind, content | codec.fit(kind, content) :: codec.read(kind, codec.show(kind, content)) == Some(content))
    && (forall kind, text | codec.read(kind, text).Some? :: codec.fit(kind, codec.read(kind, text).value))
    && (forall s: set<Json> :: Lists(codec.order(s), s))
    && (forall s: set<Value> :: Lists(codec.arrange(s), s))
  }

  // Every element of a set once.
  ghost predicate Lists<T(!new)>(items: seq<T>, s: set<T>) {
    && |items| == |s|
    && forall x :: x in items <==> x in s
  }

  // ---- encoding -------------------------------------------------------------------

  datatype Kind = LeafTag(leaf: LeafKind) | MappingTag | TupleTag | ListTag | SetTag

  function KindText(kind: Kind): string {
    match kind
    case LeafTag(Decimal) => "decimal"
    case LeafTag(DateTime) => "datetime"
    case LeafTag(Date) => "date"
    case LeafTag(Float) => "float"
    case MappingTag => "mapping"
    case TupleTag => "tuple"
    case ListTag => "list"
    case SetTag => "set"
  }

  function KindOf(text: string): Option<Kind> {
    if text == "decimal" then Some(LeafTag(Decimal))
    else if text == "datetime" then Some(LeafTag(DateTime))
    else if text == "date" then Some(LeafTag(Date))
    else if text == "float" then Some(LeafTag(Float))
    else if text == "mapping" then Some(MappingTag)
    else if text == "tuple" then Some(TupleTag)
    else if text == "list" then Some(ListTag)
    else if text == "set" then Some(SetTag)
    else None
  }

  lemma KindReadsBack(kind: Kind)
    ensures KindOf(KindText(kind)) == Some(kind)
  {
  }

  lemma KindIsShown(text: string)
    requires KindOf(text).Some?
    ensures KindText(KindOf(text).value) == text
  {
  }

  function Tagged(kind: Kind, payload: Json): Json { JObject(map[Tag := JStr(KindText(kind)), Payload := payload]) }

  function EncodeFields(codec: Codec, mapping: Value): (encoded: Option<map<Name, Json>>)
    requires mapping.Mapping?
    ensures encoded.Some? <==> forall k | k in mapping.entries :: Encode(codec, mapping.entries[k]).Some?
    ensures encoded.Some? ==>
      && encoded.value.Keys == mapping.entries.Keys
      && forall k | k in mapping.entries :: Encode(codec, mapping.entries[k]) == Some(encoded.value[k])
    decreases mapping, 0
  {
    if forall k | k in mapping.entries :: Encode(codec, mapping.entries[k]).Some? then
      Some(map k | k in mapping.entries && Encode(codec, mapping.entries[k]).Some? ::
             Encode(codec, mapping.entries[k]).value)
    else None
  }

  function EncodeItems(codec: Codec, list: Value): (encoded: Option<seq<Json>>)
    requires list.Tuple? || list.List?
    ensures encoded.Some? <==> forall i | 0 <= i < |list.items| :: Encode(codec, list.items[i]).Some?
    ensures encoded.Some? ==>
      && |encoded.value| == |list.items|
      && forall i | 0 <= i < |list.items| :: Encode(codec, list.items[i]) == Some(encoded.value[i])
    decreases list, 0
  {
    if forall i | 0 <= i < |list.items| :: Encode(codec, list.items[i]).Some? then
      Some(seq(|list.items|, i requires 0 <= i < |list.items| && Encode(codec, list.items[i]).Some? =>
             Encode(codec, list.items[i]).value))
    else None
  }

  function EncodeElements(codec: Codec, s: Value): (encoded: Option<set<Json>>)
    requires s.Set?
    ensures encoded.Some? <==> forall x | x in s.elements :: Encode(codec, x).Some?
    ensures encoded.Some? ==>
              forall y :: y in encoded.value <==> exists x | x in s.elements :: Encode(codec, x) == Some(y)
    decreases s, 0
  {
    if forall x | x in s.elements :: Encode(codec, x).Some? then
      Some(set x | x in s.elements && Encode(codec, x).Some? :: Encode(codec, x).value)
    else None
  }

  // The traversal stops at the first part that has no wire form.
  function Encode(codec: Codec, v: Value): Option<Json>
    decreases v, 1
  {
    match v
    case Null => Some(JNull)
    case Bool(flag) => Some(JBool(flag))
    case Int(number) => Some(JInt(number))
    case Str(text) => Some(JStr(text))
    case Leaf(kind, content) =>
      if codec.fit(kind, content) then Some(Tagged(LeafTag(kind), JStr(codec.show(kind, content)))) else None
    case Duration(_) => None
    case Mapping(_) =>
      var fields := EncodeFields(codec, v);
      if fields.None? then None else Some(Tagged(MappingTag, JObject(fields.value)))
    case Tuple(_) =>
      var items := EncodeItems(codec, v);
      if items.None? then None else Some(Tagged(TupleTag, JList(items.value)))
    case List(_) =>
      var items := EncodeItems(codec, v);
      if items.None? then None else Some(Tagged(ListTag, JList(items.value)))
    case Set(_) =>
      var elements := EncodeElements(codec, v);
      if elements.None? then None else Some(Tagged(SetTag, JList(codec.order(elements.value))))
  }

  // ---- where encoding fails -----------------------------------------------------------

  // A value occurs within another at some depth, or is that other.
  ghost predicate Within(part: Value, v: Value) {
    part == v
    || match v
       case Mapping(entries) => exists k | k in entries :: Within(part, entries[k])
       case Tuple(items) => exists i | 0 <= i < |items| :: Within(part, items[i])
       case List(items) => exists i | 0 <= i < |items| :: Within(part, items[i])
       case Set(elements) => exists x | x in elements :: Within(part, x)
       case _ => false
  }

  predicate Unsendable(codec: Codec, part: Value) {
    part.Duration? || (part.Leaf? && !codec.fit(part.kind, part.content))
  }

  // Encoding fails exactly on the values that hold a duration, a number that is not
  // finite or an instant without time zone, at any depth.
  lemma {:induction false} EncodeFailsIff(codec: Codec, v: Value)
    ensures Encode(codec, v).None? <==> exists part :: Within(part, v) && Unsendable(codec, part)
    decreases v
  {
    match v
    case Mapping(entries) =>
      forall k | k in entries
        ensures Encode(codec, entries[k]).None? <==> exists part :: Within(part, entries[k]) && Unsendable(codec, part)
      {
        EncodeFailsIff(codec, entries[k]);
      }
    case Tuple(items) =>
      forall i | 0 <= i < |items|
        ensures Encode(codec, items[i]).None? <==> exists part :: Within(part, items[i]) && Unsendable(codec, part)
      {
        EncodeFailsIff(codec, items[i]);
      }
    case List(items) =>
      forall i | 0 <= i < |items|
        ensures Encode(codec, items[i]).None? <==> exists part :: Within(part, items[i]) && Unsendable(codec, part)
      {
        EncodeFailsIff(codec, items[i]);
      }
    case Set(elements) =>
      forall x | x in elements
        ensures Encode(codec, x).None? <==> exists part :: Within(part, x) && Unsendable(codec, part)
      {
        EncodeFailsIff(codec, x);
      }
    case _ => assert Within(v, v);
  }

  // ---- decoding -------------------------------------------------------------------

  function DecodeAll(codec: Codec, list: Json): (decoded: Option<seq<Value>>)
    requires list.JList?
    ensures decoded.Some? <==> forall i | 0 <= i < |list.items| :: Decode(codec, list.items[i]).Some?
    ensures decoded.Some? ==>
      && |decoded.value| == |list.items|
      && forall i | 0 <= i < |list.items| :: Decode(codec, list.items[i]) == Some(decoded.value[i])
    decreases list, 0
  {
    if forall i | 0 <= i < |list.items| :: Decode(codec, list.items[i]).Some? then
      Some(seq(|list.items|, i requires 0 <= i < |list.items| && Decode(codec, list.items[i]).Some? =>
             Decode(codec, list.items[i]).value))
    else None
  }

  function DecodeFields(codec: Codec, fields: Json): (decoded: Option<map<Name, Value>>)
    requires fields.JObject?
    ensures decoded.Some? <==> forall k | k in fields.fields :: Decode(codec, fields.fields[k]).Some?
    ensures decoded.Some? ==>
      && decoded.value.Keys == fields.fields.Keys
      && forall k | k in fields.fields :: Decode(codec, fields.fields[k]) == Some(decoded.value[k])
    decreases fields, 0
  {
    if forall k | k in fields.fields :: Decode(codec, fields.fields[k]).Some? then
      Some(map k | k in fields.fields && Decode(codec, fields.fields[k]).Some? :: Decode(codec, fields.fields[k]).value)
    else None
  }

  // What the decoder can put into a set: no mapping, list or set, at any depth of
  // tuples.  It makes sets, never frozensets.
  predicate Hashable(v: Value) {
    !v.Mapping? && !v.List? && !v.Set? && (v.Tuple? ==> forall i | 0 <= i < |v.items| :: Hashable(v.items[i]))
  }

  function DecodeTagged(codec: Codec, kind: Kind, payload: Json): Option<Value>
    decreases payload, 1
  {
    match kind
    case LeafTag(leaf) =>
      if !payload.JStr? then None
      else
        var content := codec.read(leaf, payload.text);
        if content.None? then None else Some(Leaf(leaf, content.value))
    case MappingTag =>
      if !payload.JObject? then None
      else
        var entries := DecodeFields(codec, payload);
        if entries.None? then None else Some(Mapping(entries.value))
    case TupleTag =>
      if !payload.JList? || DecodeAll(codec, payload).None? then None
      else Some(Tuple(DecodeAll(codec, payload).value))
    case ListTag =>
      if !payload.JList? || DecodeAll(codec, payload).None? then None
      else Some(List(DecodeAll(codec, payload).value))
    case SetTag =>
      if !payload.JList? || DecodeAll(codec, payload).None? then None
      else
        var items := DecodeAll(codec, payload).value;
        if forall i | 0 <= i < |items| :: Hashable(items[i]) then Some(Set(set x | x in items)) else None
  }

  function Decode(codec: Codec, j: Json): Option<Value>
    decreases j, 0
  {
    match j
    case JNull => Some(Null)
    case JBool(flag) => Some(Bool(flag))
    case JInt(number) => Some(Int(number))
    case JFloat(float) => if codec.fit(Float, float) then Some(Leaf(Float, float)) else None
    case JStr(text) => Some(Str(text))
    case JList(_) => None
    case JObject(fields) =>
      if fields.Keys != {Tag, Payload} || !fields[Tag].JStr? then None
      else
        var kind := KindOf(fields[Tag].text);
        if kind.None? then None else DecodeTagged(codec, kind.value, fields[Payload])
  }

  // ---- decoding undoes encoding -----------------------------------------------------

  lemma TaggedDecodes(codec: Codec, kind: Kind, payload: Json)
    ensures Decode(codec, Tagged(kind, payload)) == DecodeTagged(codec, kind, payload)
  {
    KindReadsBack(kind);
    assert Tagged(kind, payload).fields.Keys == {Tag, Payload};
  }

  // The elements of every set can be decoded into a set.
  predicate Flat(v: Value) {
    match v
    case Mapping(entries) => forall k | k in entries :: Flat(entries[k])
    case Tuple(items) => forall i | 0 <= i < |items| :: Flat(items[i])
    case List(items) => forall i | 0 <= i < |items| :: Flat(items[i])
    case Set(elements) => forall x | x in elements :: Flat(x) && Hashable(x)
    case _ => true
  }

  ghost predicate Returns(codec: Codec, v: Value) {
    Encode(codec, v).Some? && Decode(codec, Encode(codec, v).value) == if Flat(v) then Some(v) else None
  }

  lemma MappingReturns(codec: Codec, v: Value)
    requires v.Mapping? && Encode(codec, v).Some? && forall k | k in v.entries :: Returns(codec, v.entries[k])
    ensures Returns(codec, v)
  {
    var payload := JObject(EncodeFields(codec, v).value);
    TaggedDecodes(codec, MappingTag, payload);
    forall k | k in v.entries
      ensures Decode(codec, payload.fields[k]) == if Flat(v.entries[k]) then Some(v.entries[k]) else None
    {
      assert Returns(codec, v.entries[k]);
    }
    if Flat(v) {
      assert DecodeFields(codec, payload).value == v.entries;
    } else {
      var k :| k in v.entries && !Flat(v.entries[k]);
      assert Decode(codec, payload.fields[k]).None?;
    }
  }

  lemma ListReturns(codec: Codec, v: Value)
    requires (v.Tuple? || v.List?) && Encode(codec, v).Some?
    requires forall i | 0 <= i < |v.items| :: Returns(codec, v.items[i])
    ensures Returns(codec, v)
  {
    var payload := JList(EncodeItems(codec, v).value);
    TaggedDecodes(codec, if v.Tuple? then TupleTag else ListTag, payload);
    forall i | 0 <= i < |v.items|
      ensures Decode(codec, payload.items[i]) == if Flat(v.items[i]) then Some(v.items[i]) else None
    {
      assert Returns(codec, v.items[i]);
    }
    if Flat(v) {
      assert DecodeAll(codec, payload).value == v.items;
    } else {
      var i :| 0 <= i < |v.items| && !Flat(v.items[i]);
      assert Decode(codec, payload.items[i]).None?;
    }
  }

  lemma FlatSetReturns(codec: Codec, elements: set<Value>, payload: Json)
    requires payload.JList? && forall x | x in elements :: Flat(x) && Returns(codec, x)
    requires forall y :: y in payload.items <==> exists x | x in elements :: Encode(codec, x) == Some(y)
    ensures DecodeTagged(codec, SetTag, payload)
            == if forall x | x in elements :: Hashable(x) then Some(Set(elements)) else None
  {
    ElementsReturn(codec, elements, payload);
    SetOfDecoded(codec, elements, payload, DecodeAll(codec, payload).value);
  }

  lemma SetOfDecoded(codec: Codec, elements: set<Value>, payload: Json, decoded: seq<Value>)
    requires payload.JList? && DecodeAll(codec, payload) == Some(decoded)
    requires forall x :: x in decoded <==> x in elements
    ensures DecodeTagged(codec, SetTag, payload)
            == if forall x | x in elements :: Hashable(x) then Some(Set(elements)) else None
  {
    assert (set x | x in decoded) == elements;
    assert (forall x | x in elements :: Hashable(x)) <==> (forall i | 0 <= i < |decoded| :: Hashable(decoded[i])) by {
      assert forall i | 0 <= i < |decoded| :: decoded[i] in decoded;
      assert forall x | x in elements :: x in decoded;
    }
  }

  lemma LostElement(codec: Codec, x: Value, payload: Json)
    requires payload.JList? && Returns(codec, x) && !Flat(x) && Encode(codec, x).value in payload.items
    ensures DecodeTagged(codec, SetTag, payload).None?
  {
    var i :| 0 <= i < |payload.items| && payload.items[i] == Encode(codec, x).value;
    assert Decode(codec, payload.items[i]).None?;
  }

  lemma SetReturns(codec: Codec, v: Value)
    requires Lawful(codec) && v.Set? && Encode(codec, v).Some? && forall x | x in v.elements :: Returns(codec, x)
    ensures Returns(codec, v)
  {
    var encoded := EncodeElements(codec, v).value;
    var payload := JList(codec.order(encoded));
    TaggedDecodes(codec, SetTag, payload);
    assert Lists(payload.items, encoded);
    if forall x | x in v.elements :: Flat(x) {
      FlatSetReturns(codec, v.elements, payload);
    } else {
      var x :| x in v.elements && !Flat(x);
      assert Returns(codec, x);
      assert Encode(codec, x).value in encoded;
      LostElement(codec, x, payload);
    }
  }

  lemma ElementsReturn(codec: Codec, elements: set<Value>, payload: Json)
    requires payload.JList? && forall x | x in elements :: Flat(x) && Returns(codec, x)
    requires forall y :: y in payload.items <==> exists x | x in elements :: Encode(codec, x) == Some(y)
    ensures DecodeAll(codec, payload).Some?
    ensures forall x :: x in DecodeAll(codec, payload).value <==> x in elements
  {
    forall i | 0 <= i < |payload.items|
      ensures Decode(codec, payload.items[i]).Some? && Decode(codec, payload.items[i]).value in elements
    {
      assert payload.items[i] in payload.items;
      var x :| x in elements && Encode(codec, x) == Some(payload.items[i]);
      assert Returns(codec, x);
    }
    forall x | x in elements ensures x in DecodeAll(codec, payload).value {
      assert Returns(codec, x);
      var y := Encode(codec, x).value;
      assert y in payload.items;
      var i :| 0 <= i < |payload.items| && payload.items[i] == y;
      assert DecodeAll(codec, payload).value[i] == x;
    }
  }

  // Decoding undoes encoding on every value with a wire form whose sets hold nothing
  // that the decoder cannot put into a set; on any other it fails.
  lemma {:induction false} RoundTripIff(codec: Codec, v: Value)
    requires Lawful(codec) && Encode(codec, v).Some?
    ensures Decode(codec, Encode(codec, v).value) == if Flat(v) then Some(v) else None
    decreases v
  {
    match v
    case Leaf(kind, content) =>
      TaggedDecodes(codec, LeafTag(kind), JStr(codec.show(kind, content)));
    case Mapping(entries) =>
      forall k | k in entries ensures Returns(codec, entries[k]) { RoundTripIff(codec, entries[k]); }
      MappingReturns(codec, v);
    case Tuple(items) =>
      forall i | 0 <= i < |items| ensures Returns(codec, items[i]) { RoundTripIff(codec, items[i]); }
      ListReturns(codec, v);
    case List(items) =>
      forall i | 0 <= i < |items| ensures Returns(codec, items[i]) { RoundTripIff(codec, items[i]); }
      ListReturns(codec, v);
    case Set(elements) =>
      forall x | x in elements ensures Returns(codec, x) { RoundTripIff(codec, x); }
      SetReturns(codec, v);
    case _ =>
  }

  // ---- which sets return ----------------------------------------------------------------

  // A value that can be an element of a set: no mapping or list, at any depth.
  predicate CanBeElement(v: Value) {
    match v
    case Mapping(_) => false
    case List(_) => false
    case Tuple(items) => forall i | 0 <= i < |items| :: CanBeElement(items[i])
    case Set(elements) => forall x | x in elements :: CanBeElement(x)
    case _ => true
  }

  // The values that exist: every set holds only what a set can hold.
  predicate Possible(v: Value) {
    match v
    case Mapping(entries) => forall k | k in entries :: Possible(entries[k])
    case Tuple(items) => forall i | 0 <= i < |items| :: Possible(items[i])
    case List(items) => forall i | 0 <= i < |items| :: Possible(items[i])
    case Set(elements) => forall x | x in elements :: Possible(x) && CanBeElement(x)
    case _ => true
  }

  ghost predicate NestedAt(v: Value, outer: set<Value>, x: Value, inner: set<Value>) {
    Within(Set(outer), v) && x in outer && Within(Set(inner), x)
  }

  // A set, here a frozenset, occurs inside an element of a set.
  ghost predicate HoldsNestedSet(v: Value) { exists outer, x, inner :: NestedAt(v, outer, x, inner) }

  lemma {:induction false} HashableIff(v: Value)
    requires CanBeElement(v)
    ensures Hashable(v) <==> forall t :: !Within(Set(t), v)
    decreases v
  {
    match v
    case Tuple(items) =>
      forall i | 0 <= i < |items| ensures Hashable(items[i]) <==> forall t :: !Within(Set(t), items[i]) {
        HashableIff(items[i]);
      }
      if forall t :: !Within(Set(t), v) {
        forall i, t | 0 <= i < |items| ensures !Within(Set(t), items[i]) { assert !Within(Set(t), v); }
      }
    case Set(elements) => assert Within(Set(elements), v);
    case _ =>
  }

  // A value's parts hold a nested set exactly when it does, unless it is a set itself.
  lemma NestedInPart(v: Value, part: Value)
    requires HoldsNestedSet(part) && forall u :: Within(u, part) ==> Within(u, v)
    ensures HoldsNestedSet(v)
  {
    var outer, x, inner :| NestedAt(part, outer, x, inner);
    assert NestedAt(v, outer, x, inner);
  }

  // Outside a set, a nested set is one of a part.
  lemma NestedComesFromPart(v: Value) returns (part: Value)
    requires HoldsNestedSet(v) && (v.Mapping? || v.Tuple? || v.List?)
    ensures HoldsNestedSet(part)
    ensures v.Mapping? ==> exists k | k in v.entries :: v.entries[k] == part
    ensures !v.Mapping? ==> part in v.items
  {
    var outer, x, inner :| NestedAt(v, outer, x, inner);
    if v.Mapping? {
      var k :| k in v.entries && Within(Set(outer), v.entries[k]);
      part := v.entries[k];
    } else {
      var i :| 0 <= i < |v.items| && Within(Set(outer), v.items[i]);
      part := v.items[i];
    }
    assert NestedAt(part, outer, x, inner);
  }

  lemma {:induction false} FlatIff(v: Value)
    requires Possible(v)
    ensures Flat(v) <==> !HoldsNestedSet(v)
    decreases v
  {
    if HoldsNestedSet(v) && (v.Mapping? || v.Tuple? || v.List?) { var _ := NestedComesFromPart(v); }
    match v
    case Mapping(entries) =>
      forall k | k in entries ensures Flat(entries[k]) <==> !HoldsNestedSet(entries[k]) { FlatIff(entries[k]); }
      forall k | k in entries && HoldsNestedSet(entries[k]) ensures HoldsNestedSet(v) { NestedInPart(v, entries[k]); }
    case Tuple(items) =>
      forall i | 0 <= i < |items| ensures Flat(items[i]) <==> !HoldsNestedSet(items[i]) { FlatIff(items[i]); }
      forall i | 0 <= i < |items| && HoldsNestedSet(items[i]) ensures HoldsNestedSet(v) {
        NestedInPart(v, items[i]);
      }
    case List(items) =>
      forall i | 0 <= i < |items| ensures Flat(items[i]) <==> !HoldsNestedSet(items[i]) { FlatIff(items[i]); }
      forall i | 0 <= i < |items| && HoldsNestedSet(items[i]) ensures HoldsNestedSet(v) {
        NestedInPart(v, items[i]);
      }
    case Set(elements) =>
      forall x | x in elements ensures Flat(x) <==> !HoldsNestedSet(x) { FlatIff(x); }
      SetIsFlatIff(v);
    case _ =>
  }

  lemma SetIsFlatIff(v: Value)
    requires v.Set? && Possible(v) && forall x | x in v.elements :: Flat(x) <==> !HoldsNestedSet(x)
    ensures Flat(v) <==> !HoldsNestedSet(v)
  {
    assert Within(v, v);
    forall x | x in v.elements ensures Hashable(x) <==> forall t :: !Within(Set(t), x) { HashableIff(x); }
    if HoldsNestedSet(v) {
      NestedInSet(v);
    }
    if !Flat(v) {
      if x :| x in v.elements && HoldsNestedSet(x) {
        NestedInPart(v, x);
      } else {
        var x :| x in v.elements && !Hashable(x);
        var inner :| Within(Set(inner), x);
        assert NestedAt(v, v.elements, x, inner);
      }
    }
  }

  lemma NestedInSet(v: Value)
    requires v.Set? && HoldsNestedSet(v)
    ensures exists x | x in v.elements :: HoldsNestedSet(x) || exists inner :: Within(Set(inner), x)
  {
    var outer, x, inner :| NestedAt(v, outer, x, inner);
    if outer != v.elements {
      var y :| y in v.elements && Within(Set(outer), y);
      assert NestedAt(y, outer, x, inner);
    }
  }

  // On the values that exist, decoding undoes encoding exactly when no set occurs
  // inside an element of a set.
  lemma RoundTrip(codec: Codec, v: Value)
    requires Lawful(codec) && Encode(codec, v).Some? && Possible(v)
    ensures Decode(codec, Encode(codec, v).value) == Some(v) <==> !HoldsNestedSet(v)
    ensures HoldsNestedSet(v) ==> Decode(codec, Encode(codec, v).value) == None
  {
    RoundTripIff(codec, v);
    FlatIff(v);
  }

  // The set of the empty frozenset is encoded and then refused by the decoder.
  lemma NestedSetIsLost(codec: Codec)
    requires Lawful(codec)
    ensures var v := Set({Set({})});
      && Possible(v) && Encode(codec, v).Some? && Decode(codec, Encode(codec, v).value).None?
  {
    var v := Set({Set({})});
    assert NestedAt(v, v.elements, Set({}), {});
    assert Encode(codec, Set({})).Some?;
    RoundTrip(codec, v);
  }

  // Decoding gives only values that have a wire form and return.
  lemma {:induction false} DecodedIsSendable(codec: Codec, j: Json)
    requires Lawful(codec) && Decode(codec, j).Some?
    ensures Encode(codec, Decode(codec, j).value).Some? && Flat(Decode(codec, j).value)
    decreases j
  {
    if j.JObject? {
      var payload := j.fields[Payload];
      if payload.JList? {
        forall i | 0 <= i < |payload.items| && Decode(codec, payload.items[i]).Some?
          ensures Encode(codec, Decode(codec, payload.items[i]).value).Some?
          ensures Flat(Decode(codec, payload.items[i]).value)
        {
          DecodedIsSendable(codec, payload.items[i]);
        }
      } else if payload.JObject? {
        forall k | k in payload.fields && Decode(codec, payload.fields[k]).Some?
          ensures Encode(codec, Decode(codec, payload.fields[k]).value).Some?
          ensures Flat(Decode(codec, payload.fields[k]).value)
        {
          DecodedIsSendable(codec, payload.fields[k]);
        }
      }
    }
  }

  // ---- which payloads are canonical ---------------------------------------------------

  predicate CanonicalTagged(codec: Codec, kind: Kind, payload: Json)
    requires DecodeTagged(codec, kind, payload).Some?
    decreases payload, 1
  {
    match kind
    case LeafTag(leaf) => codec.show(leaf, codec.read(leaf, payload.text).value) == payload.text
    case MappingTag => forall k | k in payload.fields :: Canonical(codec, payload.fields[k])
    case TupleTag => forall i | 0 <= i < |payload.items| :: Canonical(codec, payload.items[i])
    case ListTag => forall i | 0 <= i < |payload.items| :: Canonical(codec, payload.items[i])
    case SetTag =>
      && (forall i | 0 <= i < |payload.items| :: Canonical(codec, payload.items[i]))
      && payload.items == codec.order(set x | x in payload.items)
  }

  // Floats are tagged, texts are as they would be shown, sets are in order without
  // repetition.
  predicate Canonical(codec: Codec, j: Json)
    requires Decode(codec, j).Some?
    decreases j, 0
  {
    match j
    case JFloat(_) => false
    case JObject(fields) => CanonicalTagged(codec, KindOf(fields[Tag].text).value, fields[Payload])
    case _ => true
  }

  lemma DecodedIsTagged(codec: Codec, j: Json)
    requires j.JObject? && Decode(codec, j).Some?
    ensures KindOf(j.fields[Tag].text).Some?
    ensures j == Tagged(KindOf(j.fields[Tag].text).value, j.fields[Payload])
  {
    KindIsShown(j.fields[Tag].text);
  }

  lemma TaggedIsInjective(kind: Kind, a: Json, b: Json)
    ensures Tagged(kind, a) == Tagged(kind, b) <==> a == b
  {
    assert Tagged(kind, a).fields[Payload] == a && Tagged(kind, b).fields[Payload] == b;
  }

  ghost predicate SameAgain(codec: Codec, v: Value, j: Json) { Encode(codec, v) == Some(j) }

  // An accepted payload is encoded again as itself exactly when it is canonical.
  lemma {:induction false} ReencodedIff(codec: Codec, j: Json)
    requires Lawful(codec) && Decode(codec, j).Some?
    ensures Encode(codec, Decode(codec, j).value) == Some(j) <==> Canonical(codec, j)
    decreases j, 1
  {
    DecodedIsSendable(codec, j);
    if j.JObject? {
      var kind, payload := KindOf(j.fields[Tag].text).value, j.fields[Payload];
      var v := Decode(codec, j).value;
      DecodedIsTagged(codec, j);
      match kind
      case LeafTag(leaf) => TaggedIsInjective(kind, JStr(codec.show(leaf, v.content)), payload);
      case MappingTag =>
        FieldsReencodedIff(codec, payload, v);
        TaggedIsInjective(kind, JObject(EncodeFields(codec, v).value), payload);
      case TupleTag =>
        ItemsReencodedIff(codec, payload, v);
        TaggedIsInjective(kind, JList(EncodeItems(codec, v).value), payload);
      case ListTag =>
        ItemsReencodedIff(codec, payload, v);
        TaggedIsInjective(kind, JList(EncodeItems(codec, v).value), payload);
      case SetTag =>
        SetReencodedIff(codec, payload, v);
        TaggedIsInjective(kind, JList(codec.order(EncodeElements(codec, v).value)), payload);
    }
  }

  lemma {:induction false} FieldsReencodedIff(codec: Codec, payload: Json, v: Value)
    requires Lawful(codec) && payload.JObject? && DecodeFields(codec, payload).Some?
    requires v == Mapping(DecodeFields(codec, payload).value) && EncodeFields(codec, v).Some?
    ensures EncodeFields(codec, v).value == payload.fields
            <==> forall k | k in payload.fields :: Canonical(codec, payload.fields[k])
    decreases payload, 0
  {
    var encoded := EncodeFields(codec, v).value;
    forall k | k in payload.fields ensures encoded[k] == payload.fields[k] <==> Canonical(codec, payload.fields[k]) {
      ReencodedIff(codec, payload.fields[k]);
    }
    if forall k | k in payload.fields :: Canonical(codec, payload.fields[k]) {
      assert encoded == payload.fields;
    }
  }

  lemma {:induction false} ItemsReencodedIff(codec: Codec, payload: Json, v: Value)
    requires Lawful(codec) && payload.JList? && DecodeAll(codec, payload).Some?
    requires (v.Tuple? || v.List?) && v.items == DecodeAll(codec, payload).value && EncodeItems(codec, v).Some?
    ensures EncodeItems(codec, v).value == payload.items
            <==> forall i | 0 <= i < |payload.items| :: Canonical(codec, payload.items[i])
    decreases payload, 0
  {
    var encoded := EncodeItems(codec, v).value;
    forall i | 0 <= i < |payload.items| ensures encoded[i] == payload.items[i] <==> Canonical(codec, payload.items[i]) {
      ReencodedIff(codec, payload.items[i]);
    }
    if forall i | 0 <= i < |payload.items| :: Canonical(codec, payload.items[i]) {
      assert encoded == payload.items;
    }
  }

  lemma {:induction false} SetReencodedIff(codec: Codec, payload: Json, v: Value)
    requires Lawful(codec) && payload.JList? && DecodeAll(codec, payload).Some?
    requires v == Set(set x | x in DecodeAll(codec, payload).value) && EncodeElements(codec, v).Some? && Flat(v)
    ensures codec.order(EncodeElements(codec, v).value) == payload.items <==>
            (forall i | 0 <= i < |payload.items| :: Canonical(codec, payload.items[i]))
            && payload.items == codec.order(set x | x in payload.items)
    decreases payload, 0
  {
    var items := DecodeAll(codec, payload).value;
    var encoded := EncodeElements(codec, v).value;
    forall i | 0 <= i < |payload.items|
      ensures SameAgain(codec, items[i], payload.items[i]) <==> Canonical(codec, payload.items[i])
    {
      ReencodedIff(codec, payload.items[i]);
    }
    if payload.items == codec.order(encoded) {
      OrderedIsSameAgain(codec, payload, items, encoded);
    }
    if forall i | 0 <= i < |payload.items| :: Canonical(codec, payload.items[i]) {
      SameAgainIsEncoded(codec, payload.items, items, encoded);
    }
  }

  // If the ordered list is the payload, encoding after decoding maps the payload
  // onto itself; as doing so twice is doing so once, it changes none of its items.
  lemma OrderedIsSameAgain(codec: Codec, payload: Json, items: seq<Value>, encoded: set<Json>)
    requires Lawful(codec) && payload.JList? && DecodeAll(codec, payload) == Some(items)
    requires forall x | x in items :: Flat(x) && Encode(codec, x).Some?
    requires forall y :: y in encoded <==> exists x | x in items :: Encode(codec, x) == Some(y)
    requires payload.items == codec.order(encoded)
    ensures forall i | 0 <= i < |payload.items| :: SameAgain(codec, items[i], payload.items[i])
    ensures encoded == set x | x in payload.items
  {
    assert Lists(codec.order(encoded), encoded);
    forall i | 0 <= i < |payload.items| ensures SameAgain(codec, items[i], payload.items[i]) {
      assert payload.items[i] in encoded;
      var x :| x in items && Encode(codec, x) == Some(payload.items[i]);
      RoundTripIff(codec, x);
      assert items[i] == x;
    }
  }

  lemma SameAgainIsEncoded(codec: Codec, payload: seq<Json>, items: seq<Value>, encoded: set<Json>)
    requires |payload| == |items| && forall i | 0 <= i < |items| :: SameAgain(codec, items[i], payload[i])
    requires forall y :: y in encoded <==> exists x | x in items :: Encode(codec, x) == Some(y)
    ensures encoded == set x | x in payload
  {
    forall y | y in encoded ensures y in payload {
      var x :| x in items && Encode(codec, x) == Some(y);
      var i :| 0 <= i < |items| && items[i] == x;
      assert SameAgain(codec, items[i], payload[i]);
    }
    forall i | 0 <= i < |payload| ensures payload[i] in encoded {
      assert SameAgain(codec, items[i], payload[i]) && items[i] in items;
    }
  }

  // ---- freezing -----------------------------------------------------------------------

  // Mappings and sequences become immutable: lists and sets become tuples, at every
  // depth.  The frozen elements of a set are arranged by their canonical text; an
  // arrangement lists only elements.
  function Freeze(codec: Codec, v: Value): Value {
    match v
    case Mapping(entries) => Mapping(map k | k in entries :: Freeze(codec, entries[k]))
    case Tuple(items) => Tuple(seq(|items|, i requires 0 <= i < |items| => Freeze(codec, items[i])))
    case List(items) => Tuple(seq(|items|, i requires 0 <= i < |items| => Freeze(codec, items[i])))
    case Set(elements) =>
      var items := codec.arrange(elements);
      Tuple(seq(|items|, i requires 0 <= i < |items| => if items[i] in elements then Freeze(codec, items[i]) else Null))
    case _ => v
  }

  predicate Frozen(v: Value) {
    match v
    case List(_) => false
    case Set(_) => false
    case Mapping(entries) => forall k | k in entries :: Frozen(entries[k])
    case Tuple(items) => forall i | 0 <= i < |items| :: Frozen(items[i])
    case _ => true
  }

  lemma {:induction false} FreezeIsFrozen(codec: Codec, v: Value)
    ensures Frozen(Freeze(codec, v))
    decreases v
  {
    match v
    case Mapping(entries) =>
      forall k | k in entries ensures Frozen(Freeze(codec, entries[k])) { FreezeIsFrozen(codec, entries[k]); }
    case Tuple(items) =>
      forall i | 0 <= i < |items| ensures Frozen(Freeze(codec, items[i])) { FreezeIsFrozen(codec, items[i]); }
    case List(items) =>
      forall i | 0 <= i < |items| ensures Frozen(Freeze(codec, items[i])) { FreezeIsFrozen(codec, items[i]); }
    case Set(elements) =>
      forall x | x in elements ensures Frozen(Freeze(codec, x)) { FreezeIsFrozen(codec, x); }
    case _ =>
  }

  // Freezing changes neither whether a value has a wire form, nor a value that is
  // frozen; and it changes every other.
  lemma {:induction false} FreezeKeepsWireForm(codec: Codec, v: Value)
    requires Lawful(codec)
    ensures Encode(codec, Freeze(codec, v)).Some? <==> Encode(codec, v).Some?
    decreases v
  {
    match v
    case Mapping(entries) =>
      forall k | k in entries
        ensures Encode(codec, Freeze(codec, entries[k])).Some? <==> Encode(codec, entries[k]).Some?
      {
        FreezeKeepsWireForm(codec, entries[k]);
      }
      FieldsKeepWireForm(codec, v);
    case Tuple(items) => ItemsKeepWireForm(codec, v, items);
    case List(items) => ItemsKeepWireForm(codec, v, items);
    case Set(elements) =>
      var items := codec.arrange(elements);
      assert Lists(items, elements);
      forall x | x in elements ensures Encode(codec, Freeze(codec, x)).Some? <==> Encode(codec, x).Some? {
        FreezeKeepsWireForm(codec, x);
      }
      ElementsKeepWireForm(codec, elements, items);
    case _ =>
  }

  lemma {:induction false} ItemsKeepWireForm(codec: Codec, v: Value, items: seq<Value>)
    requires Lawful(codec) && (v == Tuple(items) || v == List(items))
    ensures Encode(codec, Freeze(codec, v)).Some? <==> Encode(codec, v).Some?
    decreases v, 0
  {
    forall i | 0 <= i < |items|
      ensures Encode(codec, Freeze(codec, items[i])).Some? <==> Encode(codec, items[i]).Some?
    {
      FreezeKeepsWireForm(codec, items[i]);
    }
    var frozen := Freeze(codec, v);
    assert forall i | 0 <= i < |items| :: frozen.items[i] == Freeze(codec, items[i]);
  }

  lemma FieldsKeepWireForm(codec: Codec, v: Value)
    requires v.Mapping?
    requires forall k | k in v.entries ::
               Encode(codec, Freeze(codec, v.entries[k])).Some? <==> Encode(codec, v.entries[k]).Some?
    ensures Encode(codec, Freeze(codec, v)).Some? <==> Encode(codec, v).Some?
  {
    var frozen := Freeze(codec, v);
    assert frozen.entries.Keys == v.entries.Keys;
    assert forall k | k in v.entries :: frozen.entries[k] == Freeze(codec, v.entries[k]);
    assert EncodeFields(codec, frozen).Some? <==> EncodeFields(codec, v).Some?;
  }

  lemma ElementsKeepWireForm(codec: Codec, elements: set<Value>, items: seq<Value>)
    requires items == codec.arrange(elements) && Lists(items, elements)
    requires forall x | x in elements :: Encode(codec, Freeze(codec, x)).Some? <==> Encode(codec, x).Some?
    ensures Encode(codec, Freeze(codec, Set(elements))).Some? <==> Encode(codec, Set(elements)).Some?
  {
    var frozen := Freeze(codec, Set(elements));
    assert forall i | 0 <= i < |items| :: items[i] in items;
    assert forall i | 0 <= i < |items| :: frozen.items[i] == Freeze(codec, items[i]);
  }

  lemma {:induction false} FreezeFixesIff(codec: Codec, v: Value)
    ensures Freeze(codec, v) == v <==> Frozen(v)
    decreases v
  {
    match v
    case Mapping(entries) =>
      var frozen := Freeze(codec, v).entries;
      forall k | k in entries ensures frozen[k] == entries[k] <==> Frozen(entries[k]) {
        FreezeFixesIff(codec, entries[k]);
      }
    case Tuple(items) =>
      var frozen := Freeze(codec, v).items;
      forall i | 0 <= i < |items| ensures frozen[i] == items[i] <==> Frozen(items[i]) {
        FreezeFixesIff(codec, items[i]);
      }
      if !Frozen(v) {
        var i :| 0 <= i < |items| && !Frozen(items[i]);
        assert frozen[i] != items[i];
      }
    case _ =>
  }

  lemma {:induction false} FrozenIsFlat(v: Value)
    requires Frozen(v)
    ensures Flat(v)
    decreases v
  {
    match v
    case Mapping(entries) => forall k | k in entries ensures Flat(entries[k]) { FrozenIsFlat(entries[k]); }
    case Tuple(items) => forall i | 0 <= i < |items| ensures Flat(items[i]) { FrozenIsFlat(items[i]); }
    case _ =>
  }

  // Canonical JSON refuses numbers that are not finite and instants without time
  // zone, so a frozen value has neither; a duration it may have.
  predicate LeavesFit(codec: Codec, v: Value) {
    match v
    case Leaf(kind, content) => codec.fit(kind, content)
    case Mapping(entries) => forall k | k in entries :: LeavesFit(codec, entries[k])
    case Tuple(items) => forall i | 0 <= i < |items| :: LeavesFit(codec, items[i])
    case List(items) => forall i | 0 <= i < |items| :: LeavesFit(codec, items[i])
    case Set(elements) => forall x | x in elements :: LeavesFit(codec, x)
    case _ => true
  }

  lemma {:induction false} FitLeaf(codec: Codec, v: Value, part: Value)
    requires LeavesFit(codec, v) && Within(part, v) && part.Leaf?
    ensures codec.fit(part.kind, part.content)
    decreases v
  {
    if part != v {
      match v
      case Mapping(entries) => var k :| k in entries && Within(part, entries[k]); FitLeaf(codec, entries[k], part);
      case Tuple(items) => var i :| 0 <= i < |items| && Within(part, items[i]); FitLeaf(codec, items[i], part);
      case List(items) => var i :| 0 <= i < |items| && Within(part, items[i]); FitLeaf(codec, items[i], part);
      case Set(elements) => var x :| x in elements && Within(part, x); FitLeaf(codec, x, part);
    }
  }

  lemma {:induction false} SendableLeavesFit(codec: Codec, v: Value)
    requires Encode(codec, v).Some?
    ensures LeavesFit(codec, v)
    decreases v
  {
    match v
    case Mapping(entries) =>
      forall k | k in entries ensures LeavesFit(codec, entries[k]) { SendableLeavesFit(codec, entries[k]); }
    case Tuple(items) =>
      forall i | 0 <= i < |items| ensures LeavesFit(codec, items[i]) { SendableLeavesFit(codec, items[i]); }
    case List(items) =>
      forall i | 0 <= i < |items| ensures LeavesFit(codec, items[i]) { SendableLeavesFit(codec, items[i]); }
    case Set(elements) =>
      forall x | x in elements ensures LeavesFit(codec, x) { SendableLeavesFit(codec, x); }
    case _ =>
  }

  ghost predicate HoldsDuration(v: Value) { exists micros :: Within(Duration(micros), v) }

  // Of the values that canonical JSON takes, exactly those with a duration in them
  // have no wire form.
  lemma OnlyDurationsFail(codec: Codec, v: Value)
    requires LeavesFit(codec, v)
    ensures Encode(codec, v).None? <==> HoldsDuration(v)
  {
    EncodeFailsIff(codec, v);
    if HoldsDuration(v) {
      var micros :| Within(Duration(micros), v);
      assert Unsendable(codec, Duration(micros));
    }
    forall part | Within(part, v) && Unsendable(codec, part) ensures part.Duration? {
      if part.Leaf? { FitLeaf(codec, v, part); }
    }
  }
}
