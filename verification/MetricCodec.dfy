/**
 The custom-metric wire protocol of backend/strategy_runtime/custom_metric_protocol.py,
 on JSON trees.

 Every value of the protocol passes through its constructor, so `Valid` stands for
 what backend/app/strategy_lab_v2/custom_metrics.py and contracts.py check there.
 Which strings are digests and entry points, and the digests of values, belong to
 the environment.
 */
module MetricCodec {
  import opened Text
  import opened WireValue
  import opened Wrappers

  datatype Basis = Gross | Net

  datatype Status = Succeeded | Rejected | Failed

  datatype Definition = Definition(
    name: string, unit: string, basis: Basis, sourceDigest: string, entrypoint: string, version: string)

  // Observations are finite decimals, parameters are frozen.
  datatype Invocation = Invocation(
    source: string, definition: Definition, observations: map<Name, seq<int>>, parameters: map<Name, Value>)

  datatype Calculation = Calculation(formulaId: string, contractVersion: string, parameters: map<Name, Value>)

  datatype Reference = Reference(role: string, digest: string)

  datatype Metric = Metric(
    name: string, value: Option<int>, unit: string, version: string, basis: Basis, sampleSize: int,
    annualization: Option<string>, calculationBasis: Option<string>, nullReason: Option<string>,
    calculation: Option<Calculation>, references: seq<Reference>)

  datatype Outcome = Outcome(
    request: string, definition: string, input: string, parameters: string,
    status: Status, metric: Option<Metric>, reasons: seq<string>, error: Option<string>)

  datatype World = World(
    codec: Codec, isDigest: string -> bool, isEntrypoint: string -> bool,
    invocationDigest: Invocation -> string, invocationsDigest: seq<Invocation> -> string,
    outcomeDigest: Outcome -> string, outcomesDigest: seq<Outcome> -> string,
    sortedReferences: set<Reference> -> seq<Reference>)

  ghost predicate LawfulWorld(w: World) {
    && Lawful(w.codec)
    && forall s: set<Reference> :: Lists(w.sortedReferences(s), s)
  }

  const DEFINITION_FIELDS: seq<Name> := [MetricName, Unit, BasisField, SourceDigest, Entrypoint, DefinitionVersion]
  const INVOCATION_FIELDS: seq<Name> := [ProtocolVersion, SourceText, DefinitionField, Observations, Parameters]

  const CALCULATION_FIELDS: seq<Name> := [FormulaId, ContractVersion, Parameters]
  const REFERENCE_FIELDS: seq<Name> := [Role, Digest]
  const METRIC_FIELDS: seq<Name> := [
    MetricName, Payload, Unit, DefinitionVersion, BasisField, SampleSize, AnnualizationBasis, CalculationBasis,
    NullReason, CalculationDefinition, EvidenceReferences]

  const OUTCOME_FIELDS: seq<Name> := [
    ProtocolVersion, RequestFingerprint, DefinitionFingerprint, InputDigest, ParametersDigest, StatusField, MetricField,
    RejectionReasons, ErrorDigest, Fingerprint]

  const DEFINITION_VERSION := "strategy-lab.custom-metric.v1"
  const WIRE_VERSION := "strategy-lab.custom-metric-runtime.v1"
  const BATCH_VERSION := "strategy-lab.custom-metric-runtime.batch.v1"

  // ---- fields -----------------------------------------------------------------------

  // The object that holds these fields, and the strict reading of an object that
  // holds exactly them.
  function Record(names: seq<Name>, values: seq<Json>): Json
    requires |names| == |values|
  {
    JObject(RecordFields(names, values))
  }

  function RecordFields(names: seq<Name>, values: seq<Json>): (fields: map<Name, Json>)
    requires |names| == |values|
    ensures fields.Keys == set n | n in names
  {
    if names == [] then map[]
    else
      var last := |names| - 1;
      assert names == names[..last] + [names[last]];
      RecordFields(names[..last], values[..last])[names[last] := values[last]]
  }

  function Read(j: Json, names: seq<Name>): (values: Option<seq<Json>>)
    ensures values.Some? ==> |values.value| == |names|
  {
    if j.JObject? && j.fields.Keys == set n | n in names then
      Some(seq(|names|, i requires 0 <= i < |names| && names[i] in j.fields => j.fields[names[i]]))
    else None
  }

  ghost predicate Distinct(names: seq<Name>) { forall i, j | 0 <= i < j < |names| :: names[i] != names[j] }

  lemma {:induction false} RecordField(names: seq<Name>, values: seq<Json>, i: nat)
    requires |names| == |values| && Distinct(names) && i < |names|
    ensures names[i] in RecordFields(names, values) && RecordFields(names, values)[names[i]] == values[i]
    decreases |names|
  {
    var last := |names| - 1;
    if i < last { RecordField(names[..last], values[..last], i); }
  }

  lemma RecordReadsBack(names: seq<Name>, values: seq<Json>)
    requires |names| == |values| && Distinct(names)
    ensures Read(Record(names, values), names) == Some(values)
  {
    forall i | 0 <= i < |names|
      ensures names[i] in RecordFields(names, values) && RecordFields(names, values)[names[i]] == values[i]
    {
      RecordField(names, values, i);
    }
    assert Read(Record(names, values), names).value == values;
  }

  // A string, null, or neither.
  function AsOptionalText(j: Json): Option<Option<string>> {
    match j
    case JNull => Some(None)
    case JStr(text) => Some(Some(text))
    case _ => None
  }

  function OptionalText(text: Option<string>): Json { if text.None? then JNull else JStr(text.value) }

  predicate Blank(s: string) { Strip(s) == "" }

  predicate NoneOrNamed(s: Option<string>) { s.None? || !Blank(s.value) }

  function BasisText(basis: Basis): string { if basis.Gross? then "gross" else "net" }

  function BasisOf(j: Json): Option<Basis> {
    if j == JStr("gross") then Some(Gross) else if j == JStr("net") then Some(Net) else None
  }

  function StatusText(status: Status): string {
    match status case Succeeded => "succeeded" case Rejected => "rejected" case Failed => "failed"
  }

  function StatusOf(j: Json): Option<Status> {
    if j == JStr("succeeded") then Some(Succeeded)
    else if j == JStr("rejected") then Some(Rejected)
    else if j == JStr("failed") then Some(Failed)
    else None
  }

  lemma EnumsReadBack(basis: Basis, status: Status)
    ensures BasisOf(JStr(BasisText(basis))) == Some(basis)
    ensures StatusOf(JStr(StatusText(status))) == Some(status)
  {
  }

  // ---- definitions --------------------------------------------------------------------

  predicate ValidDefinition(w: World, d: Definition) {
    && !Blank(d.name) && !Blank(d.unit) && d.version == DEFINITION_VERSION
    && w.isDigest(d.sourceDigest) && w.isEntrypoint(d.entrypoint)
  }

  function DefinitionValues(d: Definition): (values: seq<Json>)
    ensures |values| == 6
  {
    [JStr(d.name), JStr(d.unit), JStr(BasisText(d.basis)), JStr(d.sourceDigest), JStr(d.entrypoint), JStr(d.version)]
  }

  function EncodeDefinition(d: Definition): Json { Record(DEFINITION_FIELDS, DefinitionValues(d)) }

  function DecodeDefinition(w: World, j: Json): Option<Definition> {
    var read := Read(j, DEFINITION_FIELDS);
    if read.None? then None else DefinitionOf(w, read.value)
  }

  function DefinitionOf(w: World, v: seq<Json>): Option<Definition>
    requires |v| == 6
  {
    if !v[0].JStr? || !v[1].JStr? || BasisOf(v[2]).None? || !v[3].JStr? || !v[4].JStr? || !v[5].JStr? then None
    else
      var d := Definition(v[0].text, v[1].text, BasisOf(v[2]).value, v[3].text, v[4].text, v[5].text);
      if ValidDefinition(w, d) then Some(d) else None
  }

  // A definition and its encoding determine each other.
  lemma DefinitionRoundTrip(w: World, d: Definition)
    requires ValidDefinition(w, d)
    ensures DecodeDefinition(w, EncodeDefinition(d)) == Some(d)
  {
    DefinitionFieldsDistinct();
    RecordReadsBack(DEFINITION_FIELDS, DefinitionValues(d));
    DefinitionValuesReadBack(w, d);
  }

  lemma DefinitionFieldsDistinct()
    ensures Distinct(DEFINITION_FIELDS)
  {
  }

  lemma DefinitionValuesReadBack(w: World, d: Definition)
    requires ValidDefinition(w, d)
    ensures DefinitionOf(w, DefinitionValues(d)) == Some(d)
  {
    EnumsReadBack(d.basis, Succeeded);
  }

  // ---- invocations --------------------------------------------------------------------

  predicate BlankName(name: Name) { name.OtherName? && Blank(name.name) }

  function ObservationsValue(observations: map<Name, seq<int>>): Value {
    Mapping(map k | k in observations :: Tuple(DecimalValues(observations[k])))
  }

  function DecimalValues(decimals: seq<int>): seq<Value> {
    seq(|decimals|, i requires 0 <= i < |decimals| => Leaf(Decimal, decimals[i]))
  }

  predicate IsDecimals(w: World, v: Value) {
    && (v.Tuple? || v.List?)
    && forall i | 0 <= i < |v.items| ::
         v.items[i].Leaf? && v.items[i].kind.Decimal? && w.codec.fit(Decimal, v.items[i].content)
  }

  function DecimalsOf(w: World, v: Value): seq<int>
    requires IsDecimals(w, v)
  {
    seq(|v.items|, i requires 0 <= i < |v.items| => v.items[i].content)
  }

  // Observations are named, finite decimal sequences.
  function NormalizeObservations(w: World, v: Value): Option<map<Name, seq<int>>> {
    if v.Mapping? && forall k | k in v.entries :: !BlankName(k) && IsDecimals(w, v.entries[k]) then
      Some(map k | k in v.entries && IsDecimals(w, v.entries[k]) :: DecimalsOf(w, v.entries[k]))
    else None
  }

  function ReadObservations(w: World, j: Json): Option<map<Name, seq<int>>> {
    var v := Decode(w.codec, j);
    if v.None? then None else NormalizeObservations(w, v.value)
  }

  // Parameters are a mapping, frozen once decoded.
  function ReadParameters(w: World, j: Json): Option<map<Name, Value>> {
    var v := Decode(w.codec, j);
    if v.None? || !v.value.Mapping? then None else Some(Freeze(w.codec, v.value).entries)
  }

  predicate ValidObservations(w: World, observations: map<Name, seq<int>>) {
    forall k | k in observations ::
      !BlankName(k) && forall i | 0 <= i < |observations[k]| :: w.codec.fit(Decimal, observations[k][i])
  }

  predicate ValidParameters(w: World, parameters: map<Name, Value>) {
    Frozen(Mapping(parameters)) && LeavesFit(w.codec, Mapping(parameters))
  }

  predicate ValidInvocation(w: World, x: Invocation) {
    && ValidDefinition(w, x.definition) && ValidObservations(w, x.observations) && ValidParameters(w, x.parameters)
  }

  function InvocationValues(x: Invocation, observations: Json, parameters: Json): (values: seq<Json>)
    ensures |values| == 5
  {
    [JStr(WIRE_VERSION), JStr(x.source), EncodeDefinition(x.definition), observations, parameters]
  }

  // Fails where the encoding of the observations or of the parameters fails.
  function EncodeInvocation(w: World, x: Invocation): Option<Json> {
    if !ValidInvocation(w, x) then None
    else
      var observations := Encode(w.codec, ObservationsValue(x.observations));
      var parameters := Encode(w.codec, Mapping(x.parameters));
      if observations.None? || parameters.None? then None
      else Some(Record(INVOCATION_FIELDS, InvocationValues(x, observations.value, parameters.value)))
  }

  function DecodeInvocation(w: World, j: Json): Option<Invocation> {
    var read := Read(j, INVOCATION_FIELDS);
    if read.None? then None else InvocationOf(w, read.value)
  }

  function InvocationOf(w: World, v: seq<Json>): Option<Invocation>
    requires |v| == 5
  {
    if v[0] != JStr(WIRE_VERSION) || !v[1].JStr? then None
    else
      var definition := DecodeDefinition(w, v[2]);
      var observations, parameters := ReadObservations(w, v[3]), ReadParameters(w, v[4]);
      if observations.None? || parameters.None? || definition.None? then None
      else Some(Invocation(v[1].text, definition.value, observations.value, parameters.value))
  }

  lemma ObservationsAreSendable(w: World, observations: map<Name, seq<int>>)
    requires ValidObservations(w, observations)
    ensures Encode(w.codec, ObservationsValue(observations)).Some?
  {
    var v := ObservationsValue(observations);
    forall k | k in v.entries ensures Encode(w.codec, v.entries[k]).Some? {
      assert forall i | 0 <= i < |observations[k]| :: Encode(w.codec, v.entries[k].items[i]).Some?;
    }
  }

  lemma ObservationsAreFlat(observations: map<Name, seq<int>>)
    ensures Flat(ObservationsValue(observations))
  {
  }

  lemma ObservationsReadBack(w: World, observations: map<Name, seq<int>>, j: Json)
    requires Lawful(w.codec) && ValidObservations(w, observations)
    requires Encode(w.codec, ObservationsValue(observations)) == Some(j)
    ensures ReadObservations(w, j) == Some(observations)
  {
    var v := ObservationsValue(observations);
    RoundTripIff(w.codec, v);
    ObservationsAreFlat(observations);
    NormalizedAgain(w, observations);
  }

  lemma NormalizedAgain(w: World, observations: map<Name, seq<int>>)
    requires ValidObservations(w, observations)
    ensures NormalizeObservations(w, ObservationsValue(observations)) == Some(observations)
  {
    var v := ObservationsValue(observations);
    forall k | k in observations
      ensures IsDecimals(w, v.entries[k]) && DecimalsOf(w, v.entries[k]) == observations[k]
    {
    }
    assert NormalizeObservations(w, v).value == observations;
  }

  lemma ParametersReadBack(w: World, parameters: map<Name, Value>, j: Json)
    requires Lawful(w.codec) && Frozen(Mapping(parameters)) && Encode(w.codec, Mapping(parameters)) == Some(j)
    ensures ReadParameters(w, j) == Some(parameters)
  {
    RoundTripIff(w.codec, Mapping(parameters));
    FrozenIsFlat(Mapping(parameters));
    FreezeFixesIff(w.codec, Mapping(parameters));
  }

  lemma InvocationFieldsDistinct()
    ensures Distinct(INVOCATION_FIELDS)
  {
  }

  // The fields that read as an invocation.
  ghost predicate ReadsAs(w: World, values: seq<Json>, x: Invocation) {
    && |values| == 5
    && values[0] == JStr(WIRE_VERSION) && values[1] == JStr(x.source)
    && DecodeDefinition(w, values[2]) == Some(x.definition)
    && ReadObservations(w, values[3]) == Some(x.observations)
    && ReadParameters(w, values[4]) == Some(x.parameters)
  }

  lemma InvocationReadsBack(w: World, x: Invocation, values: seq<Json>)
    requires ReadsAs(w, values, x)
    ensures DecodeInvocation(w, Record(INVOCATION_FIELDS, values)) == Some(x)
  {
    InvocationFieldsDistinct();
    RecordReadsBack(INVOCATION_FIELDS, values);
  }

  lemma InvocationValuesRead(w: World, x: Invocation, observations: Json, parameters: Json)
    requires Lawful(w.codec) && ValidInvocation(w, x)
    requires Encode(w.codec, ObservationsValue(x.observations)) == Some(observations)
    requires Encode(w.codec, Mapping(x.parameters)) == Some(parameters)
    ensures ReadsAs(w, InvocationValues(x, observations, parameters), x)
  {
    ObservationsReadBack(w, x.observations, observations);
    ParametersReadBack(w, x.parameters, parameters);
    DefinitionRoundTrip(w, x.definition);
  }

  // A valid invocation can be sent exactly when no duration occurs among its
  // parameters, at any depth.
  lemma InvocationIsSentIff(w: World, x: Invocation)
    requires ValidInvocation(w, x)
    ensures EncodeInvocation(w, x).Some? <==> !HoldsDuration(Mapping(x.parameters))
  {
    ObservationsAreSendable(w, x.observations);
    OnlyDurationsFail(w.codec, Mapping(x.parameters));
  }

  lemma InvocationRoundTrip(w: World, x: Invocation)
    requires Lawful(w.codec) && EncodeInvocation(w, x).Some?
    ensures DecodeInvocation(w, EncodeInvocation(w, x).value) == Some(x)
  {
    var observations := Encode(w.codec, ObservationsValue(x.observations)).value;
    var parameters := Encode(w.codec, Mapping(x.parameters)).value;
    InvocationValuesRead(w, x, observations, parameters);
    InvocationReadsBack(w, x, InvocationValues(x, observations, parameters));
  }

  // Whatever is accepted is valid and has a wire form of its own.
  lemma DecodedInvocationIsValid(w: World, j: Json)
    requires Lawful(w.codec) && DecodeInvocation(w, j).Some?
    ensures var x := DecodeInvocation(w, j).value;
      ValidInvocation(w, x) && EncodeInvocation(w, x).Some?
  {
    var v := Read(j, INVOCATION_FIELDS).value;
    InvocationOfIsValid(w, v);
  }

  lemma InvocationOfIsValid(w: World, v: seq<Json>)
    requires Lawful(w.codec) && |v| == 5 && InvocationOf(w, v).Some?
    ensures ValidInvocation(w, InvocationOf(w, v).value) && EncodeInvocation(w, InvocationOf(w, v).value).Some?
  {
    var x := InvocationOf(w, v).value;
    ReadParametersAreValid(w, v[4]);
    ReadObservationsAreValid(w, v[3]);
    ObservationsAreSendable(w, x.observations);
  }

  lemma ReadObservationsAreValid(w: World, j: Json)
    requires ReadObservations(w, j).Some?
    ensures ValidObservations(w, ReadObservations(w, j).value)
  {
  }

  lemma ReadParametersAreValid(w: World, j: Json)
    requires Lawful(w.codec) && ReadParameters(w, j).Some?
    ensures ValidParameters(w, ReadParameters(w, j).value)
    ensures Encode(w.codec, Mapping(ReadParameters(w, j).value)).Some?
  {
    var v := Decode(w.codec, j).value;
    DecodedIsSendable(w.codec, j);
    FreezeIsFrozen(w.codec, v);
    FreezeKeepsWireForm(w.codec, v);
    assert Freeze(w.codec, v) == Mapping(ReadParameters(w, j).value);
    SendableLeavesFit(w.codec, Freeze(w.codec, v));
  }

  // ---- metrics ------------------------------------------------------------------------

  // The members of a list once, if none is repeated.
  predicate NoRepeats<T(==)>(items: seq<T>) { |items| == |set x | x in items| }

  predicate ValidReference(w: World, r: Reference) { !Blank(r.role) && w.isDigest(r.digest) }

  predicate ValidCalculation(w: World, c: Calculation) {
    !Blank(c.formulaId) && !Blank(c.contractVersion) && ValidParameters(w, c.parameters)
  }

  // What the constructor checks before it sorts the references.
  predicate MetricChecks(w: World, m: Metric) {
    && !Blank(m.name) && !Blank(m.unit) && !Blank(m.version) && m.sampleSize >= 0
    && (if m.value.None? then m.nullReason.Some? && !Blank(m.nullReason.value)
        else w.codec.fit(Decimal, m.value.value) && m.nullReason.None?)
    && NoneOrNamed(m.annualization) && NoneOrNamed(m.calculationBasis)
    && NoRepeats(m.references)
  }

  predicate ValidMetric(w: World, m: Metric) {
    && MetricChecks(w, m)
    && (m.calculation.Some? ==> ValidCalculation(w, m.calculation.value))
    && (forall i | 0 <= i < |m.references| :: ValidReference(w, m.references[i]))
    && m.references == w.sortedReferences(set r | r in m.references)
  }

  function MakeMetric(w: World, m: Metric): Option<Metric> {
    if MetricChecks(w, m) then Some(m.(references := w.sortedReferences(set r | r in m.references))) else None
  }

  function EncodeDecimal(w: World, value: Option<int>): Option<Json> {
    if value.None? then Some(JNull) else Encode(w.codec, Leaf(Decimal, value.value))
  }

  function ReadDecimal(w: World, j: Json): Option<Option<int>> {
    var v := Decode(w.codec, j);
    if v.None? then None
    else if v.value.Null? then Some(None)
    else if v.value.Leaf? && v.value.kind.Decimal? then Some(Some(v.value.content))
    else None
  }

  function CalculationValues(c: Calculation, parameters: Json): (values: seq<Json>)
    ensures |values| == 3
  {
    [JStr(c.formulaId), JStr(c.contractVersion), parameters]
  }

  function EncodeCalculation(w: World, c: Option<Calculation>): Option<Json> {
    if c.None? then Some(JNull)
    else
      var parameters := Encode(w.codec, Mapping(c.value.parameters));
      if parameters.None? then None
      else Some(Record(CALCULATION_FIELDS, CalculationValues(c.value, parameters.value)))
  }

  function CalculationOf(w: World, v: seq<Json>): Option<Calculation>
    requires |v| == 3
  {
    var parameters := ReadParameters(w, v[2]);
    if !v[0].JStr? || !v[1].JStr? || parameters.None? || Blank(v[0].text) || Blank(v[1].text) then None
    else Some(Calculation(v[0].text, v[1].text, parameters.value))
  }

  function ReadCalculation(w: World, j: Json): Option<Option<Calculation>> {
    if j.JNull? then Some(None)
    else
      var read := Read(j, CALCULATION_FIELDS);
      if read.None? || CalculationOf(w, read.value).None? then None else Some(CalculationOf(w, read.value))
  }

  function EncodeReference(r: Reference): Json { Record(REFERENCE_FIELDS, [JStr(r.role), JStr(r.digest)]) }

  function ReadReference(w: World, j: Json): Option<Reference> {
    var read := Read(j, REFERENCE_FIELDS);
    if read.None? || !read.value[0].JStr? || !read.value[1].JStr? then None
    else
      var r := Reference(read.value[0].text, read.value[1].text);
      if ValidReference(w, r) then Some(r) else None
  }

  function EncodeReferences(references: seq<Reference>): Json {
    JList(seq(|references|, i requires 0 <= i < |references| => EncodeReference(references[i])))
  }

  // Appends each reference in turn, and refuses the list with the first bad one.
  method ReadReferencesInTurn(w: World, j: Json) returns (references: Option<seq<Reference>>)
    ensures references == ReadReferences(w, j)
  {
    if !j.JList? { return None; }
    var read: seq<Reference> := [];
    for i := 0 to |j.items|
      invariant |read| == i
      invariant forall k | 0 <= k < i :: ReadReference(w, j.items[k]) == Some(read[k])
    {
      var reference := ReadReference(w, j.items[i]);
      if reference.None? { return None; }
      read := read + [reference.value];
    }
    references := Some(read);
    assert read == ReadReferences(w, j).value;
  }

  function ReadReferences(w: World, j: Json): Option<seq<Reference>> {
    if j.JList? && forall i | 0 <= i < |j.items| :: ReadReference(w, j.items[i]).Some? then
      Some(seq(|j.items|, i requires 0 <= i < |j.items| && ReadReference(w, j.items[i]).Some? =>
             ReadReference(w, j.items[i]).value))
    else None
  }

  function MetricValues(m: Metric, value: Json, calculation: Json): (values: seq<Json>)
    ensures |values| == 11
  {
    [JStr(m.name), value, JStr(m.unit), JStr(m.version), JStr(BasisText(m.basis)), JInt(m.sampleSize),
     OptionalText(m.annualization), OptionalText(m.calculationBasis), OptionalText(m.nullReason),
     calculation, EncodeReferences(m.references)]
  }

  // Fails where the encoding of the value or of the calculation fails.
  function EncodeMetric(w: World, m: Metric): Option<Json> {
    if !ValidMetric(w, m) then None
    else
      var value, calculation := EncodeDecimal(w, m.value), EncodeCalculation(w, m.calculation);
      if value.None? || calculation.None? then None
      else Some(Record(METRIC_FIELDS, MetricValues(m, value.value, calculation.value)))
  }

  function MetricOf(w: World, v: seq<Json>): Option<Metric>
    requires |v| == 11
  {
    var value, basis := ReadDecimal(w, v[1]), BasisOf(v[4]);
    var annualization, calculationBasis, nullReason := AsOptionalText(v[6]), AsOptionalText(v[7]), AsOptionalText(v[8]);
    var calculation, references := ReadCalculation(w, v[9]), ReadReferences(w, v[10]);
    if !v[0].JStr? || !v[2].JStr? || !v[3].JStr? || !v[5].JInt? then None
    else if value.None? || basis.None? || annualization.None? || calculationBasis.None? || nullReason.None? then None
    else if calculation.None? || references.None? then None
    else
      MakeMetric(w, Metric(v[0].text, value.value, v[2].text, v[3].text, basis.value, v[5].number,
                           annualization.value, calculationBasis.value, nullReason.value,
                           calculation.value, references.value))
  }

  function DecodeMetric(w: World, j: Json): Option<Metric> {
    var read := Read(j, METRIC_FIELDS);
    if read.None? then None else MetricOf(w, read.value)
  }

  // The fields that read as a metric, but for the order of its references.
  ghost predicate MetricReadsAs(w: World, v: seq<Json>, m: Metric) {
    |v| == 11 && PlainFieldsRead(v, m) && RichFieldsRead(w, v, m)
  }

  ghost predicate PlainFieldsRead(v: seq<Json>, m: Metric)
    requires |v| == 11
  {
    && v[0] == JStr(m.name) && v[2] == JStr(m.unit) && v[3] == JStr(m.version) && v[5] == JInt(m.sampleSize)
    && BasisOf(v[4]) == Some(m.basis)
    && AsOptionalText(v[6]) == Some(m.annualization) && AsOptionalText(v[7]) == Some(m.calculationBasis)
    && AsOptionalText(v[8]) == Some(m.nullReason)
  }

  ghost predicate RichFieldsRead(w: World, v: seq<Json>, m: Metric)
    requires |v| == 11
  {
    && ReadDecimal(w, v[1]) == Some(m.value)
    && ReadCalculation(w, v[9]) == Some(m.calculation) && ReadReferences(w, v[10]) == Some(m.references)
  }

  lemma MetricFieldsDistinct()
    ensures Distinct(METRIC_FIELDS)
  {
    ElevenAreDistinct(METRIC_FIELDS);
  }

  lemma ElevenAreDistinct(f: seq<Name>)
    requires |f| == 11 && f[0] == MetricName && f[1] == Payload && f[2] == Unit && f[3] == DefinitionVersion
    requires f[4] == BasisField && f[5] == SampleSize && f[6] == AnnualizationBasis && f[7] == CalculationBasis
    requires f[8] == NullReason && f[9] == CalculationDefinition && f[10] == EvidenceReferences
    ensures Distinct(f)
  {
  }

  lemma MetricReadsBack(w: World, m: Metric, values: seq<Json>)
    requires MetricReadsAs(w, values, m)
    ensures DecodeMetric(w, Record(METRIC_FIELDS, values)) == MakeMetric(w, m)
  {
    MetricFieldsDistinct();
    RecordReadsBack(METRIC_FIELDS, values);
  }

  lemma DecimalReadsBack(w: World, value: Option<int>, j: Json)
    requires Lawful(w.codec) && EncodeDecimal(w, value) == Some(j)
    ensures ReadDecimal(w, j) == Some(value)
  {
    if value.Some? { RoundTripIff(w.codec, Leaf(Decimal, value.value)); }
  }

  lemma CalculationFieldsDistinct()
    ensures Distinct(CALCULATION_FIELDS)
  {
  }

  lemma CalculationValuesRead(w: World, c: Calculation, v: seq<Json>)
    requires |v| == 3 && v[0] == JStr(c.formulaId) && v[1] == JStr(c.contractVersion)
    requires ReadParameters(w, v[2]) == Some(c.parameters) && !Blank(c.formulaId) && !Blank(c.contractVersion)
    ensures CalculationOf(w, v) == Some(c)
  {
  }

  lemma CalculationRecordReads(w: World, c: Calculation, v: seq<Json>)
    requires |v| == 3 && CalculationOf(w, v) == Some(c)
    ensures ReadCalculation(w, Record(CALCULATION_FIELDS, v)) == Some(Some(c))
  {
    CalculationFieldsDistinct();
    RecordReadsBack(CALCULATION_FIELDS, v);
  }

  lemma CalculationReadsBack(w: World, c: Option<Calculation>, j: Json)
    requires Lawful(w.codec) && EncodeCalculation(w, c) == Some(j) && (c.Some? ==> ValidCalculation(w, c.value))
    ensures ReadCalculation(w, j) == Some(c)
  {
    if c.Some? {
      var parameters := Encode(w.codec, Mapping(c.value.parameters)).value;
      var v := CalculationValues(c.value, parameters);
      ParametersReadBack(w, c.value.parameters, parameters);
      CalculationValuesRead(w, c.value, v);
      CalculationRecordReads(w, c.value, v);
    }
  }

  lemma ReferenceReadsBack(w: World, r: Reference)
    requires ValidReference(w, r)
    ensures ReadReference(w, EncodeReference(r)) == Some(r)
  {
    RecordReadsBack(REFERENCE_FIELDS, [JStr(r.role), JStr(r.digest)]);
  }

  lemma ReferencesReadBack(w: World, references: seq<Reference>)
    requires forall i | 0 <= i < |references| :: ValidReference(w, references[i])
    ensures ReadReferences(w, EncodeReferences(references)) == Some(references)
  {
    var j := EncodeReferences(references);
    forall i | 0 <= i < |references| ensures ReadReference(w, j.items[i]) == Some(references[i]) {
      ReferenceReadsBack(w, references[i]);
    }
    assert ReadReferences(w, j).value == references;
  }

  lemma PlainFieldsReadBack(m: Metric, value: Json, calculation: Json)
    ensures PlainFieldsRead(MetricValues(m, value, calculation), m)
  {
    EnumsReadBack(m.basis, Succeeded);
  }

  lemma RichValues(m: Metric, value: Json, calculation: Json)
    ensures var v := MetricValues(m, value, calculation);
      v[1] == value && v[9] == calculation && v[10] == EncodeReferences(m.references)
  {
  }

  lemma MetricValuesRead(w: World, m: Metric, value: Json, calculation: Json)
    requires Lawful(w.codec) && ValidMetric(w, m)
    requires EncodeDecimal(w, m.value) == Some(value) && EncodeCalculation(w, m.calculation) == Some(calculation)
    ensures MetricReadsAs(w, MetricValues(m, value, calculation), m)
  {
    PlainFieldsReadBack(m, value, calculation);
    RichValues(m, value, calculation);
    DecimalReadsBack(w, m.value, value);
    CalculationReadsBack(w, m.calculation, calculation);
    ReferencesReadBack(w, m.references);
  }

  lemma MetricRoundTrip(w: World, m: Metric)
    requires Lawful(w.codec) && EncodeMetric(w, m).Some?
    ensures DecodeMetric(w, EncodeMetric(w, m).value) == Some(m)
  {
    var value, calculation := EncodeDecimal(w, m.value).value, EncodeCalculation(w, m.calculation).value;
    MetricValuesRead(w, m, value, calculation);
    MetricReadsBack(w, m, MetricValues(m, value, calculation));
  }

  lemma CalculationIsSentIff(w: World, c: Calculation)
    requires ValidCalculation(w, c)
    ensures EncodeCalculation(w, Some(c)).Some? <==> !HoldsDuration(Mapping(c.parameters))
  {
    OnlyDurationsFail(w.codec, Mapping(c.parameters));
  }

  // A valid metric can be sent exactly when no duration occurs among the parameters
  // of its calculation.
  lemma MetricIsSentIff(w: World, m: Metric)
    requires ValidMetric(w, m)
    ensures EncodeMetric(w, m).Some? <==>
            (m.calculation.Some? ==> !HoldsDuration(Mapping(m.calculation.value.parameters)))
  {
    MetricValueIsSent(w, m);
    if m.calculation.Some? { CalculationIsSentIff(w, m.calculation.value); }
  }

  lemma MetricValueIsSent(w: World, m: Metric)
    requires MetricChecks(w, m)
    ensures EncodeDecimal(w, m.value).Some?
  {
  }

  lemma SortedReferencesKeep(w: World, m: Metric)
    requires LawfulWorld(w) && NoRepeats(m.references)
    ensures var sorted := w.sortedReferences(set r | r in m.references);
      && (set r | r in sorted) == (set r | r in m.references) && NoRepeats(sorted)
  {
    assert Lists(w.sortedReferences(set r | r in m.references), set r | r in m.references);
  }

  lemma MadeMetricIsValid(w: World, m: Metric)
    requires LawfulWorld(w) && MakeMetric(w, m).Some?
    requires m.calculation.Some? ==> ValidCalculation(w, m.calculation.value)
    requires forall i | 0 <= i < |m.references| :: ValidReference(w, m.references[i])
    ensures ValidMetric(w, MakeMetric(w, m).value)
  {
    var sorted := MakeMetric(w, m).value.references;
    SortedReferencesKeep(w, m);
    forall i | 0 <= i < |sorted| ensures ValidReference(w, sorted[i]) {
      assert sorted[i] in (set r | r in sorted);
    }
  }

  lemma ReadCalculationIsValid(w: World, j: Json)
    requires Lawful(w.codec) && ReadCalculation(w, j).Some?
    ensures EncodeCalculation(w, ReadCalculation(w, j).value).Some?
    ensures ReadCalculation(w, j).value.Some? ==> ValidCalculation(w, ReadCalculation(w, j).value.value)
  {
    if !j.JNull? { ReadParametersAreValid(w, Read(j, CALCULATION_FIELDS).value[2]); }
  }

  // Whatever metric is accepted is valid and has a wire form of its own.
  lemma DecodedMetricIsValid(w: World, j: Json)
    requires LawfulWorld(w) && DecodeMetric(w, j).Some?
    ensures EncodeMetric(w, DecodeMetric(w, j).value).Some?
  {
    MetricOfIsValid(w, Read(j, METRIC_FIELDS).value);
  }

  lemma MadeMetricIsSent(w: World, m: Metric, made: Metric)
    requires ValidMetric(w, made) && made.calculation == m.calculation && EncodeCalculation(w, m.calculation).Some?
    ensures EncodeMetric(w, made).Some?
  {
  }

  lemma MetricOfIsValid(w: World, v: seq<Json>)
    requires LawfulWorld(w) && |v| == 11 && MetricOf(w, v).Some?
    ensures ValidMetric(w, MetricOf(w, v).value) && EncodeMetric(w, MetricOf(w, v).value).Some?
  {
    var m := Metric(v[0].text, ReadDecimal(w, v[1]).value, v[2].text, v[3].text, BasisOf(v[4]).value, v[5].number,
                    AsOptionalText(v[6]).value, AsOptionalText(v[7]).value, AsOptionalText(v[8]).value,
                    ReadCalculation(w, v[9]).value, ReadReferences(w, v[10]).value);
    assert MetricOf(w, v) == MakeMetric(w, m);
    ReadCalculationIsValid(w, v[9]);
    ReadReferencesAreValid(w, v[10]);
    MadeMetricIsValid(w, m);
    MadeMetricIsSent(w, m, MakeMetric(w, m).value);
  }

  lemma ReadReferencesAreValid(w: World, j: Json)
    requires ReadReferences(w, j).Some?
    ensures forall i | 0 <= i < |ReadReferences(w, j).value| :: ValidReference(w, ReadReferences(w, j).value[i])
  {
  }

  // ---- results ------------------------------------------------------------------------

  // Which parts a result of each status carries.
  predicate StatusFits(o: Outcome) {
    match o.status
    case Succeeded => o.metric.Some? && o.reasons == [] && o.error.None?
    case Rejected => o.metric.None? && o.reasons != [] && o.error.None?
    case Failed => o.metric.None? && o.reasons == [] && o.error.Some?
  }

  // What the constructor checks before it sorts the reasons.
  predicate OutcomeChecks(w: World, o: Outcome) {
    && w.isDigest(o.request) && w.isDigest(o.definition) && w.isDigest(o.input) && w.isDigest(o.parameters)
    && NoRepeats(o.reasons) && (forall i | 0 <= i < |o.reasons| :: !Blank(o.reasons[i]))
    && (o.error.Some? ==> w.isDigest(o.error.value))
    && StatusFits(o)
  }

  predicate ValidOutcome(w: World, o: Outcome) {
    && OutcomeChecks(w, o)
    && o.reasons == Sorted(set r | r in o.reasons)
    && (o.metric.Some? ==> ValidMetric(w, o.metric.value))
  }

  function MakeOutcome(w: World, o: Outcome): Option<Outcome> {
    if OutcomeChecks(w, o) then Some(o.(reasons := Sorted(set r | r in o.reasons))) else None
  }

  function EncodeReasons(reasons: seq<string>): Json {
    JList(seq(|reasons|, i requires 0 <= i < |reasons| => JStr(reasons[i])))
  }

  function ReadReasons(j: Json): Option<seq<string>> {
    if j.JList? && forall i | 0 <= i < |j.items| :: j.items[i].JStr? then
      Some(seq(|j.items|, i requires 0 <= i < |j.items| && j.items[i].JStr? => j.items[i].text))
    else None
  }

  function EncodeOptionalMetric(w: World, m: Option<Metric>): Option<Json> {
    if m.None? then Some(JNull) else EncodeMetric(w, m.value)
  }

  function ReadOptionalMetric(w: World, j: Json): Option<Option<Metric>> {
    if j.JNull? then Some(None)
    else
      var m := DecodeMetric(w, j);
      if m.None? then None else Some(m)
  }

  function OutcomeValues(w: World, o: Outcome, metric: Json): (values: seq<Json>)
    ensures |values| == 10
  {
    [JStr(WIRE_VERSION), JStr(o.request), JStr(o.definition), JStr(o.input), JStr(o.parameters),
     JStr(StatusText(o.status)), metric, EncodeReasons(o.reasons), OptionalText(o.error), JStr(w.outcomeDigest(o))]
  }

  // Fails where the encoding of the metric fails.
  function EncodeOutcome(w: World, o: Outcome): Option<Json> {
    if !ValidOutcome(w, o) then None
    else
      var metric := EncodeOptionalMetric(w, o.metric);
      if metric.None? then None else Some(Record(OUTCOME_FIELDS, OutcomeValues(w, o, metric.value)))
  }

  // A result is accepted only with the digest of what was decoded.
  function OutcomeOf(w: World, v: seq<Json>): Option<Outcome>
    requires |v| == 10
  {
    var status, metric := StatusOf(v[5]), ReadOptionalMetric(w, v[6]);
    var reasons, error := ReadReasons(v[7]), AsOptionalText(v[8]);
    if v[0] != JStr(WIRE_VERSION) || metric.None? then None
    else if !v[1].JStr? || !v[2].JStr? || !v[3].JStr? || !v[4].JStr? then None
    else if status.None? || reasons.None? || error.None? then None
    else
      var o := MakeOutcome(w, Outcome(v[1].text, v[2].text, v[3].text, v[4].text, status.value, metric.value,
                                      reasons.value, error.value));
      if o.None? || v[9] != JStr(w.outcomeDigest(o.value)) then None else o
  }

  function DecodeOutcome(w: World, j: Json): Option<Outcome> {
    var read := Read(j, OUTCOME_FIELDS);
    if read.None? then None else OutcomeOf(w, read.value)
  }

  ghost predicate PlainOutcomeRead(v: seq<Json>, o: Outcome)
    requires |v| == 10
  {
    && v[0] == JStr(WIRE_VERSION) && v[1] == JStr(o.request) && v[2] == JStr(o.definition) && v[3] == JStr(o.input)
    && v[4] == JStr(o.parameters) && StatusOf(v[5]) == Some(o.status) && AsOptionalText(v[8]) == Some(o.error)
  }

  ghost predicate RichOutcomeRead(w: World, v: seq<Json>, o: Outcome)
    requires |v| == 10
  {
    && ReadOptionalMetric(w, v[6]) == Some(o.metric) && ReadReasons(v[7]) == Some(o.reasons)
    && v[9] == JStr(w.outcomeDigest(o))
  }

  lemma OutcomeFieldsDistinct()
    ensures Distinct(OUTCOME_FIELDS)
  {
    TenAreDistinct(OUTCOME_FIELDS);
  }

  lemma TenAreDistinct(f: seq<Name>)
    requires |f| == 10 && f[0] == ProtocolVersion && f[1] == RequestFingerprint && f[2] == DefinitionFingerprint
    requires f[3] == InputDigest && f[4] == ParametersDigest && f[5] == StatusField && f[6] == MetricField
    requires f[7] == RejectionReasons && f[8] == ErrorDigest && f[9] == Fingerprint
    ensures Distinct(f)
  {
  }

  lemma ValidOutcomeIsMade(w: World, o: Outcome)
    requires ValidOutcome(w, o)
    ensures MakeOutcome(w, o) == Some(o)
  {
  }

  lemma OutcomeReadsBack(w: World, o: Outcome, v: seq<Json>)
    requires |v| == 10 && PlainOutcomeRead(v, o) && RichOutcomeRead(w, v, o) && MakeOutcome(w, o) == Some(o)
    ensures OutcomeOf(w, v) == Some(o)
  {
  }

  lemma PlainOutcomeReadsBack(w: World, o: Outcome, metric: Json)
    ensures PlainOutcomeRead(OutcomeValues(w, o, metric), o)
  {
    EnumsReadBack(Gross, o.status);
  }

  lemma RichOutcomeValues(w: World, o: Outcome, metric: Json)
    ensures var v := OutcomeValues(w, o, metric);
      v[6] == metric && v[7] == EncodeReasons(o.reasons) && v[9] == JStr(w.outcomeDigest(o))
  {
  }

  lemma OptionalMetricReadsBack(w: World, m: Option<Metric>, j: Json)
    requires Lawful(w.codec) && EncodeOptionalMetric(w, m) == Some(j)
    ensures ReadOptionalMetric(w, j) == Some(m)
  {
    if m.Some? { MetricRoundTrip(w, m.value); }
  }

  lemma ReasonsReadBack(reasons: seq<string>)
    ensures ReadReasons(EncodeReasons(reasons)) == Some(reasons)
  {
    assert ReadReasons(EncodeReasons(reasons)).value == reasons;
  }

  lemma OutcomeValuesRead(w: World, o: Outcome, metric: Json)
    requires Lawful(w.codec) && EncodeOptionalMetric(w, o.metric) == Some(metric)
    ensures RichOutcomeRead(w, OutcomeValues(w, o, metric), o)
  {
    RichOutcomeValues(w, o, metric);
    OptionalMetricReadsBack(w, o.metric, metric);
    ReasonsReadBack(o.reasons);
  }

  lemma OutcomeRoundTrip(w: World, o: Outcome)
    requires Lawful(w.codec) && EncodeOutcome(w, o).Some?
    ensures DecodeOutcome(w, EncodeOutcome(w, o).value) == Some(o)
  {
    var metric := EncodeOptionalMetric(w, o.metric).value;
    var v := OutcomeValues(w, o, metric);
    PlainOutcomeReadsBack(w, o, metric);
    OutcomeValuesRead(w, o, metric);
    ValidOutcomeIsMade(w, o);
    OutcomeReadsBack(w, o, v);
    OutcomeFieldsDistinct();
    RecordReadsBack(OUTCOME_FIELDS, v);
  }

  // The durations that keep a result from being sent.
  ghost predicate OutcomeHoldsDuration(o: Outcome) {
    && o.metric.Some? && o.metric.value.calculation.Some?
    && HoldsDuration(Mapping(o.metric.value.calculation.value.parameters))
  }

  lemma OutcomeIsSentIff(w: World, o: Outcome)
    requires ValidOutcome(w, o)
    ensures EncodeOutcome(w, o).Some? <==> !OutcomeHoldsDuration(o)
  {
    if o.metric.Some? { MetricIsSentIff(w, o.metric.value); }
  }

  lemma MadeOutcomeIsValid(w: World, o: Outcome)
    requires MakeOutcome(w, o).Some? && (o.metric.Some? ==> ValidMetric(w, o.metric.value))
    ensures ValidOutcome(w, MakeOutcome(w, o).value)
  {
    var made := MakeOutcome(w, o).value;
    var all := set r | r in o.reasons;
    assert (set r | r in made.reasons) == all;
    forall i | 0 <= i < |made.reasons| ensures !Blank(made.reasons[i]) {
      assert made.reasons[i] in made.reasons;
    }
    if o.reasons != [] { assert o.reasons[0] in all; }
  }

  // Whatever result is accepted is valid, carries its own digest, and has a wire
  // form of its own.
  lemma DecodedOutcomeIsValid(w: World, j: Json)
    requires LawfulWorld(w) && DecodeOutcome(w, j).Some?
    ensures EncodeOutcome(w, DecodeOutcome(w, j).value).Some?
    ensures j.fields[Fingerprint] == JStr(w.outcomeDigest(DecodeOutcome(w, j).value))
  {
    var v := Read(j, OUTCOME_FIELDS).value;
    OutcomeOfIsValid(w, v);
    assert OUTCOME_FIELDS[9] == Fingerprint && v[9] == j.fields[Fingerprint];
  }

  lemma OutcomeOfIsValid(w: World, v: seq<Json>)
    requires LawfulWorld(w) && |v| == 10 && OutcomeOf(w, v).Some?
    ensures ValidOutcome(w, OutcomeOf(w, v).value) && EncodeOutcome(w, OutcomeOf(w, v).value).Some?
  {
    if !v[6].JNull? { DecodedMetricIsValid(w, v[6]); }
    MadeOutcomeIsValid(w, Outcome(v[1].text, v[2].text, v[3].text, v[4].text, StatusOf(v[5]).value,
                                  ReadOptionalMetric(w, v[6]).value, ReadReasons(v[7]).value,
                                  AsOptionalText(v[8]).value));
  }

  // ---- batches ------------------------------------------------------------------------

  // What the two batch forms differ in.
  datatype Form<!T> = Form(
    field: Name, encode: T -> Option<Json>, decode: Json -> Option<T>, fingerprint: T -> string,
    digest: seq<T> -> string)

  function InvocationForm(w: World): Form<Invocation> {
    Form(Invocations, x => EncodeInvocation(w, x), j => DecodeInvocation(w, j), w.invocationDigest, w.invocationsDigest)
  }

  function OutcomeForm(w: World): Form<Outcome> {
    Form(Results, o => EncodeOutcome(w, o), j => DecodeOutcome(w, j), w.outcomeDigest, w.outcomesDigest)
  }

  ghost predicate Sound<T(!new)>(form: Form<T>) {
    && form.field != ProtocolVersion && form.field != Fingerprint
    && (forall x | form.encode(x).Some? :: form.decode(form.encode(x).value) == Some(x))
    && (forall j | form.decode(j).Some? :: form.encode(form.decode(j).value).Some?)
  }

  lemma FormsAreSound(w: World)
    requires LawfulWorld(w)
    ensures Sound(InvocationForm(w)) && Sound(OutcomeForm(w))
  {
    forall x | EncodeInvocation(w, x).Some? ensures DecodeInvocation(w, EncodeInvocation(w, x).value) == Some(x) {
      InvocationRoundTrip(w, x);
    }
    forall j | DecodeInvocation(w, j).Some? ensures EncodeInvocation(w, DecodeInvocation(w, j).value).Some? {
      DecodedInvocationIsValid(w, j);
    }
    forall o | EncodeOutcome(w, o).Some? ensures DecodeOutcome(w, EncodeOutcome(w, o).value) == Some(o) {
      OutcomeRoundTrip(w, o);
    }
    forall j | DecodeOutcome(w, j).Some? ensures EncodeOutcome(w, DecodeOutcome(w, j).value).Some? {
      DecodedOutcomeIsValid(w, j);
    }
  }

  function Fingerprints<T>(form: Form<T>, values: seq<T>): seq<string> {
    seq(|values|, i requires 0 <= i < |values| => form.fingerprint(values[i]))
  }

  predicate DistinctFingerprints<T(==)>(form: Form<T>, values: seq<T>) {
    NoRepeats(Fingerprints(form, values))
  }

  function BatchFields(field: Name): seq<Name> { [ProtocolVersion, field, Fingerprint] }

  lemma BatchFieldsDistinct(field: Name)
    requires field != ProtocolVersion && field != Fingerprint
    ensures Distinct(BatchFields(field))
  {
  }

  function EncodeBatch<T(==)>(form: Form<T>, values: seq<T>): Option<Json> {
    if values == [] || !DistinctFingerprints(form, values)
       || exists i | 0 <= i < |values| :: form.encode(values[i]).None? then None
    else
      Some(Record(BatchFields(form.field),
                  [JStr(BATCH_VERSION), EncodedItems(form, values), JStr(form.digest(values))]))
  }

  function EncodedItems<T>(form: Form<T>, values: seq<T>): Json
    requires forall i | 0 <= i < |values| :: form.encode(values[i]).Some?
  {
    JList(seq(|values|, i requires 0 <= i < |values| && form.encode(values[i]).Some? => form.encode(values[i]).value))
  }

  function ReadItems<T>(form: Form<T>, j: Json): Option<seq<T>> {
    if j.JList? && forall i | 0 <= i < |j.items| :: form.decode(j.items[i]).Some? then
      Some(seq(|j.items|, i requires 0 <= i < |j.items| && form.decode(j.items[i]).Some? =>
                 form.decode(j.items[i]).value))
    else None
  }

  function BatchOf<T(==)>(form: Form<T>, v: seq<Json>): Option<seq<T>>
    requires |v| == 3
  {
    var values := ReadItems(form, v[1]);
    if v[0] != JStr(BATCH_VERSION) || values.None? || values.value == [] || !DistinctFingerprints(form, values.value)
       || v[2] != JStr(form.digest(values.value)) then None
    else values
  }

  function DecodeBatch<T(==)>(form: Form<T>, j: Json): Option<seq<T>> {
    var read := Read(j, BatchFields(form.field));
    if read.None? then None else BatchOf(form, read.value)
  }

  lemma ItemsReadBack<T(!new)>(form: Form<T>, values: seq<T>)
    requires Sound(form) && forall i | 0 <= i < |values| :: form.encode(values[i]).Some?
    ensures ReadItems(form, EncodedItems(form, values)) == Some(values)
  {
    var j := EncodedItems(form, values);
    assert forall i | 0 <= i < |values| :: form.decode(j.items[i]) == Some(values[i]);
    assert ReadItems(form, j).value == values;
  }

  // Every batch that can be sent reads back as itself.
  lemma BatchRoundTrip<T(!new)>(form: Form<T>, values: seq<T>)
    requires Sound(form) && EncodeBatch(form, values).Some?
    ensures DecodeBatch(form, EncodeBatch(form, values).value) == Some(values)
  {
    ItemsReadBack(form, values);
    BatchFieldsDistinct(form.field);
    RecordReadsBack(BatchFields(form.field),
                    [JStr(BATCH_VERSION), EncodedItems(form, values), JStr(form.digest(values))]);
  }

  // An accepted batch is not empty, has distinct fingerprints and the digest of its
  // values, can be sent again, and what is sent again reads as the same values.
  lemma AcceptedBatch<T(!new)>(form: Form<T>, j: Json)
    requires Sound(form) && DecodeBatch(form, j).Some?
    ensures var values := DecodeBatch(form, j).value;
      && values != [] && DistinctFingerprints(form, values)
      && j.fields.Keys == {ProtocolVersion, form.field, Fingerprint}
      && j.fields[Fingerprint] == JStr(form.digest(values))
      && EncodeBatch(form, values).Some?
      && DecodeBatch(form, EncodeBatch(form, values).value) == Some(values)
  {
    var values := DecodeBatch(form, j).value;
    var v := Read(j, BatchFields(form.field)).value;
    assert BatchFields(form.field)[2] == Fingerprint && v[2] == j.fields[Fingerprint];
    forall i | 0 <= i < |values| ensures form.encode(values[i]).Some? {
      assert values[i] == form.decode(v[1].items[i]).value;
    }
    BatchRoundTrip(form, values);
  }

  ghost predicate PairwiseDistinct<T>(items: seq<T>) {
    forall i, j | 0 <= i < j < |items| :: items[i] != items[j]
  }

  lemma {:induction false} NoRepeatsIff<T(!new)>(items: seq<T>)
    ensures |set x | x in items| <= |items|
    ensures NoRepeats(items) <==> PairwiseDistinct(items)
  {
    if items != [] {
      var front, last := items[..|items| - 1], items[|items| - 1];
      NoRepeatsIff(front);
      assert items == front + [last];
      assert (set x | x in items) == (set x | x in front) + {last};
      if last in front {
        assert (set x | x in items) == set x | x in front;
      }
    }
  }

  lemma BatchIsSentIff<T(!new)>(form: Form<T>, values: seq<T>)
    ensures EncodeBatch(form, values).Some? <==>
            && values != []
            && (forall i, j | 0 <= i < j < |values| :: form.fingerprint(values[i]) != form.fingerprint(values[j]))
            && (forall i | 0 <= i < |values| :: form.encode(values[i]).Some?)
  {
    var fingerprints := Fingerprints(form, values);
    NoRepeatsIff(fingerprints);
    assert PairwiseDistinct(fingerprints) <==>
           forall i, j | 0 <= i < j < |values| :: form.fingerprint(values[i]) != form.fingerprint(values[j]) by {
      assert forall i | 0 <= i < |values| :: fingerprints[i] == form.fingerprint(values[i]);
    }
  }

  lemma InvocationFormSendsIff(w: World, x: Invocation)
    requires ValidInvocation(w, x)
    ensures InvocationForm(w).encode(x).Some? <==> !HoldsDuration(Mapping(x.parameters))
  {
    InvocationIsSentIff(w, x);
  }

  // A batch of valid invocations can be sent exactly when it is not empty, no two of
  // them have one fingerprint, and no duration occurs among their parameters.
  lemma InvocationBatchIsSentIff(w: World, values: seq<Invocation>)
    requires forall i | 0 <= i < |values| :: ValidInvocation(w, values[i])
    ensures EncodeBatch(InvocationForm(w), values).Some? <==>
            && values != []
            && (forall i, j | 0 <= i < j < |values| :: w.invocationDigest(values[i]) != w.invocationDigest(values[j]))
            && (forall i | 0 <= i < |values| :: !HoldsDuration(Mapping(values[i].parameters)))
  {
    var form := InvocationForm(w);
    assert form.fingerprint == w.invocationDigest;
    forall i | 0 <= i < |values|
      ensures form.encode(values[i]).Some? <==> !HoldsDuration(Mapping(values[i].parameters))
    {
      InvocationFormSendsIff(w, values[i]);
    }
    BatchIsSentIff(form, values);
  }

  lemma OutcomeFormSendsIff(w: World, o: Outcome)
    requires ValidOutcome(w, o)
    ensures OutcomeForm(w).encode(o).Some? <==> !OutcomeHoldsDuration(o)
  {
    OutcomeIsSentIff(w, o);
  }

  lemma OutcomeBatchIsSentIff(w: World, values: seq<Outcome>)
    requires forall i | 0 <= i < |values| :: ValidOutcome(w, values[i])
    ensures EncodeBatch(OutcomeForm(w), values).Some? <==>
            && values != []
            && (forall i, j | 0 <= i < j < |values| :: w.outcomeDigest(values[i]) != w.outcomeDigest(values[j]))
            && (forall i | 0 <= i < |values| :: !OutcomeHoldsDuration(values[i]))
  {
    var form := OutcomeForm(w);
    assert form.fingerprint == w.outcomeDigest;
    forall i | 0 <= i < |values| ensures form.encode(values[i]).Some? <==> !OutcomeHoldsDuration(values[i]) {
      OutcomeFormSendsIff(w, values[i]);
    }
    BatchIsSentIff(form, values);
  }

  // Both batch forms: what can be sent reads back, and what is accepted carries the
  // digest of its values and can be sent again.
  lemma InvocationBatches(w: World, values: seq<Invocation>, j: Json)
    requires LawfulWorld(w)
    ensures EncodeBatch(InvocationForm(w), values).Some? ==>
              DecodeBatch(InvocationForm(w), EncodeBatch(InvocationForm(w), values).value) == Some(values)
    ensures DecodeBatch(InvocationForm(w), j) == Some(values) ==>
              EncodeBatch(InvocationForm(w), values).Some? && j.fields[Fingerprint] == JStr(w.invocationsDigest(values))
  {
    var form := InvocationForm(w);
    FormsAreSound(w);
    if EncodeBatch(form, values).Some? { BatchRoundTrip(form, values); }
    if DecodeBatch(form, j) == Some(values) { AcceptedBatch(form, j); }
  }

  lemma OutcomeBatches(w: World, values: seq<Outcome>, j: Json)
    requires LawfulWorld(w)
    ensures EncodeBatch(OutcomeForm(w), values).Some? ==>
              DecodeBatch(OutcomeForm(w), EncodeBatch(OutcomeForm(w), values).value) == Some(values)
    ensures DecodeBatch(OutcomeForm(w), j) == Some(values) ==>
              EncodeBatch(OutcomeForm(w), values).Some? && j.fields[Fingerprint] == JStr(w.outcomesDigest(values))
  {
    var form := OutcomeForm(w);
    FormsAreSound(w);
    if EncodeBatch(form, values).Some? { BatchRoundTrip(form, values); }
    if DecodeBatch(form, j) == Some(values) { AcceptedBatch(form, j); }
  }
}
