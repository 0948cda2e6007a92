/**
 Exactly which definitions, invocations, metrics and results of the custom-metric codec
 can be sent, in terms of their parts.
 */
module MetricRules {
  import opened Wrappers
  import opened Text
  import opened WireValue
  import opened MetricCodec

  // ---- parameters ---------------------------------------------------------------------------

  // No part of the parameters is a list or a set, a duration, a number that is not finite
  // or an instant without time zone.
  ghost predicate Plain(codec: Codec, v: Value) {
    forall part :: Within(part, v) ==> !part.List? && !part.Set? && !Unsendable(codec, part)
  }

  lemma {:induction false} FrozenParts(v: Value, part: Value)
    requires Frozen(v) && Within(part, v)
    ensures !part.List? && !part.Set?
    decreases v
  {
    if part != v {
      match v
      case Mapping(entries) =>
        var k :| k in entries && Within(part, entries[k]);
        FrozenParts(entries[k], part);
      case Tuple(items) =>
        var i :| 0 <= i < |items| && Within(part, items[i]);
        FrozenParts(items[i], part);
      case _ =>
    }
  }

  lemma {:induction false} PlainIsFrozen(v: Value)
    requires forall part :: Within(part, v) ==> !part.List? && !part.Set?
    ensures Frozen(v)
    decreases v
  {
    assert Within(v, v);
    match v
    case Mapping(entries) =>
      forall k | k in entries ensures Frozen(entries[k]) {
        assert forall part :: Within(part, entries[k]) ==> Within(part, v);
        PlainIsFrozen(entries[k]);
      }
    case Tuple(items) =>
      forall i | 0 <= i < |items| ensures Frozen(items[i]) {
        assert forall part :: Within(part, items[i]) ==> Within(part, v);
        PlainIsFrozen(items[i]);
      }
    case _ =>
  }

  lemma ParametersSentIff(w: World, parameters: map<Name, Value>)
    ensures ValidParameters(w, parameters) && !HoldsDuration(Mapping(parameters))
            <==> Plain(w.codec, Mapping(parameters))
  {
    var v := Mapping(parameters);
    EncodeFailsIff(w.codec, v);
    if Plain(w.codec, v) {
      PlainIsFrozen(v);
      SendableLeavesFit(w.codec, v);
      OnlyDurationsFail(w.codec, v);
    }
    if ValidParameters(w, parameters) && !HoldsDuration(v) {
      OnlyDurationsFail(w.codec, v);
      forall part | Within(part, v) ensures !part.List? && !part.Set? { FrozenParts(v, part); }
    }
  }

  // ---- definitions and invocations ------------------------------------------------------------

  predicate Filled(s: string) { Strip(s) != "" }

  predicate DefinitionRules(w: World, d: Definition) {
    && Filled(d.name) && Filled(d.unit) && d.version == DEFINITION_VERSION
    && w.isDigest(d.sourceDigest) && w.isEntrypoint(d.entrypoint)
  }

  // A definition that was written is accepted exactly under these rules.
  lemma DefinitionAcceptedIff(w: World, d: Definition)
    ensures DecodeDefinition(w, EncodeDefinition(d)) == if DefinitionRules(w, d) then Some(d) else None
  {
    DefinitionFieldsDistinct();
    RecordReadsBack(DEFINITION_FIELDS, DefinitionValues(d));
    WrittenDefinition(w, d);
  }

  lemma WrittenDefinition(w: World, d: Definition)
    ensures DefinitionOf(w, DefinitionValues(d)) == if DefinitionRules(w, d) then Some(d) else None
  {
    EnumsReadBack(d.basis, Succeeded);
  }

  // An invocation can be sent exactly when its definition is accepted, every observation
  // is named and a list of finite decimals, and its parameters are plain.
  lemma InvocationSentExactly(w: World, x: Invocation)
    ensures EncodeInvocation(w, x).Some? <==>
            && DefinitionRules(w, x.definition)
            && (forall k | k in x.observations ::
                  (k.OtherName? ==> Filled(k.name))
                  && forall i | 0 <= i < |x.observations[k]| :: w.codec.fit(Decimal, x.observations[k][i]))
            && Plain(w.codec, Mapping(x.parameters))
  {
    ParametersSentIff(w, x.parameters);
    if ValidInvocation(w, x) { InvocationIsSentIff(w, x); }
    assert ValidObservations(w, x.observations) <==>
      forall k | k in x.observations ::
        (k.OtherName? ==> Filled(k.name))
        && forall i | 0 <= i < |x.observations[k]| :: w.codec.fit(Decimal, x.observations[k][i]);
  }

  // ---- metrics and results --------------------------------------------------------------------

  predicate MetricTexts(m: Metric) {
    && Filled(m.name) && Filled(m.unit) && Filled(m.version) && m.sampleSize >= 0
    && (m.annualization.Some? ==> Filled(m.annualization.value))
    && (m.calculationBasis.Some? ==> Filled(m.calculationBasis.value))
  }

  // A value that is a finite decimal and no reason, or no value and a reason.
  predicate ValueOrReason(w: World, m: Metric) {
    || (m.value.Some? && w.codec.fit(Decimal, m.value.value) && m.nullReason.None?)
    || (m.value.None? && m.nullReason.Some? && Filled(m.nullReason.value))
  }

  ghost predicate ReferenceRules(w: World, m: Metric) {
    && PairwiseDistinct(m.references) && m.references == w.sortedReferences(set r | r in m.references)
    && forall i | 0 <= i < |m.references| :: Filled(m.references[i].role) && w.isDigest(m.references[i].digest)
  }

  ghost predicate CalculationRules(w: World, c: Option<Calculation>) {
    c.Some? ==>
      && Filled(c.value.formulaId) && Filled(c.value.contractVersion)
      && Plain(w.codec, Mapping(c.value.parameters))
  }

  ghost predicate MetricRulesHold(w: World, m: Metric) {
    MetricTexts(m) && ValueOrReason(w, m) && ReferenceRules(w, m) && CalculationRules(w, m.calculation)
  }

  // A metric can be sent exactly under these rules: filled texts, a value or a reason for
  // none, distinct, sorted references, and plain parameters of its calculation.
  lemma MetricSentExactly(w: World, m: Metric)
    ensures EncodeMetric(w, m).Some? <==> MetricRulesHold(w, m)
  {
    MetricChecksParts(w, m);
    ReferenceParts(w, m);
    if m.calculation.Some? { CalculationParts(w, m.calculation.value); }
    if ValidMetric(w, m) {
      MetricIsSentIff(w, m);
    } else {
      assert EncodeMetric(w, m).None?;
    }
  }

  lemma MetricChecksParts(w: World, m: Metric)
    ensures MetricChecks(w, m) <==> MetricTexts(m) && ValueOrReason(w, m) && NoRepeats(m.references)
  {
    assert NoneOrNamed(m.annualization) <==> (m.annualization.Some? ==> Filled(m.annualization.value));
    assert NoneOrNamed(m.calculationBasis) <==> (m.calculationBasis.Some? ==> Filled(m.calculationBasis.value));
  }

  lemma ReferenceParts(w: World, m: Metric)
    ensures ReferenceRules(w, m) <==>
            NoRepeats(m.references) && m.references == w.sortedReferences(set r | r in m.references)
            && forall i | 0 <= i < |m.references| :: ValidReference(w, m.references[i])
  {
    NoRepeatsIff(m.references);
    forall i | 0 <= i < |m.references|
      ensures ValidReference(w, m.references[i]) <==>
              Filled(m.references[i].role) && w.isDigest(m.references[i].digest)
    {
    }
  }

  lemma CalculationParts(w: World, c: Calculation)
    ensures CalculationRules(w, Some(c)) <==> ValidCalculation(w, c) && !HoldsDuration(Mapping(c.parameters))
  {
    ParametersSentIff(w, c.parameters);
  }

  // The parts that a result of each status carries, and no other.
  predicate PartsOf(o: Outcome) {
    && (o.metric.Some? <==> o.status == Succeeded)
    && (o.reasons != [] <==> o.status == Rejected)
    && (o.error.Some? <==> o.status == Failed)
  }

  lemma ValidOutcomeParts(w: World, o: Outcome)
    ensures ValidOutcome(w, o) <==>
            && w.isDigest(o.request) && w.isDigest(o.definition) && w.isDigest(o.input) && w.isDigest(o.parameters)
            && PartsOf(o) && (o.error.Some? ==> w.isDigest(o.error.value))
            && NoRepeats(o.reasons) && o.reasons == Sorted(set r | r in o.reasons)
            && (forall i | 0 <= i < |o.reasons| :: Filled(o.reasons[i]))
            && (o.metric.Some? ==> ValidMetric(w, o.metric.value))
  {
    assert (forall i | 0 <= i < |o.reasons| :: !Blank(o.reasons[i])) <==>
      forall i | 0 <= i < |o.reasons| :: Filled(o.reasons[i]);
    StatusParts(o);
  }

  lemma StatusParts(o: Outcome)
    ensures StatusFits(o) <==> PartsOf(o)
  {
  }

  // A result can be sent exactly when its digests are digests, it carries the parts of its
  // status, its reasons are filled, distinct and sorted, and its metric can be sent.
  lemma OutcomeSentExactly(w: World, o: Outcome)
    ensures EncodeOutcome(w, o).Some? <==>
            && w.isDigest(o.request) && w.isDigest(o.definition) && w.isDigest(o.input) && w.isDigest(o.parameters)
            && PartsOf(o) && (o.error.Some? ==> w.isDigest(o.error.value))
            && PairwiseDistinct(o.reasons) && o.reasons == Sorted(set r | r in o.reasons)
            && (forall i | 0 <= i < |o.reasons| :: Filled(o.reasons[i]))
            && (o.metric.Some? ==> MetricRulesHold(w, o.metric.value))
  {
    NoRepeatsIff(o.reasons);
    ValidOutcomeParts(w, o);
    SentWithMetric(w, o);
    if o.metric.Some? { MetricSentExactly(w, o.metric.value); }
  }

  lemma SentWithMetric(w: World, o: Outcome)
    ensures EncodeOutcome(w, o).Some? <==>
            ValidOutcome(w, o) && (o.metric.Some? ==> EncodeMetric(w, o.metric.value).Some?)
    ensures o.metric.Some? && EncodeMetric(w, o.metric.value).Some? ==> ValidMetric(w, o.metric.value)
  {
  }
}
