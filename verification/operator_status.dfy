/** The operator's status report: the v1alpha1 status stored on the
    `ServiceCertSignerOperatorConfig` named "instance" is converted to the
    v1 `OperatorStatus` the cluster-operator status controller reads
    (`operatorStatusProvider.CurrentStatus` and `availabilityToGenerations`). */
module OperatorStatus {
  import opened Wrappers
  import opened CoreV1

  // v1alpha1 records (`operatorv1alpha1`).

  datatype AlphaCondition = AlphaCondition(
    conditionType: string, status: string, lastTransitionTime: int, reason: string, message: string)

  datatype GenerationHistory = GenerationHistory(
    group: string, resource: string, namespace: string, name: string, lastGeneration: int)

  datatype VersionAvailability = VersionAvailability(
    version: string, updatedReplicas: int, readyReplicas: int, errors: seq<string>, generations: seq<GenerationHistory>)

  /** `currentAvailability` and `targetAvailability` are None when the Go pointer is nil. */
  datatype AlphaStatus = AlphaStatus(
    observedGeneration: int,
    conditions: seq<AlphaCondition>,
    managementState: string,
    currentAvailability: Option<VersionAvailability>,
    targetAvailability: Option<VersionAvailability>)

  datatype OperatorConfig = OperatorConfig(name: string, status: AlphaStatus)

  // v1 records (`operatorv1`).

  datatype Condition = Condition(
    conditionType: string, status: string, lastTransitionTime: int, reason: string, message: string)

  datatype GenerationStatus = GenerationStatus(
    group: string, resource: string, namespace: string, name: string, lastGeneration: int, hash: string)

  datatype Status = Status(
    observedGeneration: int, conditions: seq<Condition>, version: string, readyReplicas: int, generations: seq<GenerationStatus>)

  /** `operatorv1.OperatorStatus{}`. A nil slice is the empty sequence. */
  const ZeroStatus: Status := Status(0, [], "", 0, [])

  /** The name of the one config object the status is read from. */
  const InstanceName: string := "instance"

  /** `availabilityToGenerations`: one v1 generation per v1alpha1 history
      entry, in order, with the identifying fields and generation copied and
      no hash; a nil availability has none. */
  function AvailabilityToGenerations(availability: Option<VersionAvailability>): (gens: seq<GenerationStatus>)
    ensures availability.None? ==> gens == []
    ensures availability.Some? ==> ConvertsGenerations(availability.value.generations, gens)
  {
    match availability
    case None => []
    case Some(a) => ConvertGenerations(a.generations)
  }

  /** `gens` is `hist` converted entry by entry. */
  ghost predicate ConvertsGenerations(hist: seq<GenerationHistory>, gens: seq<GenerationStatus>) {
    && |gens| == |hist|
    && forall i :: 0 <= i < |hist| ==>
      && gens[i].group == hist[i].group
      && gens[i].resource == hist[i].resource
      && gens[i].namespace == hist[i].namespace
      && gens[i].name == hist[i].name
      && gens[i].lastGeneration == hist[i].lastGeneration
      && gens[i].hash == ""
  }

  /** The loop body of `availabilityToGenerations`, over a whole history. */
  function ConvertGenerations(hist: seq<GenerationHistory>): (gens: seq<GenerationStatus>)
    ensures ConvertsGenerations(hist, gens)
  {
    if hist == [] then []
    else
      var h := hist[0];
      [GenerationStatus(h.group, h.resource, h.namespace, h.name, h.lastGeneration, "")] + ConvertGenerations(hist[1..])
  }

  /** `cs` is `alpha` converted entry by entry. */
  ghost predicate ConvertsConditions(alpha: seq<AlphaCondition>, cs: seq<Condition>) {
    && |cs| == |alpha|
    && forall i :: 0 <= i < |alpha| ==>
      && cs[i].conditionType == alpha[i].conditionType
      && cs[i].status == alpha[i].status
      && cs[i].lastTransitionTime == alpha[i].lastTransitionTime
      && cs[i].reason == alpha[i].reason
      && cs[i].message == alpha[i].message
  }

  /** The condition loop of `CurrentStatus`. */
  function ConvertConditions(alpha: seq<AlphaCondition>): (cs: seq<Condition>)
    ensures ConvertsConditions(alpha, cs)
  {
    if alpha == [] then []
    else
      var c := alpha[0];
      [Condition(c.conditionType, c.status, c.lastTransitionTime, c.reason, c.message)] + ConvertConditions(alpha[1..])
  }

  /** `CurrentStatus`: the converted status of "instance" and no error, or the
      zero status and the lister's error when there is no such object. */
  function CurrentStatus(lister: map<string, OperatorConfig>): (r: (Status, Option<LookupError>))
    ensures r.1.Some? <==> InstanceName !in lister
    ensures r.1.Some? ==> r.0 == ZeroStatus && r.1.value == NotFound("", InstanceName)
    ensures r.1.None? ==> ConvertsStatus(lister[InstanceName].status, r.0)
  {
    if InstanceName !in lister then (ZeroStatus, Some(NotFound("", InstanceName)))
    else
      var input := lister[InstanceName].status;
      var availability := input.currentAvailability.GetOr(VersionAvailability("", 0, 0, [], []));
      var out := Status(
        input.observedGeneration,
        ConvertConditions(input.conditions),
        availability.version,
        availability.readyReplicas,
        AvailabilityToGenerations(input.currentAvailability));
      (out, None)
  }

  /** `out` is the v1 form of `input`: generation copied, conditions and
      generations converted one to one, version and ready replicas taken from
      the current availability or left at their zero values when it is nil. */
  ghost predicate ConvertsStatus(input: AlphaStatus, out: Status) {
    && out.observedGeneration == input.observedGeneration
    && ConvertsConditions(input.conditions, out.conditions)
    && (input.currentAvailability.None? ==> out.version == "" && out.readyReplicas == 0 && out.generations == [])
    && (input.currentAvailability.Some? ==>
         && out.version == input.currentAvailability.value.version
         && out.readyReplicas == input.currentAvailability.value.readyReplicas
         && ConvertsGenerations(input.currentAvailability.value.generations, out.generations))
  }

  // The reverse conversions: the v1 records carry everything the conversion reads.

  function GenerationToHistory(g: GenerationStatus): GenerationHistory {
    GenerationHistory(g.group, g.resource, g.namespace, g.name, g.lastGeneration)
  }

  function GenerationsToHistory(gens: seq<GenerationStatus>): (hist: seq<GenerationHistory>)
    ensures |hist| == |gens|
  {
    if gens == [] then [] else [GenerationToHistory(gens[0])] + GenerationsToHistory(gens[1..])
  }

  function ConditionsToAlpha(cs: seq<Condition>): (alpha: seq<AlphaCondition>)
    ensures |alpha| == |cs|
  {
    if cs == [] then []
    else
      var c := cs[0];
      [AlphaCondition(c.conditionType, c.status, c.lastTransitionTime, c.reason, c.message)] + ConditionsToAlpha(cs[1..])
  }

  /** The generation conversion loses nothing but adds an empty hash: reading
      the history back from the v1 list gives the original list. */
  lemma {:induction false} GenerationsRoundTrip(hist: seq<GenerationHistory>)
    ensures GenerationsToHistory(ConvertGenerations(hist)) == hist
  {
    if hist != [] {
      GenerationsRoundTrip(hist[1..]);
      assert ConvertGenerations(hist)[1..] == ConvertGenerations(hist[1..]);
    }
  }

  /** The condition conversion is lossless: reading the v1alpha1 conditions back
      gives the original list. */
  lemma {:induction false} ConditionsRoundTrip(alpha: seq<AlphaCondition>)
    ensures ConditionsToAlpha(ConvertConditions(alpha)) == alpha
  {
    if alpha != [] {
      ConditionsRoundTrip(alpha[1..]);
      assert ConvertConditions(alpha)[1..] == ConvertConditions(alpha[1..]);
    }
  }
}
