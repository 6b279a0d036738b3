/** The API objects of the controllers: Pods, WorkloadClasses, their policies and status. Times are integers. */
module Types {
  import opened Wrappers
  import opened Labels

  const SECOND: int := 1_000_000_000
  const DAY: int := 86_400 * SECOND

  /** The smaller of two delays, ignoring those that are not positive. */
  function MinPositiveDuration(a: int, b: int): int {
    if a <= 0 then b else if b <= 0 then a else if a <= b then a else b
  }

  // ----- Pods -----

  datatype Phase = Pending | Running | Succeeded | Failed

  datatype Toleration = Toleration(key: string, operator: string, value: string, effect: string)

  datatype Pod = Pod(
    name: string, uid: string, labels: LabelMap, created: int, deletionTimestamp: Option<int>, phase: Phase,
    deletionGraceSeconds: Option<int>, terminationGraceSeconds: Option<int>,
    nodeName: string, nodeSelector: map<string, string>, tolerations: seq<Toleration>,
    hasController: bool, startTime: Option<int>, scheduledTime: Option<int>)

  predicate IsPodActive(pod: Pod) {
    pod.deletionTimestamp.None? && !pod.phase.Succeeded? && !pod.phase.Failed?
  }

  // ----- Status conditions -----

  datatype ConditionStatus = ConditionTrue | ConditionFalse | ConditionUnknown

  datatype Reason = ValidationPassed | ValidationFailed | NoGuardrails | SelectorOverlap | PluginPending | OtherReason

  datatype Condition = Condition(status: ConditionStatus, reason: Reason, observedGeneration: int)

  datatype Readiness = Ready | NotReady | Overdue | ReadinessUnset

  /** The messages of the InFallback condition, each with its own reason and status. */
  datatype FallbackMessage = FallbackActive | SpotTargetMet | ScaledToZero

  datatype FallbackCondition = FallbackCondition(status: ConditionStatus, message: FallbackMessage, observedGeneration: int)

  predicate InFallback(cond: Option<FallbackCondition>) {
    cond.Some? && cond.value.status.ConditionTrue?
  }

  /** The Validated condition lets the class govern its Pods: it is True, or False only for a selector overlap. */
  predicate IsValidated(cond: Option<Condition>) {
    cond.Some? && (cond.value.status.ConditionTrue? || cond.value.reason.SelectorOverlap?)
  }

  predicate IsTrue(cond: Option<Condition>) {
    cond.Some? && cond.value.status.ConditionTrue?
  }

  // ----- Disruption policy -----

  /** The zone offset, start and end are what parsing yields; `None` stands for a value that does not parse. */
  datatype DisruptionWindow = DisruptionWindow(
    daysOfWeek: seq<string>, zoneOffset: Option<int>, start: Option<int>, end: Option<int>)

  datatype Subject = Subject(kind: string, name: string, namespace: string)

  datatype UserInfo = UserInfo(username: string, groups: seq<string>)

  datatype DisruptionPolicy = DisruptionPolicy(
    windows: seq<DisruptionWindow>, allowedSubjects: seq<Subject>,
    maxNonDisruptionDays: int, minInitialRunDays: int, graceTerminationSeconds: int, emergencyOverride: bool)

  // ----- Capacity strategy -----

  datatype PlacementType = TypeUnset | Spot | OnDemand | OtherType

  type Pct = n: int | 0 <= n <= 100 witness 0

  datatype Percentage = PercentageUnset | PercentageInvalid | Percentage(pct: Pct)

  datatype FallbackAction = ActionUnset | Fail | FallbackToOnDemand | OtherAction

  datatype CapacityStrategy = CapacityStrategy(
    placement: PlacementType, spotRatio: Percentage, fallbackAction: FallbackAction)

  datatype ProfileRef = NoProfile | GKESpotPolicyRef(policy: string) | OtherProfile

  // ----- WorkloadClasses -----

  datatype WorkloadClass = WorkloadClass(
    name: string, uid: string, deleting: bool, created: int, generation: int,
    podSelector: Option<LabelSelector>, policy: DisruptionPolicy, capacity: Option<CapacityStrategy>, profile: ProfileRef,
    readiness: Readiness, lastDisruption: Option<int>,
    validated: Option<Condition>, attached: Option<Condition>, inFallback: Option<FallbackCondition>)
}
