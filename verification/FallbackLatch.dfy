/**
 * The InFallback condition (internal/controller/spot_fallback.go, Reconcile in
 * internal/controller/gkespotplacement_controller.go), and how reversion None latches it.
 */
module FallbackLatch {
  import opened Wrappers
  import opened Types
  import opened PdbSpec
  import opened Capacity
  import opened SpotCounts
  import opened PodWebhook

  predicate TargetsSpot(wc: WorkloadClass) {
    && wc.capacity.Some? && TypeOf(wc.capacity.value).Spot?
    && RatioOf(wc.capacity.value).Some? && RatioOf(wc.capacity.value).value > 0
  }

  predicate TracksFallback(wc: WorkloadClass) {
    TargetsSpot(wc) && wc.capacity.value.fallbackAction.FallbackToOnDemand?
  }

  predicate IsManaged(wc: WorkloadClass) {
    wc.capacity.Some? && !wc.profile.OtherProfile?
  }

  predicate IsReady(wc: WorkloadClass) {
    IsValidated(wc.validated) && (wc.profile.GKESpotPolicyRef? ==> IsTrue(wc.attached))
  }

  predicate IsPluginPending(wc: WorkloadClass) {
    wc.attached.Some? && wc.attached.value.status.ConditionFalse? && wc.attached.value.reason.PluginPending?
  }

  // ----- The condition -----

  datatype Desired = Absent | Keep | Set(cond: FallbackCondition)

  function DesiredFallbackCondition(wc: WorkloadClass, pods: WorkloadPods, reversion: ReversionAction): Desired {
    if !TracksFallback(wc) then Absent
    else if |pods.fallback| > 0 then Set(FallbackCondition(ConditionTrue, FallbackActive, wc.generation))
    else if InFallback(wc.inFallback) && reversion.NoneReversion? && pods.active > 0 then Keep
    else if pods.active == 0 then Set(FallbackCondition(ConditionFalse, ScaledToZero, wc.generation))
    else Set(FallbackCondition(ConditionFalse, SpotTargetMet, wc.generation))
  }

  datatype PolicyLookup = PolicyFound(policy: PlacementPolicy) | PolicyMissing | PolicyLookupFailed

  /** What a reconcile finds: its Pods, the referenced policy, and whether writing the status succeeds. */
  datatype Observation = Observation(pods: Result<WorkloadPods>, policy: PolicyLookup, writeFails: bool)

  /** The policy the class references, once it is attached and exists. */
  function AttachedPolicy(wc: WorkloadClass, lookup: PolicyLookup): Result<Option<PlacementPolicy>> {
    if !wc.profile.GKESpotPolicyRef? || !IsTrue(wc.attached) then Ok(None)
    else match lookup
      case PolicyFound(policy) => Ok(Some(policy))
      case PolicyMissing => Ok(None)
      case PolicyLookupFailed => Err
  }

  /** The stored class, whose status the reconciler updates in place. */
  class StoredClass {
    var wc: WorkloadClass

    method SetFallbackCondition(desired: Option<FallbackCondition>, writeFails: bool) returns (failed: bool)
      modifies this
      ensures wc == old(wc).(inFallback := if failed then old(wc).inFallback else desired)
      ensures failed <==> writeFails && old(wc).inFallback != desired
    {
      if wc.inFallback == desired {
        return false;
      }
      if writeFails {
        return true;
      }
      wc := wc.(inFallback := desired);
      return false;
    }

    /** One reconcile, up to the point where reversion starts. */
    method Reconcile(o: Observation) returns (failed: bool)
      modifies this
      ensures wc == old(wc).(inFallback := FallbackAfter(old(wc), o))
      ensures failed <==> ReadsFail(old(wc), o) || (o.writeFails && FallbackWanted(old(wc), o) != old(wc).inFallback)
    {
      if !IsManaged(wc) {
        failed := SetFallbackCondition(None, o.writeFails);
        return;
      }
      if !IsReady(wc) {
        if IsPluginPending(wc) {
          return false;
        }
        failed := SetFallbackCondition(None, o.writeFails);
        return;
      }
      var policy: Option<PlacementPolicy> := None;
      var pods := WorkloadPods(0, 0, 0, []);
      if TracksFallback(wc) {
        var attached := AttachedPolicy(wc, o.policy);
        if attached.Err? {
          return true;
        }
        policy := attached.value;
        if o.pods.Err? {
          return true;
        }
        pods := o.pods.value;
      }
      match DesiredFallbackCondition(wc, pods, ReversionOf(policy)) {
        case Keep => return false;
        case Absent => failed := SetFallbackCondition(None, o.writeFails);
        case Set(cond) => failed := SetFallbackCondition(Some(cond), o.writeFails);
      }
    }
  }

  /** A lookup that the reconcile needs fails, so it ends before the condition is computed. */
  predicate ReadsFail(wc: WorkloadClass, o: Observation) {
    IsManaged(wc) && IsReady(wc) && TracksFallback(wc) && (AttachedPolicy(wc, o.policy).Err? || o.pods.Err?)
  }

  /** The condition that the reconcile wants, which it then has if it can write it. */
  function FallbackWanted(wc: WorkloadClass, o: Observation): Option<FallbackCondition> {
    if !IsManaged(wc) then None
    else if !IsReady(wc) then (if IsPluginPending(wc) then wc.inFallback else None)
    else if !TracksFallback(wc) then None
    else if AttachedPolicy(wc, o.policy).Err? || o.pods.Err? then wc.inFallback
    else match DesiredFallbackCondition(wc, o.pods.value, ReversionOf(AttachedPolicy(wc, o.policy).value))
      case Keep => wc.inFallback
      case Absent => None
      case Set(cond) => Some(cond)
  }

  function FallbackAfter(wc: WorkloadClass, o: Observation): Option<FallbackCondition> {
    if o.writeFails then wc.inFallback else FallbackWanted(wc, o)
  }

  predicate IsConfirmed(wc: WorkloadClass) {
    && wc.validated.Some? && (wc.validated.value.status.ConditionTrue? || wc.validated.value.reason.SelectorOverlap?)
    && (wc.profile.GKESpotPolicyRef? ==> wc.attached.Some? && wc.attached.value.status.ConditionTrue?)
  }

  /** The class uses this plugin for Spot capacity with a fallback, and the controllers have confirmed it. */
  predicate IsInScope(wc: WorkloadClass) {
    && wc.capacity.Some? && !wc.profile.OtherProfile? && IsConfirmed(wc)
    && (wc.capacity.value.placement.TypeUnset? || wc.capacity.value.placement.Spot?)
    && (wc.capacity.value.spotRatio.PercentageUnset?
        || (wc.capacity.value.spotRatio.Percentage? && wc.capacity.value.spotRatio.pct > 0))
    && wc.capacity.value.fallbackAction.FallbackToOnDemand?
  }

  /** The class is not confirmed, and only because its plugin has yet to attach. */
  predicate WaitsForPlugin(wc: WorkloadClass) {
    && wc.capacity.Some? && !wc.profile.OtherProfile? && !IsConfirmed(wc)
    && wc.attached.Some? && wc.attached.value.status.ConditionFalse? && wc.attached.value.reason.PluginPending?
  }

  /**
   * When nothing fails, a class has the condition exactly while it is in scope, or keeps it while it waits for its
   * plugin. In scope it is True exactly while a Pod is on fallback or, once it was True, while a policy that does not
   * revert finds any Pod at all. It describes the current class and says why, unless it is kept as it was.
   */
  lemma ConditionMeans(wc: WorkloadClass, o: Observation)
    requires !o.writeFails && !o.policy.PolicyLookupFailed? && o.pods.Ok?
    ensures !IsInScope(wc) ==> FallbackAfter(wc, o) == if WaitsForPlugin(wc) then wc.inFallback else None
    ensures var was, cond, pods := wc.inFallback, FallbackAfter(wc, o), o.pods.value;
      var kept := was.Some? && was.value.status.ConditionTrue? && pods.active > 0 && wc.profile.GKESpotPolicyRef?
        && o.policy.PolicyFound? && (o.policy.policy.reversion.ReversionUnset? || o.policy.policy.reversion.NoneReversion?);
      IsInScope(wc) ==>
        && cond.Some? && (cond.value.status.ConditionTrue? <==> pods.fallback != [] || kept)
        && (pods.fallback == [] && kept ==> cond == was)
        && (pods.fallback != [] || !kept ==>
              && cond.value.observedGeneration == wc.generation && !cond.value.status.ConditionUnknown?
              && (cond.value.message.FallbackActive? <==> pods.fallback != [])
              && (cond.value.message.ScaledToZero? <==> pods.fallback == [] && pods.active == 0))
  {
  }

  /** A class that waits for its plugin, or one of whose lookups or writes fails, keeps the condition it has. */
  lemma ConditionStays(wc: WorkloadClass, o: Observation)
    requires || o.writeFails || WaitsForPlugin(wc)
             || (IsInScope(wc) && (o.pods.Err? || (wc.profile.GKESpotPolicyRef? && o.policy.PolicyLookupFailed?)))
    ensures FallbackAfter(wc, o) == wc.inFallback
  {
  }

  // ----- The latch -----

  /** The class stays tracked, and ready or waiting for its plugin, and references a policy. */
  predicate Steady(wc: WorkloadClass) {
    TracksFallback(wc) && wc.profile.GKESpotPolicyRef? && (IsReady(wc) || IsPluginPending(wc))
  }

  predicate NonePolicy(policy: PlacementPolicy) {
    ReversionOf(Some(policy)).NoneReversion?
  }

  /** The policy keeps its action None: looking it up yields that, or fails. */
  predicate StaysNone(o: Observation) {
    !o.policy.PolicyMissing? && (o.policy.PolicyFound? ==> NonePolicy(o.policy.policy))
  }

  /** A reconcile that got through and saw no active Pods. */
  predicate SeesScaledToZero(wc: WorkloadClass, o: Observation) {
    && IsReady(wc) && !o.writeFails && o.policy.PolicyFound?
    && o.pods.Ok? && o.pods.value.active == 0 && o.pods.value.fallback == []
  }

  datatype Event = Reconciled(o: Observation) | Edited

  /** An edit changes anything but the condition: the spec, other status, the cluster around the class. */
  predicate Step(wc: WorkloadClass, e: Event, wc': WorkloadClass) {
    match e
    case Reconciled(o) => StaysNone(o) && wc' == wc.(inFallback := FallbackAfter(wc, o))
    case Edited => wc'.inFallback == wc.inFallback
  }

  predicate Run(classes: seq<WorkloadClass>, events: seq<Event>) {
    && |classes| == |events| + 1
    && (forall i | 0 <= i < |classes| :: Steady(classes[i]))
    && (forall i | 0 <= i < |events| :: Step(classes[i], events[i], classes[i + 1]))
  }

  /** A reconcile resets a latched condition exactly if it sees the workload scaled to zero. */
  lemma LatchStep(wc: WorkloadClass, o: Observation)
    requires Steady(wc) && StaysNone(o) && InFallback(wc.inFallback)
    ensures !InFallback(FallbackAfter(wc, o)) <==> SeesScaledToZero(wc, o)
  {
  }

  /**
   * Over every run the condition stays True until a reconcile sees no active Pods, and until then the webhook
   * directs no Pod of the class to Spot, whatever it counts and whichever lookups fail.
   */
  lemma {:induction false} LatchHolds(classes: seq<WorkloadClass>, events: seq<Event>, k: nat)
    requires Run(classes, events) && InFallback(classes[0].inFallback) && k < |classes|
    requires forall i | 0 <= i < k && events[i].Reconciled? :: !SeesScaledToZero(classes[i], events[i].o)
    ensures InFallback(classes[k].inFallback)
    ensures forall c, incoming, i: Inputs | i.policy.Some? ==> NonePolicy(i.policy.value) ::
      !TargetFor(c, classes[k], incoming, i).ToSpot?
  {
    if k > 0 {
      LatchHolds(classes, events, k - 1);
      assert Step(classes[k - 1], events[k - 1], classes[k - 1 + 1]);
      if events[k - 1].Reconciled? {
        LatchStep(classes[k - 1], events[k - 1].o);
      }
    }
    forall c, incoming, i: Inputs | i.policy.Some? ==> NonePolicy(i.policy.value)
      ensures !TargetFor(c, classes[k], incoming, i).ToSpot?
    {
      LatchedStaysOnDemand(c, classes[k], incoming, i);
    }
  }

  lemma LatchedStaysOnDemand(c: Cluster, wc: WorkloadClass, incoming: string, i: Inputs)
    requires Steady(wc) && InFallback(wc.inFallback)
    requires i.policy.Some? ==> NonePolicy(i.policy.value)
    ensures TargetFor(c, wc, incoming, i) == if GateOpen(wc) && i.policy.Some? then ToOnDemand else Unchanged
  {
  }

  /** The gate of the webhook is never wider than the controller's: an open gate means the reconciler acts. */
  lemma GateIsReady(wc: WorkloadClass)
    ensures GateOpen(wc) ==> IsReady(wc)
    ensures IsReady(wc) && !GateOpen(wc) ==> wc.generation > 0
  {
  }

  /** While some targeted Pod runs on a node that is not Spot, a reconcile that gets through sets the condition. */
  lemma FallbackIsReported(wc: WorkloadClass, o: Observation)
    requires IsManaged(wc) && IsReady(wc) && TracksFallback(wc)
    requires !o.writeFails && !o.policy.PolicyLookupFailed? && o.pods.Ok?
    ensures |o.pods.value.fallback| > 0 ==> InFallback(FallbackAfter(wc, o))
    ensures InFallback(FallbackAfter(wc, o)) ==>
      |o.pods.value.fallback| > 0 || (InFallback(wc.inFallback) && o.pods.value.active > 0
        && o.policy.PolicyFound? && NonePolicy(o.policy.policy))
  {
  }
}
