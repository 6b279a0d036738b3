/** The Pod webhook's decision (Default and mutatePodPlacement in internal/webhook/v1/pod_webhook.go). */
module PodWebhook {
  import opened Wrappers
  import opened Labels
  import opened Types
  import opened Governance
  import opened PdbSpec
  import opened Capacity
  import opened Placement
  import opened SpotCounts
  import opened SpotRatio

  datatype ReversionAction = ReversionUnset | NoneReversion | LazyReversion | ActiveReversion

  datatype PlacementPolicy = PlacementPolicy(placement: SpotPolicy, reversion: ReversionAction, minDuration: Option<int>)

  /** What happens to the Pod. */
  datatype Target = Unchanged | ToOnDemand | ToSpot(action: FallbackAction)

  /** Everything the webhook reads beside the cluster, and which of its lookups fail. */
  datatype Inputs = Inputs(
    classFails: bool, listed: seq<Pod>, listFails: bool, nodes: map<string, LabelMap>,
    policy: Option<PlacementPolicy>, budgetExhausted: bool)

  function CountsOf(c: Cluster, wc: WorkloadClass, incoming: string, i: Inputs): Result<PodCounts> {
    if i.listFails then Err else Ok(WebhookCounts(CountedPods(c, wc, Without(i.listed, incoming)), i.nodes))
  }

  /** Without a policy reversion is Lazy; a policy that leaves it unset means None. */
  function ReversionOf(policy: Option<PlacementPolicy>): ReversionAction {
    if policy.None? then LazyReversion
    else if policy.value.reversion.ReversionUnset? then NoneReversion else policy.value.reversion
  }

  predicate SticksToFallback(wc: WorkloadClass, policy: Option<PlacementPolicy>) {
    && wc.capacity.Some? && wc.capacity.value.fallbackAction.FallbackToOnDemand?
    && ReversionOf(policy).NoneReversion?
  }

  /** Counts that cannot be loaded count as no Pods. */
  function Decide(wc: WorkloadClass, policy: Option<PlacementPolicy>, counts: Result<PodCounts>, exhausted: bool): Target
    requires wc.capacity.Some?
  {
    var cs, loaded := wc.capacity.value, if counts.Ok? then counts.value else PodCounts(0, 0, 0);
    var action := if cs.fallbackAction.ActionUnset? then Fail else cs.fallbackAction;
    var ratio := RatioOf(cs);
    if ratio == Some(0) then ToOnDemand
    else if ratio.None? then Unchanged
    else if SticksToFallback(wc, policy) && (InFallback(wc.inFallback) || loaded.fallback > 0) then ToOnDemand
    else if ratio.value < 100 && !ShouldUseSpot(loaded.effectiveSpot, loaded.total, ratio.value) then ToOnDemand
    else if action.FallbackToOnDemand? && exhausted then ToSpot(Fail)
    else ToSpot(action)
  }

  /** The counts of the source's closure: computed on first use and at most once. */
  class CountCache {
    var loaded: bool
    var counts: Result<PodCounts>
    ghost var loads: nat

    constructor ()
      ensures !loaded && loads == 0
    {
      loaded, counts, loads := false, Err, 0;
    }

    ghost predicate Valid(expected: Result<PodCounts>)
      reads this
    {
      loads == (if loaded then 1 else 0) && (loaded ==> counts == expected)
    }

    method Get(c: Cluster, wc: WorkloadClass, incoming: string, i: Inputs) returns (r: Result<PodCounts>)
      requires Valid(CountsOf(c, wc, incoming, i))
      modifies this
      ensures Valid(CountsOf(c, wc, incoming, i)) && loaded && r == CountsOf(c, wc, incoming, i)
    {
      if !loaded {
        loads := loads + 1;
        loaded := true;
        if i.listFails {
          counts := Err;
        } else {
          var computed, _ := CountWorkloadClassPods(c, wc, i.listed, incoming, i.nodes);
          counts := Ok(computed);
        }
      }
      r := counts;
    }
  }

  ghost predicate Applied(
    t: Target, policy: Option<SpotPolicy>, selector: LabelMap, tolerations: seq<Toleration>,
    required: Option<seq<Term>>, selector': LabelMap, tolerations': seq<Toleration>, required': Option<seq<Term>>)
  {
    match t
    case Unchanged => selector' == selector && tolerations' == tolerations && required' == required
    case ToOnDemand =>
      && selector' == selector - {SPOT_KEY} && tolerations' == WithoutSpotTolerations(tolerations)
      && required' == Rewritten(required, OnDemandTerms())
    case ToSpot(action) =>
      && selector' == SpotSelector(selector, action, policy) && tolerations' == WithSpotToleration(tolerations)
      && required' == SpotAffinity(required, action, policy)
  }

  function PlacementOf(policy: Option<PlacementPolicy>): Option<SpotPolicy> {
    if policy.None? then None else Some(policy.value.placement)
  }

  method MutatePodPlacement(
    c: Cluster, incoming: string, spec: PodSpec, wc: WorkloadClass, policy: Option<PlacementPolicy>, i: Inputs)
    returns (failed: bool, ghost loads: nat)
    requires wc.capacity.Some? && spec.Valid()
    modifies spec, spec.tolerations
    ensures spec.Valid() && loads <= 1
    ensures Applied(Decide(wc, policy, CountsOf(c, wc, incoming, i), i.budgetExhausted), PlacementOf(policy),
                    old(spec.nodeSelector), old(spec.Tolerations()), old(spec.required),
                    spec.nodeSelector, spec.Tolerations(), spec.required)
    ensures failed <==> Decide(wc, policy, CountsOf(c, wc, incoming, i), i.budgetExhausted).Unchanged?
  {
    var target;
    target, loads := ChooseTarget(c, incoming, wc, policy, i);
    failed := target.Unchanged?;
    match target {
      case Unchanged =>
      case ToOnDemand => spec.MutateForOnDemand();
      case ToSpot(action) => spec.MutateForSpot(action, PlacementOf(policy));
    }
  }

  /** The workload has fallen back: as its condition says, or else as its Pods do. */
  method AlreadyInFallback(c: Cluster, incoming: string, wc: WorkloadClass, i: Inputs, cache: CountCache)
    returns (inFallback: bool)
    requires cache.Valid(CountsOf(c, wc, incoming, i))
    modifies cache
    ensures cache.Valid(CountsOf(c, wc, incoming, i))
    ensures var counts := CountsOf(c, wc, incoming, i);
      inFallback <==> InFallback(wc.inFallback) || (counts.Ok? && counts.value.fallback > 0)
  {
    inFallback := InFallback(wc.inFallback);
    if !inFallback {
      var counts := cache.Get(c, wc, incoming, i);
      inFallback := counts.Ok? && counts.value.fallback > 0;
    }
  }

  /** The order of the decision, with the counts loaded only where it needs them. */
  method ChooseTarget(c: Cluster, incoming: string, wc: WorkloadClass, policy: Option<PlacementPolicy>, i: Inputs)
    returns (t: Target, ghost loads: nat)
    requires wc.capacity.Some?
    ensures t == Decide(wc, policy, CountsOf(c, wc, incoming, i), i.budgetExhausted)
    ensures loads <= 1 && (t.Unchanged? ==> loads == 0)
  {
    loads := 0;
    var cs := wc.capacity.value;
    var csType := if cs.placement.TypeUnset? then Spot else cs.placement;
    if csType.OnDemand? {
      return ToOnDemand, 0;
    }
    if cs.spotRatio.PercentageInvalid? {
      return Unchanged, 0;
    }
    var spotRatio: int := if cs.spotRatio.PercentageUnset? then 100 else cs.spotRatio.pct;
    if spotRatio == 0 {
      return ToOnDemand, 0;
    }
    var fallbackAction := if cs.fallbackAction.ActionUnset? then Fail else cs.fallbackAction;
    var reversion := ReversionOf(policy);
    var cache := new CountCache();
    if reversion.NoneReversion? && fallbackAction.FallbackToOnDemand? {
      var inFallback := AlreadyInFallback(c, incoming, wc, i, cache);
      if inFallback {
        return ToOnDemand, cache.loads;
      }
    }
    if spotRatio < 100 {
      var counts := cache.Get(c, wc, incoming, i);
      var loaded := if counts.Ok? then counts.value else PodCounts(0, 0, 0);
      if !ShouldUseSpot(loaded.effectiveSpot, loaded.total, spotRatio) {
        return ToOnDemand, cache.loads;
      }
    }
    if fallbackAction.FallbackToOnDemand? && i.budgetExhausted {
      fallbackAction := Fail;
    }
    return ToSpot(fallbackAction), cache.loads;
  }

  // ----- The readiness gate -----

  /** The condition describes the current spec. */
  predicate Current(cond: Condition, generation: int) {
    generation > 0 ==> cond.observedGeneration == generation
  }

  /** Validated for this generation and, when a policy is referenced, attached for this generation. */
  predicate GateOpen(wc: WorkloadClass) {
    && IsValidated(wc.validated) && Current(wc.validated.value, wc.generation)
    && (wc.profile.GKESpotPolicyRef? ==> IsTrue(wc.attached) && Current(wc.attached.value, wc.generation))
  }

  method CheckGate(wc: WorkloadClass) returns (open: bool)
    ensures open <==> GateOpen(wc)
  {
    var required := [(true, wc.validated)];
    if wc.profile.GKESpotPolicyRef? {
      required := required + [(false, wc.attached)];
    }
    for i := 0 to |required|
      invariant i > 0 ==> IsValidated(wc.validated) && Current(wc.validated.value, wc.generation)
      invariant i > 1 ==> IsTrue(wc.attached) && Current(wc.attached.value, wc.generation)
    {
      var (isValidated, cond) := required[i];
      if cond.None? {
        return false;
      }
      if (isValidated && !IsValidated(cond)) || (!isValidated && !cond.value.status.ConditionTrue?) {
        return false;
      }
      if wc.generation > 0 && cond.value.observedGeneration != wc.generation {
        return false;
      }
    }
    return true;
  }

  /** The target of an admission for the class that governs the Pod. */
  function TargetFor(c: Cluster, wc: WorkloadClass, incoming: string, i: Inputs): Target {
    if wc.capacity.None? || wc.profile.OtherProfile? || !GateOpen(wc) then Unchanged
    else if wc.profile.GKESpotPolicyRef? && i.policy.None? then Unchanged
    else Decide(wc, if wc.profile.NoProfile? then None else i.policy, CountsOf(c, wc, incoming, i), i.budgetExhausted)
  }

  function Admission(c: Cluster, pod: Pod, i: Inputs): Target {
    if i.classFails || Best(c, pod).None? then Unchanged else TargetFor(c, Best(c, pod).value, pod.name, i)
  }

  /** `pod` is the Pod as it arrives, `spec` its placement, which is mutated. The webhook never rejects a Pod. */
  method Default(c: Cluster, pod: Pod, spec: PodSpec, i: Inputs)
    requires spec.Valid()
    modifies spec, spec.tolerations
    ensures spec.Valid()
    ensures Applied(Admission(c, pod, i),
                    if i.classFails || Best(c, pod).None? || Best(c, pod).value.profile.NoProfile? then None
                    else PlacementOf(i.policy),
                    old(spec.nodeSelector), old(spec.Tolerations()), old(spec.required),
                    spec.nodeSelector, spec.Tolerations(), spec.required)
  {
    if i.classFails {
      return;
    }
    var best := BestMatch(pod, Enforced(c.classes, c.enforcedLabel), c.classes);
    if best.None? {
      return;
    }
    var wc := best.value;
    if wc.capacity.None? {
      return;
    }
    var usesSpotPolicy := wc.profile.GKESpotPolicyRef?;
    if !wc.profile.NoProfile? && !usesSpotPolicy {
      return;
    }
    var open := CheckGate(wc);
    if !open {
      return;
    }
    var policy: Option<PlacementPolicy> := None;
    if usesSpotPolicy {
      if i.policy.None? {
        return;
      }
      policy := i.policy;
    }
    var _, _ := MutatePodPlacement(c, pod.name, spec, wc, policy, i);
  }

  // ----- What the decision means -----

  /**
   * Unless reversion None keeps the workload on its fallback, a decision made on loaded counts is the ratio rule,
   * at every ratio: at 100 % as well, where the counts are not even loaded.
   */
  lemma DecisionIsRatioRule(
    wc: WorkloadClass, policy: Option<PlacementPolicy>, counts: PodCounts, exhausted: bool, ratio: int)
    requires wc.capacity.Some? && RatioOf(wc.capacity.value) == Some(ratio)
    requires !(SticksToFallback(wc, policy) && (InFallback(wc.inFallback) || counts.fallback > 0))
    requires counts.effectiveSpot <= counts.total
    ensures Decide(wc, policy, Ok(counts), exhausted).ToSpot? <==>
      ShouldUseSpot(counts.effectiveSpot, counts.total, ratio)
    ensures !Decide(wc, policy, Ok(counts), exhausted).ToSpot? ==> Decide(wc, policy, Ok(counts), exhausted).ToOnDemand?
  {
    if ratio == 100 {
      assert ShouldUseSpot(counts.effectiveSpot, counts.total, ratio);
    }
  }

  /** The counts the webhook loads always satisfy that precondition. */
  lemma CountsAreConsistent(pods: seq<Pod>, nodes: map<string, LabelMap>)
    ensures WebhookCounts(pods, nodes).effectiveSpot <= WebhookCounts(pods, nodes).total
  {
    AmongAre(pods, nodes, EFFECTIVE_SPOT + {OnUnknownNode});
  }

  /**
   * A Pod is mutated exactly if its class has a strategy that parses, and the controllers have confirmed the class as
   * it is now: its validation, and with a policy reference that the policy is attached, which also has to be found.
   */
  lemma MutatesExactlyWhenConfirmed(c: Cluster, pod: Pod, wc: WorkloadClass, i: Inputs)
    requires Best(c, pod) == Some(wc)
    ensures !Admission(c, pod, i).Unchanged? <==>
      && !i.classFails && wc.capacity.Some? && !wc.profile.OtherProfile?
      && (wc.capacity.value.placement.OnDemand? || !wc.capacity.value.spotRatio.PercentageInvalid?)
      && wc.validated.Some?
      && (wc.validated.value.status.ConditionTrue? || wc.validated.value.reason.SelectorOverlap?)
      && (wc.generation <= 0 || wc.validated.value.observedGeneration == wc.generation)
      && (wc.profile.GKESpotPolicyRef? ==>
            && wc.attached.Some? && wc.attached.value.status.ConditionTrue? && i.policy.Some?
            && (wc.generation <= 0 || wc.attached.value.observedGeneration == wc.generation))
  {
  }

  /**
   * Where a mutated Pod goes: to On-Demand if the class says so, if its fallback is permanent, or if one Spot Pod
   * fewer would still do for the ratio (100 % unless the class says less); to Spot otherwise, strictly unless the class
   * allows a fallback that no budget forbids. A fallback is permanent when a policy does not revert it.
   */
  lemma AdmissionFollowsStrategy(c: Cluster, pod: Pod, wc: WorkloadClass, i: Inputs)
    requires Best(c, pod) == Some(wc) && !Admission(c, pod, i).Unchanged?
    ensures var cs, counts := wc.capacity.value, CountsOf(c, wc, pod.name, i);
      var ratio := if cs.spotRatio.Percentage? then cs.spotRatio.pct else 100;
      var spot, total := if counts.Ok? then counts.value.effectiveSpot else 0, if counts.Ok? then counts.value.total else 0;
      var permanent :=
        && cs.fallbackAction.FallbackToOnDemand? && wc.profile.GKESpotPolicyRef?
        && (i.policy.value.reversion.ReversionUnset? || i.policy.value.reversion.NoneReversion?)
        && ((wc.inFallback.Some? && wc.inFallback.value.status.ConditionTrue?) || (counts.Ok? && counts.value.fallback > 0));
      Admission(c, pod, i) ==
        if cs.placement.OnDemand? || permanent || spot * 100 >= (total + 1) * ratio then ToOnDemand
        else if cs.fallbackAction.ActionUnset? || (cs.fallbackAction.FallbackToOnDemand? && i.budgetExhausted) then ToSpot(Fail)
        else ToSpot(cs.fallbackAction)
  {
    CountsAreConsistent(CountedPods(c, wc, Without(i.listed, pod.name)), i.nodes);
  }

  /** A Pod the webhook directs to Spot counts as Spot-targeted, and one it directs to On-Demand does not. */
  lemma TargetIsVisible(
    t: Target, policy: Option<SpotPolicy>, selector: LabelMap, tolerations: seq<Toleration>,
    required: Option<seq<Term>>, selector': LabelMap, tolerations': seq<Toleration>, required': Option<seq<Term>>)
    requires Applied(t, policy, selector, tolerations, required, selector', tolerations', required')
    ensures !t.Unchanged? ==> (TargetedForSpot(selector', tolerations') <==> t.ToSpot?)
  {
    OnlySpotTolerationsGo(tolerations);
    SpotMutationTargets(selector', tolerations);
  }

  /** The scheduler can only follow: On-Demand Pods keep off Spot nodes, strict Spot Pods off all others. */
  lemma TargetConfinesPod(
    t: Target, policy: Option<SpotPolicy>, selector: LabelMap, tolerations: seq<Toleration>,
    required: Option<seq<Term>>, selector': LabelMap, tolerations': seq<Toleration>, required': Option<seq<Term>>,
    n: Node, less: Order)
    requires Applied(t, policy, selector, tolerations, required, selector', tolerations', required')
    requires Qualifies(selector', required', n, less)
    ensures t.ToOnDemand? ==> SPOT_KEY !in n.labels
    ensures t == ToSpot(Fail) ==> IsSpotNode(n.labels)
  {
    if t.ToOnDemand? {
      OnDemandExcludesSpotNodes(selector, required, n, less);
    } else if t.ToSpot? {
      SpotMutationMeans(selector, required, t.action, policy, n, less);
    }
  }

  /** An exhausted fallback budget turns a Pod that may fall back into a strict one, and changes nothing else. */
  lemma BudgetOnlyTightens(wc: WorkloadClass, policy: Option<PlacementPolicy>, counts: Result<PodCounts>)
    requires wc.capacity.Some?
    ensures var free, exhausted := Decide(wc, policy, counts, false), Decide(wc, policy, counts, true);
      && free.ToSpot? == exhausted.ToSpot?
      && (free.ToSpot? ==> exhausted == if free.action.FallbackToOnDemand? then ToSpot(Fail) else free)
      && (!free.ToSpot? ==> exhausted == free)
  {
  }
}
