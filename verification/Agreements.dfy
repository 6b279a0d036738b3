/** What the components mean for each other: guardrails for admission, the disruption webhook for reversion. */
module Agreements {
  import opened Wrappers
  import opened Types
  import opened PdbSpec
  import opened Windows
  import opened Capacity
  import opened SpotRatio
  import opened SpotCounts
  import opened PodWebhook
  import opened FallbackLatch
  import opened Reversion
  import DisruptionWebhook

  // ----- What a strategy has to be to pass the guardrails -----

  predicate WantsSpot(cs: CapacityStrategy) {
    cs.placement.TypeUnset? || cs.placement.Spot?
  }

  /** The ratio of a strategy that wants Spot: all Pods, unless it says less. */
  function SpotPercent(cs: CapacityStrategy): Pct {
    if cs.spotRatio.Percentage? then cs.spotRatio.pct else 100
  }

  /** The constraint can be read. */
  predicate Readable(c: Constraint) {
    match c
    case OtherPlugin => true
    case Undecodable => false
    case Parameters(mode, minSpotRatio, _, _) => !mode.InvalidMode? && !minSpotRatio.PercentageInvalid?
  }

  /** The strategy meets what one readable constraint asks for, while none forbids Spot. */
  predicate Meets(cs: CapacityStrategy, c: Constraint) {
    c.Parameters? ==>
      && (c.mode.RequiredMode? ==> WantsSpot(cs) && SpotPercent(cs) > 0)
      && (c.minSpotRatio.Percentage? && WantsSpot(cs) ==> SpotPercent(cs) >= c.minSpotRatio.pct)
  }

  predicate Forbidden(all: seq<Constraint>) {
    exists c | c in all :: c.Parameters? && c.mode.ForbiddenMode?
  }

  /**
   * A strategy passes exactly if it and every constraint can be read; it does not want Spot where that is forbidden,
   * and meets every constraint where it is not; and it falls back only where every constraint lets it.
   */
  lemma PassesExactly(cs: CapacityStrategy, all: seq<Constraint>)
    ensures Passes(Some(cs), all) <==>
      && (cs.placement.OnDemand? || !cs.spotRatio.PercentageInvalid?)
      && (forall c | c in all :: Readable(c))
      && (if Forbidden(all) then !WantsSpot(cs) else forall c | c in all :: Meets(cs, c))
      && (cs.fallbackAction.FallbackToOnDemand? ==>
            forall c | c in all && c.Parameters? :: c.allowFallback != Some(false) && !c.zeroFallbackRatio)
  {
    EffectiveAggregates(all);
    assert (forall c | c in all :: Readable(c)) <==> !exists c | c in all :: Faulty(c);
    assert Forbidden(all) <==> exists c :: c in all && Forbids(c);
  }

  /** Having no strategy passes exactly if every constraint can be read and none asks for Spot that none forbids. */
  lemma NoStrategyPassesExactly(all: seq<Constraint>)
    ensures Passes(None, all) <==>
      && (forall c | c in all :: Readable(c))
      && (Forbidden(all) || forall c | c in all && c.Parameters? :: !c.mode.RequiredMode?)
  {
    EffectiveAggregates(all);
    assert (forall c | c in all :: Readable(c)) <==> !exists c | c in all :: Faulty(c);
    assert Forbidden(all) <==> exists c :: c in all && Forbids(c);
  }

  // ----- What that means for the Pods of a class -----

  /** Where a guardrail forbids Spot, no Pod of a class that passes is sent there. */
  lemma ForbiddenKeepsOffSpot(c: Cluster, pod: Pod, wc: WorkloadClass, i: Inputs, all: seq<Constraint>)
    requires Best(c, pod) == Some(wc) && Passes(wc.capacity, all) && Forbidden(all)
    requires wc.capacity.Some? ==> !wc.capacity.value.placement.OtherType?
    ensures !Admission(c, pod, i).ToSpot?
  {
    if !Admission(c, pod, i).Unchanged? {
      PassesExactly(wc.capacity.value, all);
      AdmissionFollowsStrategy(c, pod, wc, i);
    }
  }

  /** Where one demands Spot, the first Pod of a class that passes goes there, unless its fallback is permanent. */
  lemma RequiredStartsOnSpot(
    c: Cluster, pod: Pod, wc: WorkloadClass, i: Inputs, all: seq<Constraint>, demand: Constraint)
    requires Best(c, pod) == Some(wc) && Passes(wc.capacity, all) && !Forbidden(all)
    requires demand in all && demand.Parameters? && demand.mode.RequiredMode?
    requires !Admission(c, pod, i).Unchanged?
    requires CountsOf(c, wc, pod.name, i).Ok? ==> CountsOf(c, wc, pod.name, i).value.total == 0
    requires CountsOf(c, wc, pod.name, i).Ok? ==> CountsOf(c, wc, pod.name, i).value.fallback == 0
    ensures Admission(c, pod, i).ToSpot? || InFallback(wc.inFallback)
  {
    PassesExactly(wc.capacity.value, all);
    AdmissionFollowsStrategy(c, pod, wc, i);
    assert Meets(wc.capacity.value, demand);
    CountsAreConsistent(CountedPods(c, wc, Without(i.listed, pod.name)), i.nodes);
  }

  lemma TargetMeetsLess(total: nat, ratio: Pct, least: nat)
    requires least <= ratio
    ensures SpotTarget(total, ratio) * 100 >= total * least
  {
    var target := SpotTarget(total, ratio);
    assert total * ratio >= total * least;
  }

  /** A minimum ratio that a class passes is kept by admission at every size of the workload. */
  lemma MinimumIsKept(cs: CapacityStrategy, all: seq<Constraint>, bound: Constraint, n: nat)
    requires Passes(Some(cs), all) && WantsSpot(cs)
    requires bound in all && bound.Parameters? && bound.minSpotRatio.Percentage?
    ensures AdmitAll(0, 0, SpotPercent(cs), n) * 100 >= n * bound.minSpotRatio.pct
  {
    PassesExactly(cs, all);
    assert Meets(cs, bound);
    AdmissionFromZero(SpotPercent(cs), n);
    TargetMeetsLess(n, SpotPercent(cs), bound.minSpotRatio.pct);
  }

  /** Where a guardrail disallows the fallback, a Pod sent to Spot waits for Spot, and the class is never in fallback. */
  lemma NoFallbackIsStrict(
    c: Cluster, pod: Pod, wc: WorkloadClass, i: Inputs, all: seq<Constraint>, o: Observation, bar: Constraint)
    requires Best(c, pod) == Some(wc) && Passes(wc.capacity, all)
    requires bar in all && bar.Parameters? && (bar.allowFallback == Some(false) || bar.zeroFallbackRatio)
    ensures Admission(c, pod, i) != ToSpot(FallbackToOnDemand)
    ensures IsConfirmed(wc) && !o.writeFails ==> FallbackAfter(wc, o).None?
  {
    if wc.capacity.Some? {
      PassesExactly(wc.capacity.value, all);
    }
    if !Admission(c, pod, i).Unchanged? {
      AdmissionFollowsStrategy(c, pod, wc, i);
    }
  }

  // ----- The disruption webhook and reversion -----

  /**
   * Reversion stops until the next window exactly when the webhook turns its evictions away for the window: a Pod of
   * a confirmed class is denied to it exactly then, or in an open window of a class in force if it is too young.
   */
  lemma ReversionExpectsTheWebhook(c: Cluster, wc: WorkloadClass, req: DisruptionWebhook.Request)
    requires req.eviction && req.pod in c.pods && Best(c, c.pods[req.pod]) == Some(wc) && IsConfirmed(wc)
    requires forall s | s in wc.policy.allowedSubjects :: !DisruptionWebhook.MatchesIdentity(req.user, s)
    ensures DisruptionWebhook.Decide(c, req, DisruptionWebhook.Lookups(false, false, false)) == DisruptionWebhook.Denied <==>
      || OutsideWindow(wc, c.now)
      || (&& !wc.policy.emergencyOverride && !wc.readiness.Overdue? && wc.policy.minInitialRunDays > 0
          && c.now < c.pods[req.pod].created + wc.policy.minInitialRunDays * DAY)
  {
    DisruptionWebhook.DeniedExactly(c, req, DisruptionWebhook.Lookups(false, false, false));
  }
}
