/** Spot reversion: which fallback Pods are evicted, and when to look again (internal/controller/spot_reversion.go). */
module Reversion {
  import opened Wrappers
  import opened Types
  import opened Windows
  import opened MaintenanceReadiness
  import opened Capacity
  import opened SpotRatio
  import opened SpotCounts
  import opened PodWebhook
  import opened FallbackLatch

  const DEFAULT_MIN_DURATION: int := 300 * SECOND
  const EVICTION_RETRY: int := 10 * SECOND
  const TOO_NEW_RETRY: int := 1800 * SECOND

  /** What the Eviction API answers. A rejection is by a PDB or by the disruption webhook. */
  datatype Answer = Accepted | NotFound | Rejected(tooNew: bool) | ApiError

  // ----- The strictest maxFallbackDuration -----

  /** `durations` are those of the gke-spot-placement constraints, `None` where unset or not decodable. */
  method GuardrailMaxFallbackDuration(durations: seq<Option<int>>) returns (strictest: Option<int>)
    ensures strictest.Some? ==> strictest in durations && strictest.value >= 0
    ensures forall d | d in durations && d.Some? && d.value >= 0 :: strictest.Some? && strictest.value <= d.value
  {
    strictest := None;
    for i := 0 to |durations|
      invariant strictest.Some? ==> strictest in durations[..i] && strictest.value >= 0
      invariant forall d | d in durations[..i] && d.Some? && d.value >= 0 ::
        strictest.Some? && strictest.value <= d.value
    {
      var d := durations[i];
      if d.None? || d.value < 0 {
        continue;
      }
      if strictest.None? || d.value < strictest.value {
        strictest := d;
      }
    }
  }

  // ----- One eviction -----

  predicate DisruptionWindowEnforced(wc: WorkloadClass) {
    !wc.policy.emergencyOverride && !wc.readiness.Overdue?
  }

  /** Only the disruption window explains a rejection: it is enforced and closed. */
  ghost predicate OutsideWindow(wc: WorkloadClass, now: int) {
    DisruptionWindowEnforced(wc) && !InSomeWindow(wc.policy.windows, now)
  }

  /** The delay is negative, and strictly, when evictions have to stop until the next window. */
  method EvictForReversion(wc: WorkloadClass, answer: Answer, now: int)
    returns (evicted: bool, delay: int, failed: bool)
    requires TimedWindows(wc)
    ensures failed <==> answer.ApiError?
    ensures evicted <==> answer.Accepted?
    ensures delay < 0 <==> answer.Rejected? && OutsideWindow(wc, now)
    ensures delay < 0 ==> -delay <= WEEK
    ensures delay >= 0 ==> delay == if !answer.Rejected? then 0 else if answer.tooNew then TOO_NEW_RETRY else EVICTION_RETRY
  {
    match answer {
      case Accepted => return true, 0, false;
      case NotFound => return false, 0, false;
      case Rejected(tooNew) =>
        if DisruptionWindowEnforced(wc) {
          var inWindow, nextWindow := IsTimeInWindows(now, wc.policy.windows);
          if !inWindow {
            return false, -nextWindow, false;
          }
        }
        var d := EVICTION_RETRY;
        if tooNew {
          d := TOO_NEW_RETRY;
        }
        return false, d, false;
      case ApiError => return false, 0, true;
    }
  }

  // ----- What a pass does with each Pod -----

  datatype Rule = Rule(active: bool, max: Option<int>, min: int, ratio: Pct, total: nat, now: int)

  datatype Kind = Unowned | UnderLimit | ShareIsMet | TooYoung | Evicted | Gone | Refused | Blocked

  /** One visited Pod: what became of it, and after which delays it is worth another look. */
  datatype Visit = Visit(pod: Pod, kind: Kind, waits: seq<int>)

  function Elapsed(r: Rule, pod: Pod): int {
    r.now - FallbackStart(pod)
  }

  predicate Forced(r: Rule, pod: Pod) {
    r.max.Some? && Elapsed(r, pod) >= r.max.value
  }

  /** With `spot` Pods on Spot the Pod may be evicted: its time is over, or Active reversion wants it back. */
  predicate Evictable(r: Rule, pod: Pod, spot: int) {
    && pod.hasController
    && (Forced(r, pod)
        || (r.active && !SpotShareMet(spot, r.total, r.ratio) && Elapsed(r, pod) >= r.min))
  }

  predicate IsAttempt(k: Kind) {
    k.Evicted? || k.Gone? || k.Refused? || k.Blocked?
  }

  /** The time left until the Pod reaches the limit. */
  function UntilLimit(r: Rule, pod: Pod): seq<int> {
    if r.max.Some? then [r.max.value - Elapsed(r, pod)] else []
  }

  /** What a pass runs against: its rule, whether evictions have to wait for a window, and the Eviction API. */
  datatype Scene = Scene(rule: Rule, closed: bool, api: Pod -> Answer)

  /** The visit is what the rule and the API's answer lead to when `spot` Pods are on Spot. */
  predicate Fits(v: Visit, s: Scene, spot: int) {
    var r, answer := s.rule, s.api(v.pod);
    && (IsAttempt(v.kind) <==> Evictable(r, v.pod, spot))
    && match v.kind
       case Unowned => !v.pod.hasController && v.waits == []
       case UnderLimit => v.pod.hasController && !r.active && v.waits == UntilLimit(r, v.pod)
       case ShareIsMet =>
         v.pod.hasController && r.active && SpotShareMet(spot, r.total, r.ratio) && v.waits == UntilLimit(r, v.pod)
       case TooYoung =>
         && v.pod.hasController && r.active && !SpotShareMet(spot, r.total, r.ratio)
         && v.waits == [r.min - Elapsed(r, v.pod)] + UntilLimit(r, v.pod)
       case Evicted => answer.Accepted? && v.waits == []
       case Gone => answer.NotFound? && v.waits == []
       case Refused =>
         answer.Rejected? && !s.closed && v.waits == [if answer.tooNew then TOO_NEW_RETRY else EVICTION_RETRY]
       case Blocked => answer.Rejected? && s.closed && |v.waits| == 1 && 0 < v.waits[0] <= WEEK
  }

  function EvictedIn(visits: seq<Visit>): nat {
    if visits == [] then 0
    else EvictedIn(visits[..|visits| - 1]) + if visits[|visits| - 1].kind.Evicted? then 1 else 0
  }

  predicate Unblocked(visits: seq<Visit>) {
    forall v | v in visits :: !v.kind.Blocked?
  }

  /** The visits go down the list, each with the Spot count that the evictions before it lead to, until a blocked one. */
  predicate Follows(visits: seq<Visit>, s: Scene, spot: nat, fallback: seq<Pod>) {
    visits == []
    || (var n := |visits| - 1;
        && |visits| <= |fallback| && visits[n].pod == fallback[n]
        && Fits(visits[n], s, spot + EvictedIn(visits[..n]))
        && Unblocked(visits[..n]) && Follows(visits[..n], s, spot, fallback))
  }

  lemma {:induction false} FollowsAt(visits: seq<Visit>, s: Scene, spot: nat, fallback: seq<Pod>, i: nat)
    requires Follows(visits, s, spot, fallback) && i < |visits|
    ensures |visits| <= |fallback| && visits[i].pod == fallback[i]
    ensures Fits(visits[i], s, spot + EvictedIn(visits[..i]))
    ensures visits[i].kind.Blocked? ==> i == |visits| - 1
  {
    var n := |visits| - 1;
    if i < n {
      FollowsAt(visits[..n], s, spot, fallback, i);
      assert visits[..n][..i] == visits[..i] && visits[..n][i] in visits[..n];
    }
  }

  /** `delay` is the shortest of the waits, or 0 if there are none. */
  predicate Earliest(delay: int, visits: seq<Visit>) {
    && (forall v, w | v in visits && w in v.waits :: 0 < delay <= w)
    && (delay == 0 || exists v, w | v in visits && w in v.waits :: delay == w)
  }

  lemma EarliestOfOneMore(delay: int, visits: seq<Visit>, v: Visit, delay': int)
    requires Earliest(delay, visits) && forall w | w in v.waits :: w > 0
    requires delay' == if v.waits == [] then delay
      else if |v.waits| == 1 then MinPositiveDuration(delay, v.waits[0])
      else MinPositiveDuration(MinPositiveDuration(delay, v.waits[0]), v.waits[1])
    requires |v.waits| <= 2
    ensures Earliest(delay', visits + [v])
  {
    assert delay >= 0;
    assert v in visits + [v] && forall x | x in visits :: x in visits + [v];
    assert v.waits != [] ==> v.waits[0] in v.waits;
    assert |v.waits| == 2 ==> v.waits[1] in v.waits;
  }

  lemma WaitsArePositive(v: Visit, s: Scene, spot: int)
    requires Fits(v, s, spot)
    ensures |v.waits| <= 2 && forall w | w in v.waits :: w > 0
  {
  }

  /** What to do with a Pod before any eviction is tried, as the source's switch has it. */
  method Assess(r: Rule, pod: Pod, spot: nat) returns (skip: Option<Kind>, waits: seq<int>)
    requires r.active || r.max.Some?
    ensures skip.None? <==> Evictable(r, pod, spot)
    ensures forall s: Scene | skip.Some? && s.rule == r :: Fits(Visit(pod, skip.value, waits), s, spot)
  {
    if !pod.hasController {
      return Some(Unowned), [];
    }
    var elapsed := Elapsed(r, pod);
    if r.max.Some? && elapsed >= r.max.value {
      return None, [];
    }
    if !r.active {
      return Some(UnderLimit), [r.max.value - elapsed];
    }
    if r.ratio <= 0 || SpotShareMet(spot, r.total, r.ratio) {
      return Some(ShareIsMet), if r.max.Some? then [r.max.value - elapsed] else [];
    }
    if elapsed < r.min {
      return Some(TooYoung), [r.min - elapsed] + if r.max.Some? then [r.max.value - elapsed] else [];
    }
    return None, [];
  }

  ghost function SceneFor(r: Rule, wc: WorkloadClass, api: Pod -> Answer): Scene {
    Scene(r, OutsideWindow(wc, r.now), api)
  }

  /** One Pod of the loop; `None` when the API fails, which ends the pass. */
  method VisitPod(r: Rule, pod: Pod, spot: nat, wc: WorkloadClass, answer: Answer, ghost s: Scene)
    returns (visit: Option<Visit>)
    requires TimedWindows(wc) && (r.active || r.max.Some?)
    requires s.rule == r && s.closed == OutsideWindow(wc, r.now) && s.api(pod) == answer
    ensures visit.None? <==> Evictable(r, pod, spot) && answer.ApiError?
    ensures visit.Some? ==> visit.value.pod == pod && Fits(visit.value, s, spot)
  {
    var skip, waits := Assess(r, pod, spot);
    if skip.Some? {
      return Some(Visit(pod, skip.value, waits));
    }
    var evicted, delay, error := EvictForReversion(wc, answer, r.now);
    if error {
      return None;
    }
    if !evicted {
      if delay < 0 {
        return Some(Visit(pod, Blocked, [-delay]));
      }
      return Some(Visit(pod, if answer.NotFound? then Gone else Refused, if delay == 0 then [] else [delay]));
    }
    return Some(Visit(pod, Evicted, []));
  }

  /** Folding a Pod's waits into the delay. */
  function Sooner(delay: int, waits: seq<int>): int {
    var one := MinPositiveDuration(delay, if waits == [] then 0 else waits[0]);
    MinPositiveDuration(one, if |waits| < 2 then 0 else waits[1])
  }

  lemma RecordVisit(requeue: int, visits: seq<Visit>, v: Visit, s: Scene, spot: nat, fallback: seq<Pod>)
    requires requeue >= 0 && Earliest(requeue, visits)
    requires Follows(visits, s, spot, fallback) && Unblocked(visits)
    requires |visits| < |fallback| && v.pod == fallback[|visits|] && Fits(v, s, spot + EvictedIn(visits))
    ensures Follows(visits + [v], s, spot, fallback)
    ensures EvictedIn(visits + [v]) == EvictedIn(visits) + if v.kind.Evicted? then 1 else 0
    ensures !v.kind.Blocked? ==> Unblocked(visits + [v])
    ensures Earliest(Sooner(requeue, v.waits), visits + [v]) && Sooner(requeue, v.waits) >= 0
  {
    assert (visits + [v])[..|visits|] == visits;
    WaitsArePositive(v, s, spot + EvictedIn(visits));
    EarliestOfOneMore(requeue, visits, v, Sooner(requeue, v.waits));
  }

  /** Nothing blocked the pass so far, and the API fails on the eviction of the next Pod. */
  predicate StopsAt(r: Rule, spot: nat, fallback: seq<Pod>, visits: seq<Visit>, api: Pod -> Answer) {
    && |visits| < |fallback| && Unblocked(visits)
    && api(fallback[|visits|]).ApiError? && Evictable(r, fallback[|visits|], spot + EvictedIn(visits))
  }

  /** The visits so far, with the running Spot count and delay that they lead to. */
  predicate Progress(visits: seq<Visit>, s: Scene, spot: nat, fallback: seq<Pod>, spotPods: nat, requeue: int) {
    && Follows(visits, s, spot, fallback) && spotPods == spot + EvictedIn(visits)
    && Earliest(requeue, visits) && requeue >= 0
  }

  /** One iteration: the next Pod is visited, and its wait and eviction are taken into account. */
  method VisitNext(
    r: Rule, ghost spot: nat, fallback: seq<Pod>, wc: WorkloadClass, answer: Answer, ghost s: Scene,
    visits: seq<Visit>, spotPods: nat, requeue: int)
    returns (visit: Option<Visit>, spotPods': nat, requeue': int)
    requires TimedWindows(wc) && (r.active || r.max.Some?) && |visits| < |fallback|
    requires s.rule == r && s.closed == OutsideWindow(wc, r.now) && s.api(fallback[|visits|]) == answer
    requires Progress(visits, s, spot, fallback, spotPods, requeue) && Unblocked(visits)
    ensures visit.None? <==> StopsAt(r, spot, fallback, visits, s.api)
    ensures visit.Some? ==>
      && Progress(visits + [visit.value], s, spot, fallback, spotPods', requeue')
      && (Unblocked(visits + [visit.value]) <==> !visit.value.kind.Blocked?)
  {
    visit := VisitPod(r, fallback[|visits|], spotPods, wc, answer, s);
    spotPods', requeue' := spotPods, requeue;
    if visit.Some? {
      RecordVisit(requeue, visits, visit.value, s, spot, fallback);
      requeue' := Sooner(requeue, visit.value.waits);
      spotPods' := if visit.value.kind.Evicted? then spotPods + 1 else spotPods;
      assert visit.value in visits + [visit.value];
    }
  }

  /** The loop over the fallback Pods, oldest first. A blocked eviction ends it until the next window. */
  method RevertPods(
    r: Rule, spot: nat, fallback: seq<Pod>, wc: WorkloadClass, api: Pod -> Answer, ghost s: Scene)
    returns (failed: bool, requeue: int, visits: seq<Visit>)
    requires TimedWindows(wc) && (r.active || r.max.Some?)
    requires s.rule == r && s.closed == OutsideWindow(wc, r.now) && s.api == api
    ensures Follows(visits, s, spot, fallback)
    ensures failed <==> StopsAt(r, spot, fallback, visits, api)
    ensures failed ==> requeue == 0
    ensures !failed ==> Earliest(requeue, visits) && requeue >= 0
    ensures !failed ==> |visits| == |fallback| || (visits != [] && visits[|visits| - 1].kind.Blocked?)
  {
    failed, requeue, visits := false, 0, [];
    var spotPods := spot;
    for i := 0 to |fallback|
      invariant |visits| == i && Unblocked(visits)
      invariant Progress(visits, s, spot, fallback, spotPods, requeue)
    {
      var visit;
      visit, spotPods, requeue := VisitNext(r, spot, fallback, wc, api(fallback[i]), s, visits, spotPods, requeue);
      if visit.None? {
        return true, 0, visits;
      }
      visits := visits + [visit.value];
      if visit.value.kind.Blocked? {
        return false, requeue, visits;
      }
    }
  }

  // ----- The whole step -----

  function RuleFor(wc: WorkloadClass, policy: Option<PlacementPolicy>, max: Option<int>, active: nat, now: int): Rule
    requires TracksFallback(wc)
  {
    Rule(ReversionOf(policy).ActiveReversion?, max,
         if policy.Some? && policy.value.minDuration.Some? then policy.value.minDuration.value else DEFAULT_MIN_DURATION,
         RatioOf(wc.capacity.value).value, active, now)
  }

  /** The step has something to do: capacity is back, and an Active policy or a guardrail's limit asks for it. */
  predicate Acts(
    wc: WorkloadClass, policy: Option<PlacementPolicy>, durations: Result<seq<Option<int>>>, capacity: Result<bool>)
  {
    && TracksFallback(wc) && capacity == Ok(true) && durations.Ok?
    && (ReversionOf(policy).ActiveReversion? || exists d :: d in durations.value && d.Some? && d.value >= 0)
  }

  /** `durations` are the guardrails' limits, if they can be listed; `capacity` is the Spot capacity signal. */
  method ReconcileSpotReversion(
    wc: WorkloadClass, policy: Option<PlacementPolicy>, pods: WorkloadPods, now: int,
    durations: Result<seq<Option<int>>>, capacity: Result<bool>, api: Pod -> Answer)
    returns (failed: bool, requeue: int, ghost visits: seq<Visit>, ghost max: Option<int>)
    requires TimedWindows(wc)
    ensures requeue >= 0 && (failed ==> requeue == 0)
    ensures visits != [] ==> TracksFallback(wc) && durations.Ok? && capacity == Ok(true)
    ensures visits != [] ==> ReversionOf(policy).ActiveReversion? || max.Some?
    ensures durations.Ok? && max.Some? ==> max in durations.value && max.value >= 0
    ensures visits != [] ==>
      forall d | d in durations.value && d.Some? && d.value >= 0 :: max.Some? && max.value <= d.value
    ensures TracksFallback(wc) ==>
      Follows(visits, SceneFor(RuleFor(wc, policy, max, pods.active, now), wc, api), pods.EffectiveSpot(), pods.fallback)
    ensures failed <==>
      && TracksFallback(wc) && pods.fallback != []
      && (durations.Err?
          || (Acts(wc, policy, durations, capacity)
              && StopsAt(RuleFor(wc, policy, max, pods.active, now), pods.EffectiveSpot(), pods.fallback, visits, api)))
    ensures !failed ==> Earliest(requeue, visits)
    ensures !failed && Acts(wc, policy, durations, capacity) ==>
      |visits| == |pods.fallback| || (visits != [] && visits[|visits| - 1].kind.Blocked?)
  {
    visits, max := [], None;
    if !TracksFallback(wc) || |pods.fallback| == 0 {
      return false, 0, [], None;
    }
    if durations.Err? {
      return true, 0, [], None;
    }
    var maxDuration := GuardrailMaxFallbackDuration(durations.value);
    max := maxDuration;
    var active := ReversionOf(policy).ActiveReversion?;
    if !active && maxDuration.None? {
      return false, 0, [], max;
    }
    if capacity.Err? {
      return false, 0, [], max;
    }
    if !capacity.value {
      return false, 0, [], max;
    }
    failed, requeue, visits :=
      RevertPods(RuleFor(wc, policy, maxDuration, pods.active, now), pods.EffectiveSpot(), pods.fallback, wc, api,
                 SceneFor(RuleFor(wc, policy, maxDuration, pods.active, now), wc, api));
  }

  // ----- What a pass guarantees -----

  /** Only owned Pods are evicted, each past the limit or wanted back by an unmet share after its minimum time. */
  lemma EvictionsAreJustified(visits: seq<Visit>, s: Scene, spot: nat, fallback: seq<Pod>, i: nat)
    requires Follows(visits, s, spot, fallback) && i < |visits| && visits[i].kind.Evicted?
    ensures visits[i].pod.hasController
    ensures Forced(s.rule, visits[i].pod)
      || (s.rule.active && Elapsed(s.rule, visits[i].pod) >= s.rule.min
          && spot + EvictedIn(visits[..i]) < SpotTarget(s.rule.total, s.rule.ratio))
  {
    FollowsAt(visits, s, spot, fallback, i);
    AdmitsUpToTarget(spot + EvictedIn(visits[..i]), s.rule.total, s.rule.ratio);
  }

  /**
   * What a pass evicts, said of the class, its policy and the Pod: an owned Pod that a guardrail's limit allows no
   * longer, or that an Active policy wants back after its minimum time (by default five minutes), while fewer Pods
   * are on Spot than the class's ratio (by default all of them) asks for, counting those already evicted.
   */
  lemma {:induction false} EvictionsFollowPolicy(
    wc: WorkloadClass, policy: Option<PlacementPolicy>, max: Option<int>, w: WorkloadPods, now: int, api: Pod -> Answer,
    visits: seq<Visit>, i: nat)
    requires TracksFallback(wc)
    requires Follows(visits, SceneFor(RuleFor(wc, policy, max, w.active, now), wc, api), w.EffectiveSpot(), w.fallback)
    requires i < |visits| && visits[i].kind.Evicted?
    ensures var pod, spot := visits[i].pod, w.spot + w.pendingSpot + EvictedIn(visits[..i]);
      var elapsed := now - RunsSince(pod);
      var ratio := if wc.capacity.value.spotRatio.Percentage? then wc.capacity.value.spotRatio.pct else 100;
      && pod.hasController && pod == w.fallback[i] && api(pod).Accepted?
      && ((max.Some? && elapsed >= max.value)
          || (&& policy.Some? && policy.value.reversion.ActiveReversion?
              && elapsed >= (if policy.value.minDuration.Some? then policy.value.minDuration.value else 300_000_000_000)
              && spot * 100 < w.active * ratio))
  {
    FollowsAt(visits, SceneFor(RuleFor(wc, policy, max, w.active, now), wc, api), w.EffectiveSpot(), w.fallback, i);
  }

  /**
   * And what a pass does not leave alone: such a Pod, once the pass gets to it, is evicted unless the API refuses.
   */
  lemma {:induction false} PolicyIsFollowed(
    wc: WorkloadClass, policy: Option<PlacementPolicy>, max: Option<int>, w: WorkloadPods, now: int, api: Pod -> Answer,
    visits: seq<Visit>, i: nat)
    requires TracksFallback(wc)
    requires Follows(visits, SceneFor(RuleFor(wc, policy, max, w.active, now), wc, api), w.EffectiveSpot(), w.fallback)
    requires i < |visits| && visits[i].pod.hasController
    requires var pod, spot := visits[i].pod, w.spot + w.pendingSpot + EvictedIn(visits[..i]);
      var elapsed := now - RunsSince(pod);
      var ratio := if wc.capacity.value.spotRatio.Percentage? then wc.capacity.value.spotRatio.pct else 100;
      || (max.Some? && elapsed >= max.value)
      || (&& policy.Some? && policy.value.reversion.ActiveReversion?
          && elapsed >= (if policy.value.minDuration.Some? then policy.value.minDuration.value else 300_000_000_000)
          && 0 < w.active && spot * 100 < w.active * ratio)
    ensures visits[i].kind.Evicted? <==> api(visits[i].pod).Accepted?
  {
    FollowsAt(visits, SceneFor(RuleFor(wc, policy, max, w.active, now), wc, api), w.EffectiveSpot(), w.fallback, i);
  }

  /** Over the oldest-first list, forced evictions come before all others. */
  lemma ForcedComeFirst(visits: seq<Visit>, s: Scene, spot: nat, fallback: seq<Pod>, i: nat, j: nat)
    requires Follows(visits, s, spot, fallback) && OldestFirst(fallback)
    requires i < j < |visits| && visits[i].kind.Evicted? && visits[j].kind.Evicted?
    ensures Forced(s.rule, visits[j].pod) ==> Forced(s.rule, visits[i].pod)
  {
    FollowsAt(visits, s, spot, fallback, i);
    FollowsAt(visits, s, spot, fallback, j);
    assert StartsBefore(fallback[i], fallback[j]);
  }

  function UnforcedIn(visits: seq<Visit>, r: Rule): nat {
    if visits == [] then 0
    else
      var last := visits[|visits| - 1];
      UnforcedIn(visits[..|visits| - 1], r) + if last.kind.Evicted? && !Forced(r, last.pod) then 1 else 0
  }

  /** Evictions that no limit forces never exceed the Spot deficit at the start of the pass. */
  lemma {:induction false} UnforcedWithinDeficit(visits: seq<Visit>, s: Scene, spot: nat, fallback: seq<Pod>)
    requires Follows(visits, s, spot, fallback)
    ensures UnforcedIn(visits, s.rule) <= EvictedIn(visits)
    ensures UnforcedIn(visits, s.rule) <= Max(0, SpotTarget(s.rule.total, s.rule.ratio) - spot)
  {
    if visits != [] {
      var n := |visits| - 1;
      UnforcedWithinDeficit(visits[..n], s, spot, fallback);
      if visits[n].kind.Evicted? && !Forced(s.rule, visits[n].pod) {
        AdmitsUpToTarget(spot + EvictedIn(visits[..n]), s.rule.total, s.rule.ratio);
      }
    }
  }

  /** A Pod past the limit is never left alone by a pass that gets to it: an owned one is always tried. */
  lemma LimitIsEnforced(visits: seq<Visit>, s: Scene, spot: nat, fallback: seq<Pod>, i: nat)
    requires Follows(visits, s, spot, fallback) && i < |visits|
    requires visits[i].pod.hasController && Forced(s.rule, visits[i].pod)
    ensures visits[i].kind.Evicted? <==> s.api(visits[i].pod).Accepted?
    ensures IsAttempt(visits[i].kind)
  {
    FollowsAt(visits, s, spot, fallback, i);
  }

  /** Each Pod left alone until some moment is looked at again no later than that. */
  lemma NoThresholdIsMissed(
    visits: seq<Visit>, s: Scene, spot: nat, fallback: seq<Pod>, requeue: int, i: nat)
    requires Follows(visits, s, spot, fallback) && Earliest(requeue, visits) && i < |visits|
    ensures var v, r := visits[i], s.rule;
      && (v.pod.hasController && !IsAttempt(v.kind) && r.max.Some? ==>
            0 < requeue <= r.max.value - Elapsed(r, v.pod))
      && (v.kind.TooYoung? ==> 0 < requeue <= r.min - Elapsed(r, v.pod))
      && (v.kind.Refused? && s.api(v.pod).Rejected? ==>
            0 < requeue <= if s.api(v.pod).tooNew then 1_800_000_000_000 else 10_000_000_000)
      && (v.kind.Blocked? ==> 0 < requeue <= WEEK)
  {
    FollowsAt(visits, s, spot, fallback, i);
    var v := visits[i];
    assert v in visits;
    if v.waits != [] {
      assert v.waits[0] in v.waits && v.waits[|v.waits| - 1] in v.waits;
    }
  }

  /** And a delay is never shorter than need be: it is the time until one of those moments. */
  lemma DelayIsSomeThreshold(visits: seq<Visit>, s: Scene, spot: nat, fallback: seq<Pod>, requeue: int) returns (i: nat)
    requires Follows(visits, s, spot, fallback) && Earliest(requeue, visits) && requeue > 0
    ensures i < |visits|
    ensures var v, elapsed := visits[i], s.rule.now - RunsSince(visits[i].pod);
      || (s.rule.max.Some? && v.pod.hasController && !IsAttempt(v.kind) && requeue == s.rule.max.value - elapsed)
      || (v.kind.TooYoung? && requeue == s.rule.min - elapsed)
      || (v.kind.Refused? && s.api(v.pod).Rejected?
            && requeue == if s.api(v.pod).tooNew then 1_800_000_000_000 else 10_000_000_000)
      || (v.kind.Blocked? && s.closed && requeue <= WEEK)
  {
    var v, w :| v in visits && w in v.waits && requeue == w;
    i :| 0 <= i < |visits| && visits[i] == v;
    FollowsAt(visits, s, spot, fallback, i);
  }

  /** The Pod stays on fallback for a reason that no Spot share explains. */
  predicate LeftFor(s: Scene, pod: Pod) {
    || !pod.hasController || s.api(pod).NotFound? || s.api(pod).Rejected?
    || (Elapsed(s.rule, pod) < s.rule.min && !Forced(s.rule, pod))
  }

  /**
   * After the visits of an Active pass the share is met, counting every evicted Pod as moved to Spot, or each
   * visited Pod that was not evicted has no owner, is too young, or its eviction was refused.
   */
  lemma {:induction false} PassMeetsShareOrRunsOut(visits: seq<Visit>, s: Scene, spot: nat, fallback: seq<Pod>)
    requires Follows(visits, s, spot, fallback) && s.rule.active
    ensures || SpotShareMet(spot + EvictedIn(visits), s.rule.total, s.rule.ratio)
            || forall v | v in visits && !v.kind.Evicted? :: LeftFor(s, v.pod)
  {
    if visits != [] {
      var n := |visits| - 1;
      PassMeetsShareOrRunsOut(visits[..n], s, spot, fallback);
      assert visits == visits[..n] + [visits[n]];
    }
  }
}
