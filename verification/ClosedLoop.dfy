/**
 * Reversion and admission together: one Active pass evicts fallback Pods while the webhook admits their
 * replacements, in any interleaving.
 */
module ClosedLoop {
  import opened Wrappers
  import opened Labels
  import opened Types
  import opened Capacity
  import opened SpotRatio
  import opened SpotCounts
  import opened Placement
  import opened PodWebhook
  import opened Reversion

  /** What is fixed during the pass: the class, its policy, the nodes, and the counts the pass started from. */
  datatype Loop = Loop(
    wc: WorkloadClass, policy: Option<PlacementPolicy>, nodes: map<string, LabelMap>, ratio: Pct, spot: nat, total: nat)

  /** The counted Pods of the class, and how many were evicted and admitted since the pass started. */
  datatype State = State(pods: seq<Pod>, evicted: nat, admitted: nat)

  datatype Event =
    | Evict(i: nat)
    | Admit(pod: Pod, exhausted: bool)
    | Bind(i: nat, node: string)

  function Effective(l: Loop, pods: seq<Pod>): nat {
    CountAt(pods, l.nodes, EFFECTIVE_SPOT)
  }

  predicate Placeable(l: Loop) {
    && l.wc.capacity.Some? && RatioOf(l.wc.capacity.value) == Some(l.ratio)
    && ReversionOf(l.policy).ActiveReversion?
  }

  /** The node of every bound Pod exists. */
  predicate NodesExist(l: Loop, pods: seq<Pod>) {
    forall p | p in pods && p.nodeName != "" :: p.nodeName in l.nodes
  }

  predicate Start(l: Loop, s: State) {
    && s.evicted == s.admitted == 0 && |s.pods| == l.total && Effective(l, s.pods) == l.spot
    && NodesExist(l, s.pods)
  }

  /** The webhook's target for a Pod admitted now. */
  function TargetNow(l: Loop, s: State, exhausted: bool): Target
    requires Placeable(l)
  {
    Decide(l.wc, l.policy, Ok(WebhookCounts(s.pods, l.nodes)), exhausted)
  }

  predicate Step(l: Loop, s: State, e: Event, s': State)
    requires Placeable(l)
  {
    match e
    // A fallback Pod whose eviction no limit forces: the running share of the pass is unmet.
    case Evict(i) =>
      && i < |s.pods| && PlaceOf(l.nodes, s.pods[i]) == FellBack
      && !SpotShareMet(l.spot + s.evicted, l.total, l.ratio)
      && s' == State(s.pods[..i] + s.pods[i + 1..], s.evicted + 1, s.admitted)
    // The replacement of an evicted Pod, not yet scheduled, targeted as the webhook decides.
    case Admit(pod, exhausted) =>
      && s.admitted < s.evicted
      && pod.nodeName == "" && (Targeted(pod) <==> TargetNow(l, s, exhausted).ToSpot?)
      && s' == State(s.pods + [pod], s.evicted, s.admitted + 1)
    // The scheduler binds a Pod; one that is not targeted is kept off the Spot nodes.
    case Bind(i, node) =>
      && i < |s.pods| && s.pods[i].nodeName == "" && node != "" && node in l.nodes
      && (Targeted(s.pods[i]) || !IsSpotNode(l.nodes[node]))
      && s' == s.(pods := s.pods[i := s.pods[i].(nodeName := node)])
  }

  predicate Run(l: Loop, states: seq<State>, events: seq<Event>)
    requires Placeable(l)
  {
    && |states| == |events| + 1 && Start(l, states[0])
    && forall i | 0 <= i < |events| :: Step(l, states[i], events[i], states[i + 1])
  }

  /** A targeted Pod is bound to a node that is not Spot. */
  predicate FallsBack(l: Loop, s: State, e: Event) {
    && e.Bind? && e.i < |s.pods| && Targeted(s.pods[e.i])
    && !(e.node in l.nodes && IsSpotNode(l.nodes[e.node]))
  }

  /** Every targeted Pod that was bound during the pass got a Spot node. */
  predicate SpotHolds(l: Loop, states: seq<State>, events: seq<Event>)
    requires |states| == |events| + 1
  {
    forall i | 0 <= i < |events| :: !FallsBack(l, states[i], events[i])
  }

  ghost predicate Balanced(l: Loop, s: State) {
    && s.admitted <= s.evicted && |s.pods| == l.total - s.evicted + s.admitted
    && Effective(l, s.pods) <= l.spot + s.admitted
    && (s.evicted > 0 ==> !SpotShareMet(l.spot + s.evicted - 1, l.total, l.ratio))
    && NodesExist(l, s.pods)
  }

  // ----- Counting through one step -----

  lemma CountSplit(l: Loop, pods: seq<Pod>, i: nat)
    requires i < |pods|
    ensures Effective(l, pods) == Effective(l, pods[..i]) + Effective(l, [pods[i]]) + Effective(l, pods[i + 1..])
  {
    assert pods == pods[..i] + [pods[i]] + pods[i + 1..];
    AmongConcat(pods[..i], [pods[i]], l.nodes, EFFECTIVE_SPOT);
    AmongConcat(pods[..i] + [pods[i]], pods[i + 1..], l.nodes, EFFECTIVE_SPOT);
  }

  lemma CountOne(l: Loop, pod: Pod)
    ensures Effective(l, [pod]) == if PlaceOf(l.nodes, pod) in EFFECTIVE_SPOT then 1 else 0
  {
    assert [pod][..0] == [] && [pod][|[pod]| - 1] == pod;
    assert Among([pod][..0], l.nodes, EFFECTIVE_SPOT) == [];
    assert Among([pod], l.nodes, EFFECTIVE_SPOT) == if PlaceOf(l.nodes, pod) in EFFECTIVE_SPOT then [pod] else [];
  }

  lemma EvictKeepsSpot(l: Loop, pods: seq<Pod>, i: nat)
    requires i < |pods| && PlaceOf(l.nodes, pods[i]) == FellBack
    ensures Effective(l, pods[..i] + pods[i + 1..]) == Effective(l, pods)
  {
    CountSplit(l, pods, i);
    CountOne(l, pods[i]);
    AmongConcat(pods[..i], pods[i + 1..], l.nodes, EFFECTIVE_SPOT);
  }

  lemma AdmitAddsTargeted(l: Loop, pods: seq<Pod>, pod: Pod)
    requires pod.nodeName == ""
    ensures Effective(l, pods + [pod]) == Effective(l, pods) + if Targeted(pod) then 1 else 0
  {
    AmongConcat(pods, [pod], l.nodes, EFFECTIVE_SPOT);
    CountOne(l, pod);
  }

  lemma BindNeverAdds(l: Loop, pods: seq<Pod>, i: nat, node: string)
    requires i < |pods| && pods[i].nodeName == "" && node != "" && node in l.nodes
    requires Targeted(pods[i]) || !IsSpotNode(l.nodes[node])
    ensures var bound := pods[i := pods[i].(nodeName := node)];
      && Effective(l, bound) <= Effective(l, pods)
      && (!Targeted(pods[i]) || IsSpotNode(l.nodes[node]) ==> Effective(l, bound) == Effective(l, pods))
  {
    var bound := pods[i := pods[i].(nodeName := node)];
    CountSplit(l, pods, i);
    CountSplit(l, bound, i);
    CountOne(l, pods[i]);
    CountOne(l, bound[i]);
    assert bound[..i] == pods[..i] && bound[i + 1..] == pods[i + 1..];
  }

  // ----- Every replacement goes to Spot -----

  /**
   * The arithmetic of the loop. After `j` evictions, `k` of them replaced, the workload is smaller than it was, so
   * the ratio asks for less; but the last eviction was made because one Pod more on Spot was still too few.
   */
  lemma ReplacementFits(spot: nat, total: nat, ratio: Pct, j: nat, k: nat, now: nat)
    requires k < j && now <= spot + k && !SpotShareMet(spot + j - 1, total, ratio)
    ensures ShouldUseSpot(now, total - j + k, ratio)
  {
    assert (spot + j - 1) * 100 < total * ratio;
    assert (j - 1 - k) * ratio <= (j - 1 - k) * 100;
    assert (total - j + k + 1) * ratio == total * ratio - (j - 1 - k) * ratio;
  }

  lemma ReplacementGoesToSpot(l: Loop, s: State, exhausted: bool)
    requires Placeable(l) && Balanced(l, s) && s.admitted < s.evicted
    ensures TargetNow(l, s, exhausted).ToSpot?
  {
    forall p | p in s.pods
      ensures PlaceOf(l.nodes, p) !in {OnUnknownNode}
    {
    }
    NoneAmong(s.pods, l.nodes, {OnUnknownNode});
    CountsAdd(s.pods, l.nodes, EFFECTIVE_SPOT, {OnUnknownNode});
    CountsAreConsistent(s.pods, l.nodes);
    ReplacementFits(l.spot, l.total, l.ratio, s.evicted, s.admitted, Effective(l, s.pods));
    DecisionIsRatioRule(l.wc, l.policy, WebhookCounts(s.pods, l.nodes), exhausted, l.ratio);
  }

  lemma StepBalances(l: Loop, s: State, e: Event, s': State)
    requires Placeable(l) && Balanced(l, s) && Step(l, s, e, s')
    ensures Balanced(l, s')
    ensures Effective(l, s.pods) == l.spot + s.admitted && !FallsBack(l, s, e) ==>
      Effective(l, s'.pods) == l.spot + s'.admitted
  {
    match e {
      case Evict(i) =>
        EvictKeepsSpot(l, s.pods, i);
      case Admit(pod, exhausted) =>
        AdmitAddsTargeted(l, s.pods, pod);
        ReplacementGoesToSpot(l, s, exhausted);
      case Bind(i, node) =>
        BindNeverAdds(l, s.pods, i, node);
    }
  }

  lemma {:induction false} RunBalances(l: Loop, states: seq<State>, events: seq<Event>, k: nat)
    requires Placeable(l) && Run(l, states, events) && k < |states|
    ensures Balanced(l, states[k])
    ensures SpotHolds(l, states, events) ==> Effective(l, states[k].pods) == l.spot + states[k].admitted
  {
    if k > 0 {
      RunBalances(l, states, events, k - 1);
      assert Step(l, states[k - 1], events[k - 1], states[k - 1 + 1]);
      StepBalances(l, states[k - 1], events[k - 1], states[k]);
    }
  }

  /** In every interleaving each replacement is directed to Spot, even if other Pods fall back meanwhile. */
  lemma EveryReplacementGoesToSpot(l: Loop, states: seq<State>, events: seq<Event>, k: nat)
    requires Placeable(l) && Run(l, states, events) && k < |events| && events[k].Admit?
    ensures Targeted(events[k].pod)
  {
    RunBalances(l, states, events, k);
    assert Step(l, states[k], events[k], states[k + 1]);
    ReplacementGoesToSpot(l, states[k], events[k].exhausted);
  }

  // ----- Where the fallback Pods go -----

  function FallbackPods(l: Loop, pods: seq<Pod>): multiset<Pod> {
    multiset(Among(pods, l.nodes, {FellBack}))
  }

  function EvictedByEvent(s: State, e: Event): multiset<Pod> {
    if e.Evict? && e.i < |s.pods| then multiset{s.pods[e.i]} else multiset{}
  }

  /** The Pods the run evicts with its first `k` events. */
  function EvictedPods(states: seq<State>, events: seq<Event>, k: nat): multiset<Pod>
    requires |states| == |events| + 1 && k <= |events|
  {
    if k == 0 then multiset{}
    else EvictedPods(states, events, k - 1) + EvictedByEvent(states[k - 1], events[k - 1])
  }

  lemma FallbackSplit(l: Loop, pods: seq<Pod>, i: nat)
    requires i < |pods|
    ensures FallbackPods(l, pods) == FallbackPods(l, pods[..i] + pods[i + 1..]) + FallbackPods(l, [pods[i]])
    ensures FallbackPods(l, [pods[i]]) == if PlaceOf(l.nodes, pods[i]) == FellBack then multiset{pods[i]} else multiset{}
  {
    assert pods == pods[..i] + [pods[i]] + pods[i + 1..];
    AmongConcat(pods[..i], [pods[i]], l.nodes, {FellBack});
    AmongConcat(pods[..i] + [pods[i]], pods[i + 1..], l.nodes, {FellBack});
    AmongConcat(pods[..i], pods[i + 1..], l.nodes, {FellBack});
    assert [pods[i]][..0] == [] && Among([], l.nodes, {FellBack}) == [];
    assert Among([pods[i]], l.nodes, {FellBack}) == if PlaceOf(l.nodes, pods[i]) == FellBack then [pods[i]] else [];
  }

  lemma AdmitKeepsFallback(l: Loop, pods: seq<Pod>, pod: Pod)
    requires pod.nodeName == ""
    ensures FallbackPods(l, pods + [pod]) == FallbackPods(l, pods)
  {
    FallbackSplit(l, pods + [pod], |pods|);
    assert (pods + [pod])[..|pods|] + (pods + [pod])[|pods| + 1..] == pods;
  }

  lemma BindKeepsFallback(l: Loop, pods: seq<Pod>, i: nat, bound: Pod)
    requires i < |pods| && PlaceOf(l.nodes, pods[i]) != FellBack && PlaceOf(l.nodes, bound) != FellBack
    ensures FallbackPods(l, pods[i := bound]) == FallbackPods(l, pods)
  {
    FallbackSplit(l, pods, i);
    FallbackSplit(l, pods[i := bound], i);
    assert pods[i := bound][..i] == pods[..i] && pods[i := bound][i + 1..] == pods[i + 1..];
  }

  /** A step moves a Pod off fallback only by evicting it, and onto it only by `FallsBack`. */
  lemma StepKeepsFallback(l: Loop, s: State, e: Event, s': State)
    requires Placeable(l) && Step(l, s, e, s') && !FallsBack(l, s, e)
    ensures FallbackPods(l, s.pods) == FallbackPods(l, s'.pods) + EvictedByEvent(s, e)
    ensures s'.evicted == s.evicted + |EvictedByEvent(s, e)|
  {
    match e {
      case Evict(i) =>
        FallbackSplit(l, s.pods, i);
      case Admit(pod, exhausted) =>
        AdmitKeepsFallback(l, s.pods, pod);
      case Bind(i, node) =>
        BindKeepsFallback(l, s.pods, i, s.pods[i].(nodeName := node));
    }
  }

  /** Through the whole run, the fallback Pods of the start are those still there and those evicted. */
  lemma {:induction false} FallbackIsConserved(l: Loop, states: seq<State>, events: seq<Event>, k: nat)
    requires Placeable(l) && Run(l, states, events) && SpotHolds(l, states, events) && k < |states|
    ensures FallbackPods(l, states[0].pods) == FallbackPods(l, states[k].pods) + EvictedPods(states, events, k)
    ensures |EvictedPods(states, events, k)| == states[k].evicted
  {
    if k > 0 {
      var j := k - 1;
      FallbackIsConserved(l, states, events, j);
      assert Step(l, states[j], events[j], states[j + 1]) && !FallsBack(l, states[j], events[j]);
      StepKeepsFallback(l, states[j], events[j], states[j + 1]);
      AddUp(FallbackPods(l, states[0].pods), FallbackPods(l, states[j].pods), FallbackPods(l, states[k].pods),
            EvictedPods(states, events, j), EvictedByEvent(states[j], events[j]));
    }
  }

  lemma AddUp(start: multiset<Pod>, before: multiset<Pod>, after: multiset<Pod>, gone: multiset<Pod>, now: multiset<Pod>)
    requires start == before + gone && before == after + now
    ensures start == after + (gone + now) && |gone + now| == |gone| + |now|
  {
  }

  /** The Pods a pass evicted. */
  function EvictedBy(visits: seq<Visit>): multiset<Pod> {
    if visits == [] then multiset{}
    else
      var last := visits[|visits| - 1];
      EvictedBy(visits[..|visits| - 1]) + if last.kind.Evicted? then multiset{last.pod} else multiset{}
  }

  /** The visited Pods that were not evicted. */
  function LeftBy(visits: seq<Visit>): multiset<Pod> {
    if visits == [] then multiset{}
    else
      var last := visits[|visits| - 1];
      LeftBy(visits[..|visits| - 1]) + if last.kind.Evicted? then multiset{} else multiset{last.pod}
  }

  /** Each visited Pod was evicted or left. */
  lemma {:induction false} VisitsSplit(visits: seq<Visit>, pods: seq<Pod>)
    requires |pods| == |visits| && forall i | 0 <= i < |visits| :: visits[i].pod == pods[i]
    ensures multiset(pods) == EvictedBy(visits) + LeftBy(visits)
  {
    if visits != [] {
      var n := |visits| - 1;
      VisitsSplit(visits[..n], pods[..n]);
      assert pods == pods[..n] + [pods[n]];
    }
  }

  lemma VisitsArePrefix(visits: seq<Visit>, s: Scene, spot: nat, fallback: seq<Pod>)
    requires Follows(visits, s, spot, fallback)
    ensures |visits| <= |fallback| && forall i | 0 <= i < |visits| :: visits[i].pod == fallback[..|visits|][i]
  {
    forall i | 0 <= i < |visits| {
      FollowsAt(visits, s, spot, fallback, i);
    }
  }

  lemma {:induction false} EvictionsCount(visits: seq<Visit>)
    ensures |EvictedBy(visits)| == EvictedIn(visits)
  {
    if visits != [] {
      EvictionsCount(visits[..|visits| - 1]);
    }
  }

  lemma {:induction false} LeftWereVisited(visits: seq<Visit>, p: Pod)
    requires p in LeftBy(visits)
    ensures exists v | v in visits && !v.kind.Evicted? :: v.pod == p
  {
    var n := |visits| - 1;
    if p in LeftBy(visits[..n]) {
      LeftWereVisited(visits[..n], p);
      var v :| v in visits[..n] && !v.kind.Evicted? && v.pod == p;
      assert v in visits;
    } else {
      assert visits[n] in visits;
    }
  }

  // ----- The loop closes -----

  /**
   * A pass over the classified fallback Pods and the run it drives: the run evicts the Pods that the pass evicts,
   * every evicted Pod is replaced, and no Spot Pod falls back meanwhile.
   */
  predicate PassDrives(
    l: Loop, states: seq<State>, events: seq<Event>, w: WorkloadPods, visits: seq<Visit>, scene: Scene)
  {
    && Placeable(l) && Run(l, states, events) && SpotHolds(l, states, events)
    && Classifies(w, states[0].pods, l.nodes)
    && Follows(visits, scene, w.EffectiveSpot(), w.fallback)
    && scene.rule.active && scene.rule.total == w.active && scene.rule.ratio == l.ratio
    && EvictedPods(states, events, |events|) == EvictedBy(visits)
    && states[|events|].admitted == states[|events|].evicted
  }

  /** The controller starts the pass from the counts of the run, and from exactly its fallback Pods. */
  lemma ClassifiedStart(l: Loop, s: State, w: WorkloadPods)
    requires Start(l, s) && Classifies(w, s.pods, l.nodes)
    ensures w.active == l.total && w.EffectiveSpot() == l.spot && multiset(w.fallback) == FallbackPods(l, s.pods)
  {
    CountsAdd(s.pods, l.nodes, {PendingSpot}, {OnSpot});
    assert {PendingSpot} + {OnSpot} == EFFECTIVE_SPOT;
    SameWithout(s.pods, l.nodes);
  }

  lemma {:induction false} SameWithout(pods: seq<Pod>, nodes: map<string, LabelMap>)
    requires forall p | p in pods && p.nodeName != "" :: p.nodeName in nodes
    ensures Among(pods, nodes, {FellBack, OnUnknownNode}) == Among(pods, nodes, {FellBack})
  {
    if pods != [] {
      var n := |pods| - 1;
      assert pods[n] in pods;
      SameWithout(pods[..n], nodes);
    }
  }

  /** A Pod that is on fallback at the end was left by the pass, or the pass never got to it. */
  lemma FallbackIsLeftOrUnvisited(
    l: Loop, states: seq<State>, events: seq<Event>, w: WorkloadPods, visits: seq<Visit>, scene: Scene, p: Pod)
    requires PassDrives(l, states, events, w, visits, scene)
    requires p in states[|events|].pods && PlaceOf(l.nodes, p) == FellBack
    ensures |visits| <= |w.fallback|
    ensures p in w.fallback[|visits|..] || exists v | v in visits && !v.kind.Evicted? :: v.pod == p
  {
    var spot := w.EffectiveSpot();
    ClassifiedStart(l, states[0], w);
    FallbackIsConserved(l, states, events, |events|);
    VisitsArePrefix(visits, scene, spot, w.fallback);
    VisitsSplit(visits, w.fallback[..|visits|]);
    AmongAre(states[|events|].pods, l.nodes, {FellBack});
    RestSplit(w.fallback, |visits|, EvictedBy(visits), LeftBy(visits), FallbackPods(l, states[|events|].pods), p);
    if p !in w.fallback[|visits|..] {
      LeftWereVisited(visits, p);
    }
  }

  lemma RestSplit(
    all: seq<Pod>, n: nat, evicted: multiset<Pod>, left: multiset<Pod>, remaining: multiset<Pod>, p: Pod)
    requires n <= |all| && multiset(all[..n]) == evicted + left && multiset(all) == remaining + evicted
    requires p in remaining
    ensures p in all[n..] || p in left
  {
    assert all == all[..n] + all[n..];
    RestOf(multiset(all[..n]), multiset(all[n..]), evicted, left, remaining, p);
  }

  lemma RestOf(
    head: multiset<Pod>, tail: multiset<Pod>, evicted: multiset<Pod>, left: multiset<Pod>, remaining: multiset<Pod>, p: Pod)
    requires head == evicted + left && head + tail == remaining + evicted
    ensures remaining[p] == left[p] + tail[p]
  {
    assert (head + tail)[p] == (remaining + evicted)[p];
    assert (evicted + left)[p] == evicted[p] + left[p];
  }

  lemma EndOfRun(
    l: Loop, states: seq<State>, events: seq<Event>, w: WorkloadPods, visits: seq<Visit>, scene: Scene)
    requires PassDrives(l, states, events, w, visits, scene)
    ensures var pods := states[|events|].pods;
      |pods| == l.total == w.active && Effective(l, pods) == w.EffectiveSpot() + EvictedIn(visits)
  {
    ClassifiedStart(l, states[0], w);
    RunBalances(l, states, events, |events|);
    FallbackIsConserved(l, states, events, |events|);
    EvictionsCount(visits);
  }

  lemma ShareOrVisitsLeft(
    l: Loop, states: seq<State>, events: seq<Event>, w: WorkloadPods, visits: seq<Visit>, scene: Scene)
    requires PassDrives(l, states, events, w, visits, scene)
    ensures var pods := states[|events|].pods;
      && |pods| == l.total
      && (SpotShareMet(Effective(l, pods), |pods|, l.ratio)
          || forall v | v in visits && !v.kind.Evicted? :: LeftFor(scene, v.pod))
  {
    EndOfRun(l, states, events, w, visits, scene);
    PassMeetsShareOrRunsOut(visits, scene, w.EffectiveSpot(), w.fallback);
  }

  /**
   * After a pass over all fallback Pods, once every evicted one is replaced, the workload has its size again and the
   * share is met, or each Pod that is still on fallback has no owner, is too young, or may not be evicted.
   */
  lemma LoopCloses(
    l: Loop, states: seq<State>, events: seq<Event>, w: WorkloadPods, visits: seq<Visit>, scene: Scene)
    requires PassDrives(l, states, events, w, visits, scene) && |visits| == |w.fallback|
    ensures var pods := states[|events|].pods;
      && |pods| == l.total
      && (SpotShareMet(Effective(l, pods), |pods|, l.ratio)
          || forall p | p in pods && PlaceOf(l.nodes, p) == FellBack :: LeftFor(scene, p))
  {
    ShareOrVisitsLeft(l, states, events, w, visits, scene);
    var pods := states[|events|].pods;
    forall p | p in pods && PlaceOf(l.nodes, p) == FellBack
      ensures exists v | v in visits && !v.kind.Evicted? :: v.pod == p
    {
      FallbackIsLeftOrUnvisited(l, states, events, w, visits, scene, p);
    }
  }

  /**
   * A pass that is cut short leaves an eligible Pod on fallback only because the disruption window is closed: then
   * the last visit was refused for it, and every other such Pod comes later in the list.
   */
  lemma LoopWaitsForWindow(
    l: Loop, states: seq<State>, events: seq<Event>, w: WorkloadPods, visits: seq<Visit>, scene: Scene)
    requires PassDrives(l, states, events, w, visits, scene)
    requires visits != [] && visits[|visits| - 1].kind.Blocked?
    ensures scene.closed && scene.api(visits[|visits| - 1].pod).Rejected? && |visits| <= |w.fallback|
    ensures var pods := states[|events|].pods;
      && |pods| == l.total
      && (SpotShareMet(Effective(l, pods), |pods|, l.ratio)
          || forall p | p in pods && PlaceOf(l.nodes, p) == FellBack :: LeftFor(scene, p) || p in w.fallback[|visits|..])
  {
    FollowsAt(visits, scene, w.EffectiveSpot(), w.fallback, |visits| - 1);
    ShareOrVisitsLeft(l, states, events, w, visits, scene);
    var pods := states[|events|].pods;
    forall p | p in pods && PlaceOf(l.nodes, p) == FellBack
      ensures p in w.fallback[|visits|..] || exists v | v in visits && !v.kind.Evicted? :: v.pod == p
    {
      FallbackIsLeftOrUnvisited(l, states, events, w, visits, scene, p);
    }
  }
}
