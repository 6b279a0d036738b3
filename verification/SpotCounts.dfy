/**
 * How the Pod webhook (countWorkloadClassPods in internal/webhook/v1/pod_placement.go) and the controller
 * (classifyWorkloadPods in internal/controller/spot_fallback.go) count the Pods of a class.
 */
module SpotCounts {
  import opened Wrappers
  import opened Labels
  import opened Types
  import opened Governance
  import opened PdbSpec
  import opened MaintenanceReadiness
  import opened Placement

  // ----- Where a Pod counts -----

  datatype Place = PendingSpot | OnSpot | FellBack | OnUnknownNode | Elsewhere

  predicate Targeted(pod: Pod) {
    TargetedForSpot(pod.nodeSelector, pod.tolerations)
  }

  function PlaceOf(nodes: map<string, LabelMap>, pod: Pod): Place {
    if pod.nodeName == "" then (if Targeted(pod) then PendingSpot else Elsewhere)
    else if pod.nodeName in nodes && IsSpotNode(nodes[pod.nodeName]) then OnSpot
    else if !Targeted(pod) then Elsewhere
    else if pod.nodeName in nodes then FellBack
    else OnUnknownNode
  }

  /** The Pods at one of the places, in order. */
  function Among(pods: seq<Pod>, nodes: map<string, LabelMap>, places: set<Place>): seq<Pod> {
    if pods == [] then []
    else
      var last := pods[|pods| - 1];
      Among(pods[..|pods| - 1], nodes, places) + (if PlaceOf(nodes, last) in places then [last] else [])
  }

  function CountAt(pods: seq<Pod>, nodes: map<string, LabelMap>, places: set<Place>): nat {
    |Among(pods, nodes, places)|
  }

  lemma {:induction false} AmongAre(pods: seq<Pod>, nodes: map<string, LabelMap>, places: set<Place>)
    ensures forall p :: p in Among(pods, nodes, places) <==> p in pods && PlaceOf(nodes, p) in places
    ensures |Among(pods, nodes, places)| <= |pods|
  {
    if pods != [] {
      var n := |pods| - 1;
      AmongAre(pods[..n], nodes, places);
      assert pods == pods[..n] + [pods[n]];
    }
  }

  lemma {:induction false} NoneAmong(pods: seq<Pod>, nodes: map<string, LabelMap>, places: set<Place>)
    requires forall p | p in pods :: PlaceOf(nodes, p) !in places
    ensures Among(pods, nodes, places) == []
  {
    if pods != [] {
      NoneAmong(pods[..|pods| - 1], nodes, places);
    }
  }

  lemma {:induction false} AmongConcat(a: seq<Pod>, b: seq<Pod>, nodes: map<string, LabelMap>, places: set<Place>)
    ensures Among(a + b, nodes, places) == Among(a, nodes, places) + Among(b, nodes, places)
  {
    if b == [] {
      assert a + b == a;
    } else {
      var n := |b| - 1;
      AmongConcat(a, b[..n], nodes, places);
      assert (a + b)[..|a + b| - 1] == a + b[..n];
    }
  }

  /** Disjoint sets of places add up. */
  lemma {:induction false} CountsAdd(pods: seq<Pod>, nodes: map<string, LabelMap>, a: set<Place>, b: set<Place>)
    requires a !! b
    ensures CountAt(pods, nodes, a + b) == CountAt(pods, nodes, a) + CountAt(pods, nodes, b)
  {
    if pods != [] {
      CountsAdd(pods[..|pods| - 1], nodes, a, b);
    }
  }

  lemma {:induction false} SamePlaces(
    pods: seq<Pod>, nodes: map<string, LabelMap>, seen: map<string, LabelMap>, places: set<Place>)
    requires forall p | p in pods && p.nodeName != "" :: Lookup(nodes, p.nodeName) == Lookup(seen, p.nodeName)
    ensures Among(pods, nodes, places) == Among(pods, seen, places)
  {
    if pods != [] {
      SamePlaces(pods[..|pods| - 1], nodes, seen, places);
    }
  }

  // ----- Which Pods count -----

  /** An active Pod of the class. With a single class in the namespace the best match is not looked up. */
  predicate Counted(c: Cluster, wc: WorkloadClass, pod: Pod) {
    && IsPodActive(pod)
    && (|c.classes| > 1 ==> Best(c, pod).Some? && Best(c, pod).value.name == wc.name)
  }

  function CountedPods(c: Cluster, wc: WorkloadClass, listed: seq<Pod>): seq<Pod> {
    if listed == [] then []
    else
      var last := listed[|listed| - 1];
      CountedPods(c, wc, listed[..|listed| - 1]) + (if Counted(c, wc, last) then [last] else [])
  }

  function Without(pods: seq<Pod>, name: string): seq<Pod> {
    if pods == [] then []
    else
      var last := pods[|pods| - 1];
      Without(pods[..|pods| - 1], name) + (if name != "" && last.name == name then [] else [last])
  }

  /** The Pods a list call with the class's selector returns, in the order it returns them. */
  predicate Lists(c: Cluster, wc: WorkloadClass, listed: seq<Pod>) {
    && PodSelectorOf(c, wc).Ok?
    && (forall p | p in listed :: p.name in c.pods && c.pods[p.name] == p && Matches(PodSelectorOf(c, wc).value, p.labels))
    && (forall p | p in c.pods && Matches(PodSelectorOf(c, wc).value, c.pods[p].labels) :: c.pods[p] in listed)
  }

  lemma {:induction false} CountedPodsCount(c: Cluster, wc: WorkloadClass, listed: seq<Pod>)
    ensures forall p :: p in CountedPods(c, wc, listed) <==> p in listed && Counted(c, wc, p)
  {
    if listed != [] {
      var n := |listed| - 1;
      CountedPodsCount(c, wc, listed[..n]);
      assert listed == listed[..n] + [listed[n]];
    }
  }

  /** The class has a selector or is the enforced one, whenever it is alone in the namespace. */
  predicate Selective(c: Cluster, wc: WorkloadClass) {
    |c.classes| == 1 ==> !wc.deleting && (wc.podSelector.Some? || c.enforcedLabel == Some(wc.name))
  }

  /** Then the counted Pods are exactly the active Pods the class is the best match of. */
  lemma CountedAreGoverned(c: Cluster, wc: WorkloadClass, listed: seq<Pod>)
    requires WellFormed(c) && wc in c.classes && Selective(c, wc) && Lists(c, wc, listed)
    requires wc.name != ""
    ensures forall p :: p in c.pods ==>
      (c.pods[p] in CountedPods(c, wc, listed) <==>
        IsPodActive(c.pods[p]) && Best(c, c.pods[p]).Some? && Best(c, c.pods[p]).value.name == wc.name)
  {
    CountedPodsCount(c, wc, listed);
    forall p | p in c.pods
      ensures c.pods[p] in CountedPods(c, wc, listed) <==>
        IsPodActive(c.pods[p]) && Best(c, c.pods[p]).Some? && Best(c, c.pods[p]).value.name == wc.name
    {
      var pod := c.pods[p];
      if Best(c, pod).Some? && Best(c, pod).value.name == wc.name {
        SelectorListsBestMatches(c, wc, pod);
      } else if |c.classes| == 1 && pod in listed {
        LoneClassMatches(c, wc, pod);
      }
    }
  }

  lemma LoneClassMatches(c: Cluster, wc: WorkloadClass, pod: Pod)
    requires |c.classes| == 1 && wc in c.classes && wc.name != "" && Selective(c, wc)
    requires PodSelectorOf(c, wc).Ok? && Matches(PodSelectorOf(c, wc).value, pod.labels)
    ensures Best(c, pod) == Some(wc)
  {
    assert c.classes == [wc] && c.classes[..0] == [];
    if c.enforcedLabel == Some(wc.name) {
      assert Find(c.classes, wc.name) == Some(wc);
    } else {
      assert c.classes[1..] == [];
      assert c.enforcedLabel.Some? ==> Find(c.classes, c.enforcedLabel.value).None?;
      assert Candidate(wc, pod.labels);
      assert SelectBest(pod.labels, c.classes[..0]) == None;
      assert SelectBest(pod.labels, c.classes) == Some(wc);
    }
  }

  /** Without a name of its own an incoming Pod is none of the listed ones; the others of its class are counted. */
  lemma {:induction false} OthersAreCounted(c: Cluster, wc: WorkloadClass, listed: seq<Pod>, incoming: string)
    ensures forall p :: p in CountedPods(c, wc, Without(listed, incoming)) <==>
      && p in listed && Counted(c, wc, p) && (incoming == "" || p.name != incoming)
    ensures |CountedPods(c, wc, Without(listed, incoming))| <= |listed|
  {
    if listed != [] {
      var n := |listed| - 1;
      var others := Without(listed[..n], incoming);
      OthersAreCounted(c, wc, listed[..n], incoming);
      assert listed == listed[..n] + [listed[n]];
      assert (others + [listed[n]])[..|others|] == others && others + [] == others;
    }
  }

  /**
   * What counts as Spot, for the webhook: being on a Spot node or, for a Pod that wants Spot, on no node yet or on one
   * that is not known. What counts as fallback: wanting Spot and being on a node known to be none; and for the
   * controller, which knows the Spot nodes only, on any other.
   */
  lemma PlacesMean(nodes: map<string, LabelMap>, pod: Pod)
    ensures var spotNode := pod.nodeName in nodes && IsSpotNode(nodes[pod.nodeName]);
      && (PlaceOf(nodes, pod) in EFFECTIVE_SPOT + {OnUnknownNode} <==>
            || (pod.nodeName != "" && spotNode)
            || (Targeted(pod) && (pod.nodeName == "" || pod.nodeName !in nodes)))
      && (PlaceOf(nodes, pod) == FellBack <==> Targeted(pod) && pod.nodeName != "" && pod.nodeName in nodes && !spotNode)
      && (PlaceOf(nodes, pod) in {FellBack, OnUnknownNode} <==>
            Targeted(pod) && pod.nodeName != "" && pod.nodeName !in SpotNodeNames(nodes))
      && (PlaceOf(nodes, pod) == OnSpot <==> pod.nodeName != "" && pod.nodeName in SpotNodeNames(nodes))
  {
  }

  // ----- The webhook's counts -----

  datatype PodCounts = PodCounts(total: nat, effectiveSpot: nat, fallback: nat)

  const EFFECTIVE_SPOT: set<Place> := {PendingSpot, OnSpot}

  function WebhookCounts(pods: seq<Pod>, nodes: map<string, LabelMap>): PodCounts {
    PodCounts(|pods|, CountAt(pods, nodes, EFFECTIVE_SPOT + {OnUnknownNode}), CountAt(pods, nodes, {FellBack}))
  }

  function AddPlace(counts: PodCounts, place: Place): PodCounts {
    PodCounts(counts.total + 1, counts.effectiveSpot + (if place in EFFECTIVE_SPOT + {OnUnknownNode} then 1 else 0),
              counts.fallback + (if place == FellBack then 1 else 0))
  }

  lemma OneMoreCounted(pods: seq<Pod>, i: nat, nodes: map<string, LabelMap>)
    requires i < |pods|
    ensures WebhookCounts(pods[..i + 1], nodes) == AddPlace(WebhookCounts(pods[..i], nodes), PlaceOf(nodes, pods[i]))
  {
    assert pods[..i + 1][..i] == pods[..i];
  }

  method ListWorkloadClassPods(c: Cluster, wc: WorkloadClass, listed: seq<Pod>, incoming: string)
    returns (pods: seq<Pod>)
    ensures pods == CountedPods(c, wc, Without(listed, incoming))
  {
    pods := [];
    for i := 0 to |listed|
      invariant pods == CountedPods(c, wc, Without(listed[..i], incoming))
    {
      assert listed[..i + 1][..i] == listed[..i];
      var existing := listed[i];
      ghost var before := Without(listed[..i], incoming);
      assert (before + [existing])[..|before|] == before;
      assert Without(listed[..i + 1], incoming) ==
        before + if incoming != "" && existing.name == incoming then [] else [existing];
      assert CountedPods(c, wc, before + [existing]) ==
        CountedPods(c, wc, before) + if Counted(c, wc, existing) then [existing] else [];
      assert before + [] == before && pods + [] == pods;
      if !IsPodActive(existing) {
        continue;
      }
      if incoming != "" && existing.name == incoming {
        continue;
      }
      if |c.classes| > 1 {
        var best := Best(c, existing);
        if best.None? || best.value.name != wc.name {
          continue;
        }
      }
      pods := pods + [existing];
    }
    assert listed[..|listed|] == listed;
  }

  /** `nodes` are the nodes that can be fetched; each distinct one is fetched at most once. */
  method CountWorkloadClassPods(
    c: Cluster, wc: WorkloadClass, listed: seq<Pod>, incoming: string, nodes: map<string, LabelMap>)
    returns (counts: PodCounts, ghost fetched: seq<string>)
    ensures counts == WebhookCounts(CountedPods(c, wc, Without(listed, incoming)), nodes)
    ensures forall i, j | 0 <= i < j < |fetched| :: fetched[i] != fetched[j]
  {
    var pods := ListWorkloadClassPods(c, wc, listed, incoming);
    var cache: map<string, Option<LabelMap>> := map[];
    fetched := [];
    counts := PodCounts(0, 0, 0);
    for i := 0 to |pods|
      invariant forall n | n in cache :: cache[n] == Lookup(nodes, n)
      invariant forall n | n in fetched :: n in cache
      invariant forall j, k | 0 <= j < k < |fetched| :: fetched[j] != fetched[k]
      invariant counts == WebhookCounts(pods[..i], nodes)
    {
      OneMoreCounted(pods, i, nodes);
      var existing := pods[i];
      var targeted := Targeted(existing);
      counts := counts.(total := counts.total + 1);
      if existing.nodeName == "" {
        if targeted {
          counts := counts.(effectiveSpot := counts.effectiveSpot + 1);
        }
        continue;
      }
      if existing.nodeName !in cache {
        fetched := fetched + [existing.nodeName];
        cache := cache[existing.nodeName := Lookup(nodes, existing.nodeName)];
      }
      var node := cache[existing.nodeName];
      if node.Some? && IsSpotNode(node.value) {
        counts := counts.(effectiveSpot := counts.effectiveSpot + 1);
      } else if node.Some? {
        if targeted {
          counts := counts.(fallback := counts.fallback + 1);
        }
      } else if targeted {
        counts := counts.(effectiveSpot := counts.effectiveSpot + 1);
      }
    }
    assert pods[..|pods|] == pods;
  }

  // ----- The controller's classification -----

  datatype WorkloadPods = WorkloadPods(active: nat, spot: nat, pendingSpot: nat, fallback: seq<Pod>) {
    function EffectiveSpot(): nat { spot + pendingSpot }
  }

  /** When the Pod started on its node: its start time, else when it was scheduled, else its creation. */
  function FallbackStart(pod: Pod): int {
    if pod.startTime.Some? then pod.startTime.value
    else if pod.scheduledTime.Some? then pod.scheduledTime.value
    else pod.created
  }

  predicate NameLeq(a: string, b: string) {
    a == "" || (b != "" && (a[0] < b[0] || (a[0] == b[0] && NameLeq(a[1..], b[1..]))))
  }

  predicate StartsBefore(a: Pod, b: Pod) {
    FallbackStart(a) < FallbackStart(b) || (FallbackStart(a) == FallbackStart(b) && NameLeq(a.name, b.name))
  }

  predicate OldestFirst(pods: seq<Pod>) {
    forall i, j | 0 <= i < j < |pods| :: StartsBefore(pods[i], pods[j])
  }

  /** A node is known to the controller only as one of the names of the Spot nodes. */
  function SpotNodeNames(nodes: map<string, LabelMap>): set<string> {
    set n | n in nodes && IsSpotNode(nodes[n])
  }

  predicate Classifies(w: WorkloadPods, pods: seq<Pod>, nodes: map<string, LabelMap>) {
    && w.active == |pods| && w.spot == CountAt(pods, nodes, {OnSpot}) && w.pendingSpot == CountAt(pods, nodes, {PendingSpot})
    && multiset(w.fallback) == multiset(Among(pods, nodes, {FellBack, OnUnknownNode}))
    && OldestFirst(w.fallback)
  }

  method ClassifyWorkloadPods(c: Cluster, wc: WorkloadClass, listed: seq<Pod>, ghost nodes: map<string, LabelMap>,
                              spotNodes: set<string>)
    returns (w: WorkloadPods)
    requires spotNodes == SpotNodeNames(nodes)
    ensures Classifies(w, CountedPods(c, wc, listed), nodes)
  {
    var active, spot, pendingSpot, fallback := 0, 0, 0, [];
    ghost var pods := [];
    for i := 0 to |listed|
      invariant pods == CountedPods(c, wc, listed[..i]) && active == |pods|
      invariant spot == CountAt(pods, nodes, {OnSpot}) && pendingSpot == CountAt(pods, nodes, {PendingSpot})
      invariant fallback == Among(pods, nodes, {FellBack, OnUnknownNode})
    {
      assert listed[..i + 1][..i] == listed[..i];
      var pod := listed[i];
      if !IsPodActive(pod) {
        continue;
      }
      if |c.classes| > 1 {
        var best := Best(c, pod);
        if best.None? || best.value.name != wc.name {
          continue;
        }
      }
      assert (pods + [pod])[..|pods|] == pods;
      pods := pods + [pod];
      active := active + 1;
      if pod.nodeName == "" {
        if Targeted(pod) {
          pendingSpot := pendingSpot + 1;
        }
      } else if pod.nodeName in spotNodes {
        spot := spot + 1;
      } else if Targeted(pod) {
        fallback := fallback + [pod];
      }
    }
    assert listed[..|listed|] == listed;
    w := WorkloadPods(active, spot, pendingSpot, SortOldestFirst(fallback));
  }

  // ----- Sorting the fallback Pods -----

  lemma {:induction false} NameOrder(a: string, b: string)
    ensures NameLeq(a, b) || NameLeq(b, a)
  {
    if a != "" && b != "" {
      NameOrder(a[1..], b[1..]);
    }
  }

  lemma {:induction false} NameOrderTransitive(a: string, b: string, c: string)
    requires NameLeq(a, b) && NameLeq(b, c)
    ensures NameLeq(a, c)
  {
    if a != "" && a[0] == b[0] && b[0] == c[0] {
      NameOrderTransitive(a[1..], b[1..], c[1..]);
    }
  }

  /** Names are compared letter by letter, and a name comes before its extensions. */
  lemma {:induction false} NameOrderIsLexicographic(a: string, b: string, k: nat)
    requires k <= |a| && k <= |b| && a[..k] == b[..k]
    ensures k == |a| ==> NameLeq(a, b)
    ensures k < |a| && k < |b| && a[k] < b[k] ==> NameLeq(a, b) && !NameLeq(b, a)
  {
    if k > 0 {
      assert a[..k][0] == b[..k][0] && a[1..][..k - 1] == a[..k][1..] && b[1..][..k - 1] == b[..k][1..];
      NameOrderIsLexicographic(a[1..], b[1..], k - 1);
    }
  }

  /** Since when the Pod runs where it is: since its start, else since it was scheduled, else since it exists. */
  function RunsSince(pod: Pod): int {
    match (pod.startTime, pod.scheduledTime)
    case (Some(started), _) => started
    case (None, Some(scheduled)) => scheduled
    case (None, None) => pod.created
  }

  /** In the sorted list the Pods that run longest come first, and those that run equally long are sorted by name. */
  lemma SortedMeans(pods: seq<Pod>, i: nat, j: nat)
    requires OldestFirst(pods) && i < j < |pods|
    ensures RunsSince(pods[i]) <= RunsSince(pods[j])
    ensures forall k | RunsSince(pods[i]) == RunsSince(pods[j]) && k < |pods[i].name| && k < |pods[j].name| ::
      0 <= k && pods[i].name[..k] == pods[j].name[..k] ==> pods[i].name[k] <= pods[j].name[k]
    ensures RunsSince(pods[i]) == RunsSince(pods[j]) && pods[j].name <= pods[i].name ==> pods[i].name == pods[j].name
  {
    var a, b := pods[i].name, pods[j].name;
    assert StartsBefore(pods[i], pods[j]);
    forall k | 0 <= k < |a| && k < |b| && a[..k] == b[..k] && b[k] < a[k] ensures !NameLeq(a, b) {
      NameOrderIsLexicographic(b, a, k);
    }
    if b <= a && NameLeq(a, b) {
      NoLongerName(a, b);
    }
  }

  lemma {:induction false} NoLongerName(a: string, b: string)
    requires NameLeq(a, b) && b <= a
    ensures a == b
  {
    if a != "" && b != "" {
      assert a[0] == b[0] && b[1..] <= a[1..];
      NoLongerName(a[1..], b[1..]);
      assert a == [a[0]] + a[1..] && b == [b[0]] + b[1..];
    }
  }

  lemma StartOrder(a: Pod, b: Pod, c: Pod)
    ensures StartsBefore(a, b) || StartsBefore(b, a)
    ensures StartsBefore(a, b) && StartsBefore(b, c) ==> StartsBefore(a, c)
  {
    NameOrder(a.name, b.name);
    if NameLeq(a.name, b.name) && NameLeq(b.name, c.name) {
      NameOrderTransitive(a.name, b.name, c.name);
    }
  }

  lemma PrependOldest(pod: Pod, pods: seq<Pod>)
    requires OldestFirst(pods) && forall p | p in pods :: StartsBefore(pod, p)
    ensures OldestFirst([pod] + pods) && multiset([pod] + pods) == multiset(pods) + multiset{pod}
  {
  }

  lemma OldestBefore(pod: Pod, pods: seq<Pod>)
    requires pods != [] && OldestFirst(pods) && StartsBefore(pod, pods[0])
    ensures forall p | p in pods :: StartsBefore(pod, p)
  {
    forall i | 0 < i < |pods| ensures StartsBefore(pod, pods[i]) {
      StartOrder(pod, pods[0], pods[i]);
    }
  }

  function InsertOldest(pod: Pod, pods: seq<Pod>): (r: seq<Pod>)
    requires OldestFirst(pods)
    ensures OldestFirst(r) && multiset(r) == multiset(pods) + multiset{pod}
  {
    if pods == [] then [pod]
    else if StartsBefore(pod, pods[0]) then
      OldestBefore(pod, pods);
      PrependOldest(pod, pods);
      [pod] + pods
    else
      var rest := InsertOldest(pod, pods[1..]);
      assert pods == [pods[0]] + pods[1..];
      StartOrder(pods[0], pod, pod);
      HeadComesFirst(pods, pod, rest);
      PrependOldest(pods[0], rest);
      [pods[0]] + rest
  }

  lemma HeadComesFirst(pods: seq<Pod>, pod: Pod, rest: seq<Pod>)
    requires pods != [] && OldestFirst(pods) && StartsBefore(pods[0], pod)
    requires multiset(rest) == multiset(pods[1..]) + multiset{pod}
    ensures forall p | p in rest :: StartsBefore(pods[0], p)
  {
    forall p | p in rest ensures StartsBefore(pods[0], p) {
      assert p in multiset(rest);
      assert p in pods[1..] || p == pod;
    }
  }

  function SortOldestFirst(pods: seq<Pod>): (r: seq<Pod>)
    ensures OldestFirst(r) && multiset(r) == multiset(pods)
  {
    if pods == [] then []
    else
      assert pods == [pods[0]] + pods[1..];
      InsertOldest(pods[0], SortOldestFirst(pods[1..]))
  }

  // ----- The two agree -----

  lemma {:induction false} WithoutAbsent(pods: seq<Pod>, name: string)
    requires forall p | p in pods :: p.name != name
    ensures Without(pods, name) == pods
  {
    if pods != [] {
      WithoutAbsent(pods[..|pods| - 1], name);
      assert pods == pods[..|pods| - 1] + [pods[|pods| - 1]];
    }
  }

  /**
   * On the same Pods the webhook and the controller have the same total; the webhook counts as Spot, and the
   * controller as fallback, exactly the targeted Pods whose node does not exist.
   */
  lemma CountsDifferByUnknownNodes(pods: seq<Pod>, nodes: map<string, LabelMap>, w: WorkloadPods)
    requires Classifies(w, pods, nodes)
    ensures var counts := WebhookCounts(pods, nodes);
      var unknown := CountAt(pods, nodes, {OnUnknownNode});
      && counts.total == w.active
      && counts.effectiveSpot == w.EffectiveSpot() + unknown
      && |w.fallback| == counts.fallback + unknown
  {
    CountsAdd(pods, nodes, {PendingSpot}, {OnSpot});
    CountsAdd(pods, nodes, EFFECTIVE_SPOT, {OnUnknownNode});
    CountsAdd(pods, nodes, {FellBack}, {OnUnknownNode});
    assert {PendingSpot} + {OnSpot} == EFFECTIVE_SPOT;
    assert {FellBack} + {OnUnknownNode} == {FellBack, OnUnknownNode};
    assert |multiset(w.fallback)| == |multiset(Among(pods, nodes, {FellBack, OnUnknownNode}))|;
  }

  /** When every bound Pod's node exists and can be fetched, the two agree on every number. */
  lemma CountsAgree(pods: seq<Pod>, nodes: map<string, LabelMap>, fetchable: map<string, LabelMap>, w: WorkloadPods)
    requires Classifies(w, pods, nodes)
    requires forall p | p in pods && p.nodeName != "" ::
      p.nodeName in nodes && p.nodeName in fetchable && nodes[p.nodeName] == fetchable[p.nodeName]
    ensures WebhookCounts(pods, fetchable) == PodCounts(w.active, w.EffectiveSpot(), |w.fallback|)
  {
    SamePlaces(pods, nodes, fetchable, EFFECTIVE_SPOT + {OnUnknownNode});
    SamePlaces(pods, nodes, fetchable, {FellBack});
    CountsDifferByUnknownNodes(pods, nodes, w);
    NoneAmong(pods, nodes, {OnUnknownNode});
  }
}
