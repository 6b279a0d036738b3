/** How the Pod webhook rewrites a Pod's placement in place (internal/webhook/v1/pod_placement.go). */
module Placement {
  import opened Wrappers
  import opened Labels
  import opened Types

  const SPOT_KEY := "cloud.google.com/gke-spot"
  const SPOT_VALUE := "true"
  const MACHINE_FAMILY_KEY := "cloud.google.com/machine-family"
  const COMPUTE_CLASS_KEY := "cloud.google.com/compute-class"

  // ----- Node affinity, as Kubernetes reads it -----

  datatype NodeOperator = NodeIn | NodeNotIn | NodeExists | NodeDoesNotExist | NodeGt | NodeLt

  datatype NodeRequirement = NodeRequirement(key: string, op: NodeOperator, values: seq<string>)

  datatype Term = Term(matchExpressions: seq<NodeRequirement>, matchFields: seq<NodeRequirement>)

  datatype Node = Node(labels: LabelMap, fields: LabelMap)

  /** How Kubernetes compares the decimal values of `Gt` and `Lt`; false unless both are numbers. */
  type Order = (string, string) -> bool

  predicate Meets(r: NodeRequirement, v: Option<string>, less: Order) {
    match r.op
    case NodeIn => r.values != [] && v.Some? && v.value in r.values
    case NodeNotIn => r.values != [] && (v.None? || v.value !in r.values)
    case NodeExists => r.values == [] && v.Some?
    case NodeDoesNotExist => r.values == [] && v.None?
    case NodeGt => |r.values| == 1 && v.Some? && less(r.values[0], v.value)
    case NodeLt => |r.values| == 1 && v.Some? && less(v.value, r.values[0])
  }

  predicate MeetsAll(requirements: seq<NodeRequirement>, labels: LabelMap, less: Order) {
    forall r | r in requirements :: Meets(r, Lookup(labels, r.key), less)
  }

  predicate Empty(t: Term) {
    t.matchExpressions == [] && t.matchFields == []
  }

  /** An empty term matches no node. */
  predicate TermMatches(t: Term, n: Node, less: Order) {
    !Empty(t) && MeetsAll(t.matchExpressions, n.labels, less) && MeetsAll(t.matchFields, n.fields, less)
  }

  predicate SomeTermMatches(terms: seq<Term>, n: Node, less: Order) {
    exists t | t in terms :: TermMatches(t, n, less)
  }

  /** No required affinity allows every node; one without terms allows none. */
  predicate AffinityAllows(required: Option<seq<Term>>, n: Node, less: Order) {
    required.None? || SomeTermMatches(required.value, n, less)
  }

  predicate SelectorAllows(nodeSelector: LabelMap, n: Node) {
    forall k | k in nodeSelector :: k in n.labels && n.labels[k] == nodeSelector[k]
  }

  /** The node meets the Pod's node selector and required affinity. */
  predicate Qualifies(nodeSelector: LabelMap, required: Option<seq<Term>>, n: Node, less: Order) {
    SelectorAllows(nodeSelector, n) && AffinityAllows(required, n, less)
  }

  // ----- Spot targeting -----

  predicate IsSpotToleration(t: Toleration) {
    t.key == SPOT_KEY && (t.operator == "Equal" || t.operator == "") && t.value == SPOT_VALUE && t.effect == "NoSchedule"
  }

  predicate IsSpotNode(labels: LabelMap) {
    Lookup(labels, SPOT_KEY) == Some(SPOT_VALUE)
  }

  /** The Pod was directed at Spot capacity, by its node selector or by a toleration. */
  predicate TargetedForSpot(nodeSelector: LabelMap, tolerations: seq<Toleration>) {
    Lookup(nodeSelector, SPOT_KEY) == Some(SPOT_VALUE) || exists t | t in tolerations :: IsSpotToleration(t)
  }

  function WithoutSpotTolerations(tolerations: seq<Toleration>): seq<Toleration> {
    if tolerations == [] then []
    else
      var last := tolerations[|tolerations| - 1];
      WithoutSpotTolerations(tolerations[..|tolerations| - 1]) + (if IsSpotToleration(last) then [] else [last])
  }

  lemma OneMoreToleration(tolerations: seq<Toleration>, i: nat)
    requires i < |tolerations|
    ensures WithoutSpotTolerations(tolerations[..i + 1]) ==
      if IsSpotToleration(tolerations[i]) then WithoutSpotTolerations(tolerations[..i])
      else WithoutSpotTolerations(tolerations[..i]) + [tolerations[i]]
  {
    assert tolerations[..i + 1][..i] == tolerations[..i];
  }

  lemma {:induction false} OnlySpotTolerationsGo(tolerations: seq<Toleration>)
    ensures |WithoutSpotTolerations(tolerations)| <= |tolerations|
    ensures forall t :: t in WithoutSpotTolerations(tolerations) <==> t in tolerations && !IsSpotToleration(t)
    ensures multiset(WithoutSpotTolerations(tolerations)) <= multiset(tolerations)
  {
    if tolerations != [] {
      var n := |tolerations| - 1;
      OnlySpotTolerationsGo(tolerations[..n]);
      assert tolerations == tolerations[..n] + [tolerations[n]];
    }
  }

  function SpotToleration(): Toleration {
    Toleration(SPOT_KEY, "Equal", SPOT_VALUE, "NoSchedule")
  }

  function WithSpotToleration(tolerations: seq<Toleration>): seq<Toleration> {
    if exists t | t in tolerations :: IsSpotToleration(t) then tolerations else tolerations + [SpotToleration()]
  }

  lemma SpotMutationTargets(selector: LabelMap, tolerations: seq<Toleration>)
    ensures TargetedForSpot(selector, WithSpotToleration(tolerations))
  {
    var with := tolerations + [SpotToleration()];
    assert with[|with| - 1] in with && IsSpotToleration(with[|with| - 1]);
  }

  /** The other tolerations stay as they are, and none but a missing one is added. */
  lemma SpotTolerationIsAdded(tolerations: seq<Toleration>)
    ensures WithoutSpotTolerations(WithSpotToleration(tolerations)) == WithoutSpotTolerations(tolerations)
    ensures WithSpotToleration(WithSpotToleration(tolerations)) == WithSpotToleration(tolerations)
  {
    var with := tolerations + [SpotToleration()];
    assert with[..|with| - 1] == tolerations && with[|with| - 1] == SpotToleration();
    SpotMutationTargets(map[], tolerations);
  }

  /** Kubernetes' rule: an empty key or effect of a toleration stands for any, and so does the operator Exists. */
  predicate Tolerates(t: Toleration, key: string, value: string, effect: string) {
    && (t.effect == "" || t.effect == effect) && (t.key == "" || t.key == key)
    && (t.operator == "Exists" || ((t.operator == "" || t.operator == "Equal") && t.value == value))
  }

  /** The toleration says more than one value, key or effect. */
  predicate IsWildcard(t: Toleration) {
    t.key == "" || t.effect == "" || t.operator == "Exists"
  }

  /** A Spot toleration is one that tolerates the taint of GKE's Spot nodes, and this taint only. */
  lemma SpotTolerationMeans(t: Toleration)
    ensures IsSpotToleration(t) <==> Tolerates(t, "cloud.google.com/gke-spot", "true", "NoSchedule") && !IsWildcard(t)
  {
  }

  /** Wanting Spot: selecting the label of Spot nodes, or tolerating their taint and no other. */
  lemma TargetedMeans(nodeSelector: LabelMap, tolerations: seq<Toleration>)
    ensures TargetedForSpot(nodeSelector, tolerations) <==>
      || (SPOT_KEY in nodeSelector && nodeSelector[SPOT_KEY] == "true")
      || exists t | t in tolerations :: Tolerates(t, SPOT_KEY, "true", "NoSchedule") && !IsWildcard(t)
  {
    forall t ensures IsSpotToleration(t) <==> Tolerates(t, SPOT_KEY, "true", "NoSchedule") && !IsWildcard(t) {
      SpotTolerationMeans(t);
    }
  }

  /** A Pod mutated for Spot tolerates the taint; mutated for On-Demand it does so only if a wildcard of its own does. */
  lemma MutationTolerates(tolerations: seq<Toleration>)
    ensures exists t | t in WithSpotToleration(tolerations) :: Tolerates(t, SPOT_KEY, SPOT_VALUE, "NoSchedule")
    ensures (exists t | t in WithoutSpotTolerations(tolerations) :: Tolerates(t, SPOT_KEY, SPOT_VALUE, "NoSchedule"))
      <==> exists t | t in tolerations :: Tolerates(t, SPOT_KEY, SPOT_VALUE, "NoSchedule") && IsWildcard(t)
  {
    SpotMutationTargets(map[], tolerations);
    OnlySpotTolerationsGo(tolerations);
    forall t ensures IsSpotToleration(t) <==> Tolerates(t, SPOT_KEY, SPOT_VALUE, "NoSchedule") && !IsWildcard(t) {
      SpotTolerationMeans(t);
    }
  }

  // ----- ANDing terms into the required affinity -----

  function Merge(e: Term, t: Term): Term {
    Term(e.matchExpressions + t.matchExpressions, e.matchFields + t.matchFields)
  }

  function WithEach(e: Term, terms: seq<Term>): seq<Term> {
    if terms == [] then [] else WithEach(e, terms[..|terms| - 1]) + [Merge(e, terms[|terms| - 1])]
  }

  function CrossProduct(existing: seq<Term>, terms: seq<Term>): seq<Term> {
    if existing == [] then []
    else CrossProduct(existing[..|existing| - 1], terms) + WithEach(existing[|existing| - 1], terms)
  }

  function Rewritten(required: Option<seq<Term>>, terms: seq<Term>): Option<seq<Term>> {
    if required.None? || required.value == [] then Some(terms) else Some(CrossProduct(required.value, terms))
  }

  lemma {:induction false} WithEachPairs(e: Term, terms: seq<Term>)
    ensures forall m :: m in WithEach(e, terms) <==> exists t | t in terms :: m == Merge(e, t)
  {
    if terms != [] {
      var n := |terms| - 1;
      WithEachPairs(e, terms[..n]);
      assert terms == terms[..n] + [terms[n]];
    }
  }

  lemma {:induction false} CrossProductPairs(existing: seq<Term>, terms: seq<Term>)
    ensures forall m :: m in CrossProduct(existing, terms) <==>
      exists e, t | e in existing && t in terms :: m == Merge(e, t)
  {
    if existing != [] {
      var n := |existing| - 1;
      CrossProductPairs(existing[..n], terms);
      WithEachPairs(existing[n], terms);
      assert existing == existing[..n] + [existing[n]];
    }
  }

  lemma MergeIsAnd(e: Term, t: Term, n: Node, less: Order)
    requires !Empty(t)
    ensures TermMatches(Merge(e, t), n, less) <==> TermMatches(t, n, less) && (Empty(e) || TermMatches(e, n, less))
  {
    var m := Merge(e, t);
    assert forall r :: r in m.matchExpressions <==> r in e.matchExpressions || r in t.matchExpressions;
    assert forall r :: r in m.matchFields <==> r in e.matchFields || r in t.matchFields;
  }

  /** An affinity without terms, or one with an empty term, matches fewer nodes than the rewrite takes it to. */
  predicate Loosens(required: Option<seq<Term>>) {
    required.Some? && (required.value == [] || exists e | e in required.value :: Empty(e))
  }

  /** The rewrite means AND for every affinity whose terms all match something, and fails only for those that `Loosens` names. */
  lemma RewriteIsAnd(required: Option<seq<Term>>, terms: seq<Term>, n: Node, less: Order)
    requires forall t | t in terms :: !Empty(t)
    ensures AffinityAllows(Rewritten(required, terms), n, less) <==>
      SomeTermMatches(terms, n, less) && (AffinityAllows(required, n, less) || Loosens(required))
  {
    if required.Some? && required.value != [] {
      CrossProductPairs(required.value, terms);
      forall e, t | e in required.value && t in terms
        ensures Merge(e, t) in CrossProduct(required.value, terms)
        ensures TermMatches(Merge(e, t), n, less) <==>
          TermMatches(t, n, less) && (Empty(e) || TermMatches(e, n, less))
      {
        MergeIsAnd(e, t, n, less);
      }
    }
  }

  /** When the rewrite is AND for every node: unless it loosens, or the loosened constraints did not matter. */
  lemma RewriteIsAndUnlessLoosened(required: Option<seq<Term>>, terms: seq<Term>, less: Order)
    requires forall t | t in terms :: !Empty(t)
    ensures (forall n: Node :: AffinityAllows(Rewritten(required, terms), n, less) <==>
              AffinityAllows(required, n, less) && SomeTermMatches(terms, n, less))
      <==> (!Loosens(required)
            || forall n: Node | SomeTermMatches(terms, n, less) :: AffinityAllows(required, n, less))
  {
    forall n: Node {
      RewriteIsAnd(required, terms, n, less);
    }
  }

  // ----- The Pod the webhook mutates -----

  datatype SpotPolicy = SpotPolicy(customComputeClass: string, fallbackFamilies: seq<string>)

  function SpotIn(): NodeRequirement {
    NodeRequirement(SPOT_KEY, NodeIn, [SPOT_VALUE])
  }

  function SpotDoesNotExist(): NodeRequirement {
    NodeRequirement(SPOT_KEY, NodeDoesNotExist, [])
  }

  function OnDemandTerms(): seq<Term> {
    [Term([SpotDoesNotExist()], [])]
  }

  /** Spot nodes of any family, or nodes without the Spot label of an allowed family. */
  function FallbackTerms(families: seq<string>): seq<Term> {
    [Term([SpotIn()], []), Term([SpotDoesNotExist(), NodeRequirement(MACHINE_FAMILY_KEY, NodeIn, families)], [])]
  }

  function SpotSelector(selector: LabelMap, action: FallbackAction, policy: Option<SpotPolicy>): LabelMap {
    var classed :=
      if policy.Some? && policy.value.customComputeClass != "" && COMPUTE_CLASS_KEY !in selector
      then selector[COMPUTE_CLASS_KEY := policy.value.customComputeClass] else selector;
    if action.Fail? then classed[SPOT_KEY := SPOT_VALUE] else classed
  }

  function SpotAffinity(
    required: Option<seq<Term>>, action: FallbackAction, policy: Option<SpotPolicy>): Option<seq<Term>>
  {
    if action.Fail? || policy.None? || policy.value.fallbackFamilies == [] then required
    else Rewritten(required, FallbackTerms(policy.value.fallbackFamilies))
  }

  class PodSpec {
    var nodeSelector: LabelMap
    var tolerations: array<Toleration>
    var tolerationCount: nat
    var required: Option<seq<Term>>
    var preferred: seq<(int, Term)>

    ghost predicate Valid()
      reads this
    {
      tolerationCount <= tolerations.Length
    }

    function Tolerations(): seq<Toleration>
      requires Valid()
      reads this, tolerations
    {
      tolerations[..tolerationCount]
    }

    /** Filters the slice over its own backing array. */
    method RemoveSpotToleration()
      requires Valid()
      modifies this`tolerationCount, tolerations
      ensures Valid() && Tolerations() == WithoutSpotTolerations(old(Tolerations()))
    {
      if tolerationCount == 0 {
        return;
      }
      ghost var before := Tolerations();
      var kept := 0;
      for i := 0 to tolerationCount
        invariant kept <= i && Valid() && tolerationCount == |before|
        invariant tolerations[..kept] == WithoutSpotTolerations(before[..i])
        invariant forall j | i <= j < tolerationCount :: tolerations[j] == before[j]
      {
        OneMoreToleration(before, i);
        ghost var prefix := tolerations[..kept];
        if IsSpotToleration(tolerations[i]) {
          continue;
        }
        tolerations[kept] := tolerations[i];
        kept := kept + 1;
        assert tolerations[..kept] == prefix + [before[i]];
      }
      assert before[..tolerationCount] == before;
      tolerationCount := kept;
    }

    method EnsureSpotToleration()
      requires Valid()
      modifies this`tolerationCount, this`tolerations
      ensures Valid()
      ensures Tolerations() == WithSpotToleration(old(Tolerations()))
    {
      for i := 0 to tolerationCount
        invariant forall t | t in tolerations[..i] :: !IsSpotToleration(t)
      {
        if IsSpotToleration(tolerations[i]) {
          assert tolerations[i] in Tolerations();
          return;
        }
      }
      var spot := SpotToleration();
      var n, all := tolerationCount, tolerations[..tolerationCount];
      var grown := new Toleration[n + 1](i requires 0 <= i <= n => if i < n then all[i] else spot);
      tolerations, tolerationCount := grown, n + 1;
      assert grown[..n + 1] == all + [spot];
    }

    method RequireNodeSelectorTerms(terms: seq<Term>)
      modifies this`required
      ensures required == Rewritten(old(required), terms)
    {
      if required.None? || required.value == [] {
        required := Some(terms);
        return;
      }
      var existing := required.value;
      var combined: seq<Term> := [];
      for i := 0 to |existing|
        invariant combined == CrossProduct(existing[..i], terms) && existing == old(required).value
      {
        ghost var before := combined;
        for j := 0 to |terms|
          invariant combined == before + WithEach(existing[i], terms[..j])
        {
          assert terms[..j + 1][..j] == terms[..j];
          combined := combined + [Merge(existing[i], terms[j])];
        }
        assert terms[..|terms|] == terms && existing[..i + 1][..i] == existing[..i];
      }
      assert existing[..|existing|] == existing;
      required := Some(combined);
    }

    method MutateForOnDemand()
      requires Valid()
      modifies this`nodeSelector, this`tolerationCount, this`required, tolerations
      ensures Valid() && Tolerations() == WithoutSpotTolerations(old(Tolerations()))
      ensures nodeSelector == old(nodeSelector) - {SPOT_KEY}
      ensures required == Rewritten(old(required), OnDemandTerms())
      ensures !TargetedForSpot(nodeSelector, Tolerations())
    {
      nodeSelector := nodeSelector - {SPOT_KEY};
      RemoveSpotToleration();
      OnlySpotTolerationsGo(old(Tolerations()));
      RequireNodeSelectorTerms([Term([NodeRequirement(SPOT_KEY, NodeDoesNotExist, [])], [])]);
    }

    method MutateForSpot(action: FallbackAction, policy: Option<SpotPolicy>)
      requires Valid()
      modifies this
      ensures Valid() && Tolerations() == WithSpotToleration(old(Tolerations()))
      ensures nodeSelector == SpotSelector(old(nodeSelector), action, policy)
      ensures required == SpotAffinity(old(required), action, policy)
      ensures preferred == old(preferred) + if action.Fail? then [] else [(100, Term([SpotIn()], []))]
    {
      var ccc, families := "", [];
      if policy.Some? {
        ccc, families := policy.value.customComputeClass, policy.value.fallbackFamilies;
      }
      EnsureSpotToleration();
      if ccc != "" {
        if COMPUTE_CLASS_KEY !in nodeSelector {
          nodeSelector := nodeSelector[COMPUTE_CLASS_KEY := ccc];
        }
      }
      if action.Fail? {
        nodeSelector := nodeSelector[SPOT_KEY := SPOT_VALUE];
        return;
      }
      preferred := preferred + [(100, Term([SpotIn()], []))];
      if families != [] {
        RequireNodeSelectorTerms(FallbackTerms(families));
      }
    }
  }

  /** Loosening happens: an affinity whose only term is empty allows no node, and its rewrite allows this one. */
  lemma EmptyTermIsLoosened(less: Order)
    ensures var required, n := Some([Term([], [])]), Node(map[], map[]);
      && Loosens(required) && !AffinityAllows(required, n, less)
      && AffinityAllows(Rewritten(required, OnDemandTerms()), n, less)
  {
    var required, n := Some([Term([], [])]), Node(map[], map[]);
    assert Empty(required.value[0]);
    assert OnDemandTerms()[0] in OnDemandTerms();
    assert TermMatches(OnDemandTerms()[0], n, less);
    RewriteIsAnd(required, OnDemandTerms(), n, less);
  }

  // ----- What the two mutations mean -----

  /**
   * After the On-Demand mutation exactly those nodes remain that do not carry the Spot label at all and meet the
   * rest of the Pod's constraints.
   */
  lemma OnDemandExcludesSpotNodes(selector: LabelMap, required: Option<seq<Term>>, n: Node, less: Order)
    ensures Qualifies(selector - {SPOT_KEY}, Rewritten(required, OnDemandTerms()), n, less) <==>
      && SPOT_KEY !in n.labels
      && SelectorAllows(selector - {SPOT_KEY}, n)
      && (AffinityAllows(required, n, less) || Loosens(required))
  {
    RewriteIsAnd(required, OnDemandTerms(), n, less);
    var t := OnDemandTerms()[0];
    assert t in OnDemandTerms() && SpotDoesNotExist() in t.matchExpressions;
    assert SomeTermMatches(OnDemandTerms(), n, less) <==> SPOT_KEY !in n.labels;
  }

  lemma FallbackTermsMean(families: seq<string>, n: Node, less: Order)
    requires families != []
    ensures SomeTermMatches(FallbackTerms(families), n, less) <==>
      || IsSpotNode(n.labels)
      || (SPOT_KEY !in n.labels && MACHINE_FAMILY_KEY in n.labels && n.labels[MACHINE_FAMILY_KEY] in families)
  {
    var terms := FallbackTerms(families);
    assert terms[0] in terms && terms[1] in terms;
    assert SpotIn() in terms[0].matchExpressions;
    assert terms[1].matchExpressions[0] in terms[1].matchExpressions;
    assert terms[1].matchExpressions[1] in terms[1].matchExpressions;
  }

  /**
   * After the Spot mutation exactly those nodes remain that meet the Pod's own constraints and the compute class,
   * and that are: Spot nodes, if the fallback action is Fail; Spot nodes or unlabelled nodes of an allowed
   * family, if the policy names families; any node, otherwise.
   */
  lemma SpotMutationMeans(
    selector: LabelMap, required: Option<seq<Term>>, action: FallbackAction, policy: Option<SpotPolicy>,
    n: Node, less: Order)
    ensures Qualifies(SpotSelector(selector, action, policy), SpotAffinity(required, action, policy), n, less) <==>
      && SelectorAllows(if action.Fail? then selector - {SPOT_KEY} else selector, n)
      && (policy.Some? && policy.value.customComputeClass != "" && COMPUTE_CLASS_KEY !in selector ==>
            Lookup(n.labels, COMPUTE_CLASS_KEY) == Some(policy.value.customComputeClass))
      && if action.Fail? then IsSpotNode(n.labels) && AffinityAllows(required, n, less)
         else if policy.Some? && policy.value.fallbackFamilies != [] then
           && (IsSpotNode(n.labels)
               || (SPOT_KEY !in n.labels && MACHINE_FAMILY_KEY in n.labels
                   && n.labels[MACHINE_FAMILY_KEY] in policy.value.fallbackFamilies))
           && (AffinityAllows(required, n, less) || Loosens(required))
         else AffinityAllows(required, n, less)
  {
    SpotSelectorMeans(selector, action, policy, n);
    if !action.Fail? && policy.Some? && policy.value.fallbackFamilies != [] {
      RewriteIsAnd(required, FallbackTerms(policy.value.fallbackFamilies), n, less);
      FallbackTermsMean(policy.value.fallbackFamilies, n, less);
    }
  }

  lemma SetSelectorMeans(selector: LabelMap, key: string, value: string, n: Node)
    ensures SelectorAllows(selector[key := value], n) <==>
      SelectorAllows(selector - {key}, n) && Lookup(n.labels, key) == Some(value)
  {
    assert forall k :: k in selector[key := value] <==> k in selector - {key} || k == key;
  }

  lemma SpotSelectorMeans(selector: LabelMap, action: FallbackAction, policy: Option<SpotPolicy>, n: Node)
    ensures SelectorAllows(SpotSelector(selector, action, policy), n) <==>
      && SelectorAllows(if action.Fail? then selector - {SPOT_KEY} else selector, n)
      && (policy.Some? && policy.value.customComputeClass != "" && COMPUTE_CLASS_KEY !in selector ==>
            Lookup(n.labels, COMPUTE_CLASS_KEY) == Some(policy.value.customComputeClass))
      && (action.Fail? ==> IsSpotNode(n.labels))
  {
    assert |SPOT_KEY| != |COMPUTE_CLASS_KEY|;
    var classes := policy.Some? && policy.value.customComputeClass != "" && COMPUTE_CLASS_KEY !in selector;
    var ccc := if classes then policy.value.customComputeClass else "";
    var classed := if classes then selector[COMPUTE_CLASS_KEY := ccc] else selector;
    if classes {
      SetSelectorMeans(selector, COMPUTE_CLASS_KEY, ccc, n);
      SetSelectorMeans(selector - {SPOT_KEY}, COMPUTE_CLASS_KEY, ccc, n);
      assert selector - {COMPUTE_CLASS_KEY} == selector;
      assert selector - {SPOT_KEY} - {COMPUTE_CLASS_KEY} == selector - {SPOT_KEY};
      assert classed - {SPOT_KEY} == (selector - {SPOT_KEY})[COMPUTE_CLASS_KEY := ccc];
    }
    if action.Fail? {
      SetSelectorMeans(classed, SPOT_KEY, SPOT_VALUE, n);
    }
  }
}
