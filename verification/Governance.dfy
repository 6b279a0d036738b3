/** Which WorkloadClass governs which Pod (internal/utils/workloadclass.go, governedPods). */
module Governance {
  import opened Wrappers
  import opened Labels
  import opened Types
  import Selector

  predicate UniqueNames(classes: seq<WorkloadClass>) {
    forall i, j | 0 <= i < j < |classes| :: classes[i].name != classes[j].name
  }

  function Specificity(sel: Option<LabelSelector>): nat {
    if sel.None? then 0 else |sel.value.matchLabels| + |sel.value.matchExpressions|
  }

  /** A class competes for a Pod when it is live and its valid selector selects the labels. */
  predicate Candidate(wc: WorkloadClass, labels: LabelMap) {
    !wc.deleting && Selects(wc.podSelector, labels)
  }

  /** `a` replaces `b` as the best match: more specific, or as specific and strictly older. */
  predicate Replaces(a: WorkloadClass, b: WorkloadClass) {
    var s, t := Specificity(a.podSelector), Specificity(b.podSelector);
    s > t || (s == t && a.created < b.created)
  }

  /** The best match over a list, as a running maximum. */
  function SelectBest(labels: LabelMap, classes: seq<WorkloadClass>): Option<WorkloadClass> {
    if classes == [] then None
    else
      var best := SelectBest(labels, classes[..|classes| - 1]);
      var last := classes[|classes| - 1];
      if Candidate(last, labels) && (best.None? || Replaces(last, best.value)) then Some(last) else best
  }

  /** Position `i` is the lexicographic maximum of (specificity, age, list position) among the candidates. */
  ghost predicate IsLexMax(labels: LabelMap, classes: seq<WorkloadClass>, i: int) {
    && 0 <= i < |classes| && Candidate(classes[i], labels)
    && forall j | 0 <= j < |classes| && Candidate(classes[j], labels) ::
         !Replaces(classes[j], classes[i]) && (j < i ==> Replaces(classes[i], classes[j]))
  }

  lemma {:induction false} BestMatchIsLexMax(labels: LabelMap, classes: seq<WorkloadClass>) returns (i: int)
    ensures SelectBest(labels, classes).None? <==> forall wc | wc in classes :: !Candidate(wc, labels)
    ensures SelectBest(labels, classes).Some? ==>
        IsLexMax(labels, classes, i) && SelectBest(labels, classes) == Some(classes[i])
  {
    i := -1;
    if classes != [] {
      var n := |classes| - 1;
      i := BestMatchIsLexMax(labels, classes[..n]);
      assert classes == classes[..n] + [classes[n]];
      if SelectBest(labels, classes) == Some(classes[n]) && (i < 0 || SelectBest(labels, classes[..n]).None?
           || Replaces(classes[n], classes[i])) {
        i := n;
      }
    }
  }

  /** The most specific class wins; among equally specific ones the oldest, and of the same age the first listed. */
  lemma {:induction false} MostSpecificThenOldest(labels: LabelMap, classes: seq<WorkloadClass>, w: WorkloadClass)
    requires SelectBest(labels, classes).Some? && w in classes && !w.deleting && Selects(w.podSelector, labels)
    ensures var b := SelectBest(labels, classes).value;
      b in classes && !b.deleting && b.podSelector.Some? && Selects(b.podSelector, labels)
    ensures var b := SelectBest(labels, classes).value;
      var wanted, offered := |w.podSelector.value.matchLabels| + |w.podSelector.value.matchExpressions|,
                             |b.podSelector.value.matchLabels| + |b.podSelector.value.matchExpressions|;
      && wanted <= offered
      && (wanted == offered ==> b.created <= w.created)
      && (wanted == offered && b.created == w.created ==>
            exists i | 0 <= i < |classes| && classes[i] == b :: forall j | 0 <= j < i :: classes[j] != w)
  {
    var i := BestMatchIsLexMax(labels, classes);
    var j :| 0 <= j < |classes| && classes[j] == w;
    assert Candidate(classes[j], labels) && !Replaces(classes[j], classes[i]);
  }

  /** Without ties the winner does not depend on the order in which the classes are listed. */
  lemma {:induction false} BestMatchIgnoresOrder(labels: LabelMap, a: seq<WorkloadClass>, b: seq<WorkloadClass>)
    requires forall wc :: wc in a <==> wc in b
    requires forall x, y | x in a && y in a && Candidate(x, labels) && Candidate(y, labels) && x != y ::
        Replaces(x, y) || Replaces(y, x)
    ensures SelectBest(labels, a) == SelectBest(labels, b)
  {
    var i := BestMatchIsLexMax(labels, a);
    var j := BestMatchIsLexMax(labels, b);
    if SelectBest(labels, a).Some? {
      assert a[i] in b;
      assert b[j] in a;
      assert !Replaces(a[i], b[j]) && !Replaces(b[j], a[i]);
    }
  }

  /** One competitor against the running best match. */
  method UpdateBestMatch(wc: WorkloadClass, best: Option<WorkloadClass>, maxSpecificity: int)
    returns (best': Option<WorkloadClass>, maxSpecificity': int)
    requires maxSpecificity == if best.Some? then Specificity(best.value.podSelector) else -1
    ensures best' == if best.None? || Replaces(wc, best.value) then Some(wc) else best
    ensures maxSpecificity' == Specificity(best'.value.podSelector)
  {
    best', maxSpecificity' := best, maxSpecificity;
    var spec := Specificity(wc.podSelector);
    var equalButOlder := spec == maxSpecificity && wc.created < best.value.created;
    if spec > maxSpecificity || equalButOlder {
      maxSpecificity' := spec;
      best' := Some(wc);
    }
  }

  /** The running maximum in the form of the source. */
  method SelectBestMatchFromList(labels: LabelMap, classes: seq<WorkloadClass>)
    returns (best: Option<WorkloadClass>, maxSpecificity: int)
    ensures best == SelectBest(labels, classes)
    ensures maxSpecificity == if best.Some? then Specificity(best.value.podSelector) else -1
  {
    best, maxSpecificity := None, -1;
    for i := 0 to |classes|
      invariant best == SelectBest(labels, classes[..i])
      invariant maxSpecificity == if best.Some? then Specificity(best.value.podSelector) else -1
    {
      assert classes[..i + 1][..i] == classes[..i];
      if Candidate(classes[i], labels) {
        best, maxSpecificity := UpdateBestMatch(classes[i], best, maxSpecificity);
      }
    }
    assert classes[..|classes|] == classes;
  }

  // ----- The enforced class and the best match of a Pod -----

  function Find(classes: seq<WorkloadClass>, name: string): Option<WorkloadClass> {
    if classes == [] then None
    else if classes[0].name == name then Some(classes[0])
    else Find(classes[1..], name)
  }

  /** The live class named by the namespace's enforced-class label, if any. */
  function Enforced(classes: seq<WorkloadClass>, enforcedLabel: Option<string>): Option<WorkloadClass> {
    if enforcedLabel.None? || enforcedLabel.value == "" then None
    else
      var wc := Find(classes, enforcedLabel.value);
      if wc.Some? && !wc.value.deleting then wc else None
  }

  function BestMatch(pod: Pod, enforced: Option<WorkloadClass>, classes: seq<WorkloadClass>): Option<WorkloadClass> {
    if enforced.Some? && !enforced.value.deleting then enforced else SelectBest(pod.labels, classes)
  }

  lemma {:induction false} FindFinds(classes: seq<WorkloadClass>, name: string)
    ensures Find(classes, name).Some? ==> Find(classes, name).value in classes && Find(classes, name).value.name == name
    ensures (exists wc | wc in classes :: wc.name == name) ==> Find(classes, name).Some?
  {
    if classes != [] && classes[0].name != name {
      FindFinds(classes[1..], name);
    }
  }

  lemma SameName(classes: seq<WorkloadClass>, a: WorkloadClass, b: WorkloadClass)
    requires UniqueNames(classes) && a in classes && b in classes && a.name == b.name
    ensures a == b
  {
  }

  /** The best match is a live class of the list; without an enforced class its selector selects the Pod. */
  lemma BestMatchIsListed(pod: Pod, enforcedLabel: Option<string>, classes: seq<WorkloadClass>)
    ensures var b := BestMatch(pod, Enforced(classes, enforcedLabel), classes);
      b.Some? ==>
        && b.value in classes && !b.value.deleting
        && (Enforced(classes, enforcedLabel).None? ==> Candidate(b.value, pod.labels))
  {
    if enforcedLabel.Some? {
      FindFinds(classes, enforcedLabel.value);
    }
    var i := BestMatchIsLexMax(pod.labels, classes);
  }

  /** A live class that the namespace enforces is the best match of every Pod, whatever the Pod's labels. */
  lemma EnforcedGovernsAll(pod: Pod, classes: seq<WorkloadClass>, wc: WorkloadClass)
    requires UniqueNames(classes) && wc in classes && wc.name != ""
    ensures BestMatch(pod, Enforced(classes, Some(wc.name)), classes) ==
      if wc.deleting then SelectBest(pod.labels, classes) else Some(wc)
  {
    FindFinds(classes, wc.name);
    SameName(classes, Find(classes, wc.name).value, wc);
  }

  /** A namespace that enforces no class, or one that does not exist, leaves every Pod to the selectors. */
  lemma OthersAreSelected(pod: Pod, enforcedLabel: Option<string>, classes: seq<WorkloadClass>)
    requires enforcedLabel.Some? ==>
      enforcedLabel.value == "" || forall wc | wc in classes :: wc.name != enforcedLabel.value
    ensures BestMatch(pod, Enforced(classes, enforcedLabel), classes) == SelectBest(pod.labels, classes)
  {
    if enforcedLabel.Some? {
      FindFinds(classes, enforcedLabel.value);
    }
  }

  /** No live classes overlap, as `SelectorsOverlap` decides it. */
  ghost predicate NoOverlaps(classes: seq<WorkloadClass>) {
    forall i, j | 0 <= i < j < |classes| && !classes[i].deleting && !classes[j].deleting ::
      !Selector.Overlap(classes[i].podSelector, classes[j].podSelector)
  }

  lemma TwoMatchesOverlap(classes: seq<WorkloadClass>, labels: LabelMap, i: int, j: int)
    requires 0 <= i < |classes| && Candidate(classes[i], labels)
    requires 0 <= j < |classes| && Candidate(classes[j], labels)
    requires i != j
    ensures !NoOverlaps(classes)
  {
    var a, b := if i < j then i else j, if i < j then j else i;
    assert Selects(classes[a].podSelector, labels) && Selects(classes[b].podSelector, labels);
    assert Selector.Overlap(classes[a].podSelector, classes[b].podSelector);
  }

  /** When the overlap report is empty, at most one class matches any Pod, in whatever order they are listed. */
  lemma NoOverlapNoAmbiguity(classes: seq<WorkloadClass>, labels: LabelMap, i: int, j: int)
    requires NoOverlaps(classes)
    requires 0 <= i < |classes| && Candidate(classes[i], labels)
    requires 0 <= j < |classes| && Candidate(classes[j], labels)
    ensures i == j
    ensures SelectBest(labels, classes) == Some(classes[i])
  {
    var k := BestMatchIsLexMax(labels, classes);
    if i != j {
      TwoMatchesOverlap(classes, labels, i, j);
    } else if k != i {
      TwoMatchesOverlap(classes, labels, i, k);
    }
  }
}
