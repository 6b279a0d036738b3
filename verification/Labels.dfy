/** Kubernetes labels and label selectors, with the semantics of metav1.LabelSelectorAsSelector. */
module Labels {
  import opened Wrappers

  type LabelMap = map<string, string>

  datatype Operator = In | NotIn | Exists | DoesNotExist | UnknownOperator

  datatype Requirement = Requirement(key: string, op: Operator, values: seq<string>)

  datatype LabelSelector = LabelSelector(matchLabels: map<string, string>, matchExpressions: seq<Requirement>)

  /** Whether a requirement accepts the value of its label; `None` stands for an absent label. */
  predicate Admits(op: Operator, values: seq<string>, v: Option<string>) {
    match op
    case In => v.Some? && v.value in values
    case NotIn => v.None? || v.value !in values
    case Exists => v.Some?
    case DoesNotExist => v.None?
    case UnknownOperator => false
  }

  predicate ValidRequirement(r: Requirement) {
    match r.op
    case In => r.values != []
    case NotIn => r.values != []
    case Exists => r.values == []
    case DoesNotExist => r.values == []
    case UnknownOperator => false
  }

  predicate ValidSelector(s: LabelSelector) {
    forall r | r in s.matchExpressions :: ValidRequirement(r)
  }

  predicate Matches(s: LabelSelector, labels: LabelMap) {
    && (forall k | k in s.matchLabels :: k in labels && labels[k] == s.matchLabels[k])
    && (forall r | r in s.matchExpressions :: Admits(r.op, r.values, Lookup(labels, r.key)))
  }

  /** A nil selector selects nothing, an empty one everything, and an invalid one is an error (selects nothing). */
  predicate Selects(s: Option<LabelSelector>, labels: LabelMap) {
    s.Some? && ValidSelector(s.value) && Matches(s.value, labels)
  }

  /** The selector does not mention the label `key`. */
  predicate Ignores(s: LabelSelector, key: string) {
    && key !in s.matchLabels
    && (forall r | r in s.matchExpressions :: r.key != key)
  }

  lemma IgnoredLabel(s: LabelSelector, labels: LabelMap, key: string, value: string)
    requires Ignores(s, key)
    ensures Matches(s, labels[key := value]) == Matches(s, labels)
  {
    assert forall r | r in s.matchExpressions ::
        Lookup(labels[key := value], r.key) == Lookup(labels, r.key);
    assert forall k | k in s.matchLabels :: k != key;
  }
}
