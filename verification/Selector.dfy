/** Deciding whether some set of labels is selected by two label selectors (internal/utils/selector.go). */
module Selector {
  import opened Wrappers
  import opened Labels

  /** Some labels, over an unbounded domain of values, are selected by both selectors. */
  ghost predicate Overlap(a: Option<LabelSelector>, b: Option<LabelSelector>) {
    exists labels: LabelMap :: Selects(a, labels) && Selects(b, labels)
  }

  // ----- Selectors as sets of requirements -----

  /** One In requirement per match label, and every match expression. */
  ghost function Requirements(s: LabelSelector): set<Requirement> {
    (set k | k in s.matchLabels :: Requirement(k, In, [s.matchLabels[k]])) + (set r | r in s.matchExpressions)
  }

  ghost predicate Satisfies(labels: LabelMap, reqs: set<Requirement>) {
    forall r | r in reqs :: Admits(r.op, r.values, Lookup(labels, r.key))
  }

  /** The value `v` of label `key` meets every requirement on that key. */
  ghost predicate AllAdmit(reqs: set<Requirement>, key: string, v: Option<string>) {
    forall r | r in reqs && r.key == key :: Admits(r.op, r.values, v)
  }

  ghost predicate KeySatisfiable(reqs: set<Requirement>, key: string) {
    exists v :: AllAdmit(reqs, key, v)
  }

  ghost function Witness(reqs: set<Requirement>, k: string): (v: Option<string>)
    requires KeySatisfiable(reqs, k)
    ensures AllAdmit(reqs, k, v)
  {
    var v :| AllAdmit(reqs, k, v);
    v
  }

  /** Requirements on different keys are independent: joint labels exist as soon as each key has a value. */
  lemma {:induction false} KeysAreIndependent(reqs: set<Requirement>)
    ensures (exists labels: LabelMap :: Satisfies(labels, reqs)) <==> (forall k :: KeySatisfiable(reqs, k))
  {
    if forall k :: KeySatisfiable(reqs, k) {
      var keys := set r | r in reqs :: r.key;
      var labels := map k | k in keys && Witness(reqs, k).Some? :: Witness(reqs, k).value;
      forall r | r in reqs ensures Admits(r.op, r.values, Lookup(labels, r.key)) {
        assert Lookup(labels, r.key) == Witness(reqs, r.key);
      }
      assert Satisfies(labels, reqs);
    }
    if labels: LabelMap :| Satisfies(labels, reqs) {
      forall k ensures KeySatisfiable(reqs, k) {
        assert AllAdmit(reqs, k, Lookup(labels, k));
      }
    }
  }

  lemma MatchesRequirements(s: LabelSelector, labels: LabelMap)
    ensures Matches(s, labels) <==> Satisfies(labels, Requirements(s))
  {
    if Satisfies(labels, Requirements(s)) {
      forall k | k in s.matchLabels ensures k in labels && labels[k] == s.matchLabels[k] {
        assert Requirement(k, In, [s.matchLabels[k]]) in Requirements(s);
      }
    }
  }

  lemma OverlapIsSatisfiability(a: LabelSelector, b: LabelSelector)
    requires ValidSelector(a) && ValidSelector(b)
    ensures Overlap(Some(a), Some(b)) <==> forall k :: KeySatisfiable(Requirements(a) + Requirements(b), k)
  {
    var reqs := Requirements(a) + Requirements(b);
    forall labels: LabelMap
      ensures Selects(Some(a), labels) && Selects(Some(b), labels) <==> Satisfies(labels, reqs)
    {
      MatchesRequirements(a, labels);
      MatchesRequirements(b, labels);
    }
    KeysAreIndependent(reqs);
  }

  // ----- A finite set of values never exhausts the domain -----

  lemma LengthBound(values: set<string>) returns (n: nat)
    ensures forall v | v in values :: |v| < n
  {
    n := 0;
    if values != {} {
      var v :| v in values;
      n := LengthBound(values - {v});
      n := if n <= |v| then |v| + 1 else n;
    }
  }

  lemma FreshValue(values: set<string>)
    ensures exists v: string :: v !in values
  {
    var n := LengthBound(values);
    assert seq(n, _ => 'a') !in values;
  }

  // ----- The constraint accumulated on one key -----

  datatype Fields = Fields(included: Option<set<string>>, excluded: set<string>, mustExist: bool, mustNotExist: bool)

  /** The meaning of the four fields: which values (or absence) of the label they accept. */
  predicate Accepts(f: Fields, v: Option<string>) {
    match v
    case None => !f.mustExist
    case Some(x) => !f.mustNotExist && (f.included.Some? ==> x in f.included.value) && x !in f.excluded
  }

  ghost predicate Acceptable(f: Fields) {
    exists v :: Accepts(f, v)
  }

  class KeyConstraint {
    var included: Option<set<string>>
    var excluded: set<string>
    var mustExist: bool
    var mustNotExist: bool

    ghost predicate Valid()
      reads this
    {
      included.Some? ==> mustExist
    }

    ghost function View(): Fields
      reads this
    {
      Fields(included, excluded, mustExist, mustNotExist)
    }

    constructor ()
      ensures Valid()
      ensures forall v :: Accepts(View(), v)
    {
      included, excluded, mustExist, mustNotExist := None, {}, false, false;
    }

    method Add(op: Operator, values: seq<string>)
      requires Valid()
      modifies this
      ensures Valid()
      ensures forall v :: Accepts(View(), v)
                     <==> Accepts(old(View()), v) && (op != UnknownOperator ==> Admits(op, values, v))
    {
      match op
      case In =>
        mustExist := true;
        if included.None? {
          included := Some(set x | x in values);
        } else {
          included := Some(included.value * set x | x in values);
        }
      case NotIn =>
        excluded := excluded + set x | x in values;
      case Exists =>
        mustExist := true;
      case DoesNotExist =>
        mustNotExist := true;
      case UnknownOperator =>
    }

    method Satisfiable() returns (r: bool)
      requires Valid()
      ensures r <==> Acceptable(View())
    {
      if mustNotExist {
        assert !mustExist ==> Accepts(View(), None);
        return !mustExist;
      }
      if included.Some? {
        var rest := included.value - excluded;
        assert forall x: string | Accepts(View(), Some(x)) :: x in rest;
        if rest != {} {
          var x :| x in rest;
          assert Accepts(View(), Some(x));
        }
        return |rest| > 0;
      }
      FreshValue(excluded);
      assert forall x: string | x !in excluded :: Accepts(View(), Some(x));
      return true;
    }
  }

  type Constraints = map<string, KeyConstraint>

  ghost predicate ValidConstraints(c: Constraints)
    reads c.Values
  {
    && (forall k | k in c :: c[k].Valid())
    && (forall k, l | k in c && l in c && k != l :: c[k] != c[l])
  }

  ghost function Views(c: Constraints): map<string, Fields>
    reads c.Values
  {
    map k | k in c :: c[k].View()
  }

  ghost predicate Permits(views: map<string, Fields>, key: string, v: Option<string>) {
    key in views ==> Accepts(views[key], v)
  }

  /** The accumulated constraints mean exactly the requirements seen so far. */
  ghost predicate Mean(views: map<string, Fields>, reqs: set<Requirement>) {
    forall k, v :: Permits(views, k, v) <==> AllAdmit(reqs, k, v)
  }

  /** Finds or makes the constraint of a key and adds one requirement to it. */
  method Constrain(c: Constraints, r: Requirement, ghost reqs: set<Requirement>) returns (c': Constraints)
    requires ValidConstraints(c) && r.op != UnknownOperator && Mean(Views(c), reqs)
    modifies c.Values
    ensures ValidConstraints(c') && fresh(c'.Values - c.Values)
    ensures Mean(Views(c'), reqs + {r})
  {
    c' := c;
    if r.key !in c {
      var added := new KeyConstraint();
      c' := c[r.key := added];
    }
    assert c'[r.key] in c'.Values;
    assert Mean(Views(c'), reqs) by {
      forall k, v ensures Permits(Views(c'), k, v) <==> AllAdmit(reqs, k, v) {
        assert Permits(old(Views(c)), k, v) <==> AllAdmit(reqs, k, v);
      }
    }
    ghost var views := Views(c');
    c'[r.key].Add(r.op, r.values);
    forall k, v ensures Permits(Views(c'), k, v) <==> AllAdmit(reqs + {r}, k, v) {
      assert Permits(views, k, v) <==> AllAdmit(reqs, k, v);
      assert k != r.key && k in c' ==> c'[k].View() == views[k];
    }
  }

  /** Adds every requirement of one selector. */
  method ConstrainAll(c: Constraints, s: LabelSelector, ghost reqs: set<Requirement>) returns (c': Constraints)
    requires ValidConstraints(c) && ValidSelector(s) && Mean(Views(c), reqs)
    modifies c.Values
    ensures ValidConstraints(c') && fresh(c'.Values - c.Values)
    ensures Mean(Views(c'), reqs + Requirements(s))
  {
    c' := c;
    var keys := s.matchLabels.Keys;
    ghost var done := reqs;
    while keys != {}
      invariant ValidConstraints(c') && fresh(c'.Values - c.Values) && keys <= s.matchLabels.Keys
      invariant done == reqs + set k | k in s.matchLabels.Keys - keys :: Requirement(k, In, [s.matchLabels[k]])
      invariant Mean(Views(c'), done)
    {
      var key :| key in keys;
      var r := Requirement(key, In, [s.matchLabels[key]]);
      c' := Constrain(c', r, done);
      done := done + {r};
      keys := keys - {key};
    }
    ghost var labelled := done;
    for i := 0 to |s.matchExpressions|
      invariant ValidConstraints(c') && fresh(c'.Values - c.Values)
      invariant done == labelled + set r | r in s.matchExpressions[..i]
      invariant Mean(Views(c'), done)
    {
      var r := s.matchExpressions[i];
      assert ValidRequirement(r);
      c' := Constrain(c', r, done);
      done := done + {r};
    }
    assert s.matchExpressions[..|s.matchExpressions|] == s.matchExpressions;
    assert done == reqs + Requirements(s);
  }

  lemma KeyMeaning(views: map<string, Fields>, reqs: set<Requirement>, k: string)
    requires Mean(views, reqs) && k in views
    ensures Acceptable(views[k]) <==> KeySatisfiable(reqs, k)
  {
    assert forall v :: Accepts(views[k], v) <==> Permits(views, k, v);
  }

  /** The decision procedure, with its errors: it is exact whenever it returns an answer. */
  method SelectorsOverlap(a: Option<LabelSelector>, b: Option<LabelSelector>) returns (r: Result<bool>)
    ensures r.Err? <==> a.Some? && b.Some? && !(ValidSelector(a.value) && ValidSelector(b.value))
    ensures r.Ok? ==> (r.value <==> Overlap(a, b))
  {
    if a.None? || b.None? {
      return Ok(false);
    }
    var c: Constraints := map[];
    if !ValidSelector(a.value) {
      return Err;
    }
    c := ConstrainAll(c, a.value, {});
    if !ValidSelector(b.value) {
      return Err;
    }
    ghost var reqs := Requirements(a.value) + Requirements(b.value);
    assert {} + Requirements(a.value) == Requirements(a.value);
    c := ConstrainAll(c, b.value, Requirements(a.value));
    OverlapIsSatisfiability(a.value, b.value);
    assert a == Some(a.value) && b == Some(b.value);
    ghost var views := Views(c);
    var keys := c.Keys;
    while keys != {}
      invariant keys <= c.Keys && ValidConstraints(c) && Views(c) == views
      invariant forall k | k in c.Keys - keys :: KeySatisfiable(reqs, k)
    {
      var k :| k in keys;
      KeyMeaning(views, reqs, k);
      assert c[k].View() == views[k];
      var ok := c[k].Satisfiable();
      assert ok <==> KeySatisfiable(reqs, k);
      if !ok {
        return Ok(false);
      }
      keys := keys - {k};
    }
    forall k ensures KeySatisfiable(reqs, k) {
      if k !in c {
        assert Permits(views, k, None);
      }
    }
    return Ok(true);
  }
}
