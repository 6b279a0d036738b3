/** Capacity guardrails of gke-spot-placement: their aggregation and the check of a class's capacity strategy. */
module Capacity {
  import opened Wrappers
  import opened Types

  datatype EnforcementMode = ModeUnset | AllowedMode | RequiredMode | ForbiddenMode | InvalidMode

  /** A placement constraint of a guardrail: another plugin's, one that does not decode, or decoded parameters. */
  datatype Constraint =
    | OtherPlugin
    | Undecodable
    | Parameters(mode: EnforcementMode, minSpotRatio: Percentage, allowFallback: Option<bool>, zeroFallbackRatio: bool)

  /** The placement constraints of a guardrail, empty when it has no plugin constraints. */
  type Placement = seq<Constraint>

  // ----- What one constraint says, on its own -----

  predicate Forbids(c: Constraint) {
    c.Parameters? && c.mode.ForbiddenMode?
  }

  predicate Demands(c: Constraint) {
    c.Parameters? && c.mode.RequiredMode?
  }

  predicate Faulty(c: Constraint) {
    c.Undecodable? || (c.Parameters? && (c.mode.InvalidMode? || c.minSpotRatio.PercentageInvalid?))
  }

  /** A constraint whose ratio does not parse is skipped before its fallback settings are read. */
  predicate BlocksFallback(c: Constraint) {
    && c.Parameters? && !c.minSpotRatio.PercentageInvalid?
    && (c.allowFallback == Some(false) || c.zeroFallbackRatio)
  }

  function MinimumOf(c: Constraint): nat {
    if c.Parameters? && c.minSpotRatio.Percentage? then c.minSpotRatio.pct else 0
  }

  // ----- What the constraints say together -----

  datatype Limits = Limits(mode: EnforcementMode, minSpotRatio: nat, allowFallback: bool)

  ghost predicate Aggregates(l: Limits, faulty: bool, all: seq<Constraint>) {
    && l.mode == (if exists c :: c in all && Forbids(c) then ForbiddenMode
                  else if exists c :: c in all && Demands(c) then RequiredMode
                  else AllowedMode)
    && (l.mode.ForbiddenMode? ==> l.minSpotRatio == 0)
    && (!l.mode.ForbiddenMode? ==>
          && (forall c | c in all :: MinimumOf(c) <= l.minSpotRatio)
          && (l.minSpotRatio == 0 || exists c | c in all :: MinimumOf(c) == l.minSpotRatio))
    && l.allowFallback == !(exists c | c in all :: BlocksFallback(c))
    && faulty == exists c | c in all :: Faulty(c)
  }

  /** What one more constraint changes. */
  function AfterOne(l: Limits, c: Constraint): Limits {
    var mode := if Forbids(c) then ForbiddenMode else if Demands(c) && !l.mode.ForbiddenMode? then RequiredMode else l.mode;
    Limits(mode,
           if Forbids(c) then 0 else if !mode.ForbiddenMode? && MinimumOf(c) > l.minSpotRatio then MinimumOf(c)
           else l.minSpotRatio,
           l.allowFallback && !BlocksFallback(c))
  }

  lemma Extend(l: Limits, f: bool, seen: seq<Constraint>, c: Constraint, m: Limits, g: bool)
    requires Aggregates(l, f, seen) && m == AfterOne(l, c) && g == (f || Faulty(c))
    ensures Aggregates(m, g, seen + [c])
  {
    assert forall d :: d in seen + [c] <==> d in seen || d == c;
    assert c in seen + [c];
  }

  /** The limits and faults of a list of constraints, one constraint after the other. */
  ghost function Effective(all: seq<Constraint>): (Limits, bool) {
    if all == [] then (Limits(AllowedMode, 0, true), false)
    else
      var (l, f) := Effective(all[..|all| - 1]);
      (AfterOne(l, all[|all| - 1]), f || Faulty(all[|all| - 1]))
  }

  /** The running limits mean the strictest setting of each kind: Forbidden dominates and lifts the minimum. */
  lemma {:induction false} EffectiveAggregates(all: seq<Constraint>)
    ensures Aggregates(Effective(all).0, Effective(all).1, all)
  {
    if all != [] {
      var n := |all| - 1;
      var (l, f) := Effective(all[..n]);
      EffectiveAggregates(all[..n]);
      assert all == all[..n] + [all[n]];
      Extend(l, f, all[..n], all[n], AfterOne(l, all[n]), f || Faulty(all[n]));
    }
  }

  /** Neither the order of the constraints nor repeating one changes what they say together. */
  lemma AggregateIgnoresOrder(a: seq<Constraint>, b: seq<Constraint>)
    requires forall c :: c in a <==> c in b
    ensures Effective(a) == Effective(b)
  {
    EffectiveAggregates(a);
    EffectiveAggregates(b);
    Determined(a, b, Effective(a).0, Effective(b).0, Effective(a).1, Effective(b).1);
  }

  lemma Determined(a: seq<Constraint>, b: seq<Constraint>, l: Limits, m: Limits, f: bool, g: bool)
    requires forall c :: c in a <==> c in b
    requires Aggregates(l, f, a) && Aggregates(m, g, b)
    ensures l == m && f == g
  {
    assert (exists c :: c in a && Forbids(c)) <==> (exists c :: c in b && Forbids(c));
    assert (exists c :: c in a && Demands(c)) <==> (exists c :: c in b && Demands(c));
    assert (exists c | c in a :: BlocksFallback(c)) <==> (exists c | c in b :: BlocksFallback(c));
    assert (exists c | c in a :: Faulty(c)) <==> (exists c | c in b :: Faulty(c));
  }

  /** The strictest settings seen so far, which the source updates through three pointers. */
  class EffectiveLimits {
    var mode: EnforcementMode
    var minSpotRatio: nat
    var allowFallback: bool

    constructor ()
      ensures Value() == Limits(AllowedMode, 0, true)
    {
      mode, minSpotRatio, allowFallback := AllowedMode, 0, true;
    }

    function Value(): Limits
      reads this
    {
      Limits(mode, minSpotRatio, allowFallback)
    }

    /** Folds one constraint in; true if it is faulty. */
    method ApplyConstraint(c: Constraint) returns (failed: bool)
      modifies this
      ensures Value() == AfterOne(old(Value()), c) && failed == Faulty(c)
    {
      if c.OtherPlugin? {
        return false;
      }
      if c.Undecodable? {
        return true;
      }
      failed := false;
      match c.mode {
        case ForbiddenMode =>
          mode := ForbiddenMode;
          minSpotRatio := 0;
        case RequiredMode =>
          if !mode.ForbiddenMode? {
            mode := RequiredMode;
          }
        case InvalidMode =>
          failed := true;
        case _ =>
      }
      if c.minSpotRatio.PercentageInvalid? {
        return true;
      }
      if c.minSpotRatio.Percentage? && !mode.ForbiddenMode? && c.minSpotRatio.pct > minSpotRatio {
        minSpotRatio := c.minSpotRatio.pct;
      }
      if c.allowFallback == Some(false) {
        allowFallback := false;
      }
      if c.zeroFallbackRatio {
        allowFallback := false;
      }
    }

    /** Folds one guardrail's constraints in, after `before`; true if one of them is faulty. */
    method Apply(placement: Placement, ghost before: seq<Constraint>) returns (failed: bool)
      requires Value() == Effective(before).0
      modifies this
      ensures Value() == Effective(before + placement).0
      ensures Effective(before + placement).1 == (Effective(before).1 || failed)
    {
      failed := false;
      assert before + placement[..0] == before;
      for i := 0 to |placement|
        invariant Value() == Effective(before + placement[..i]).0
        invariant Effective(before + placement[..i]).1 == (Effective(before).1 || failed)
      {
        ghost var seen := before + placement[..i + 1];
        assert seen[..|seen| - 1] == before + placement[..i] && seen[|seen| - 1] == placement[i];
        var failure := ApplyConstraint(placement[i]);
        failed := failed || failure;
      }
      assert placement[..|placement|] == placement;
    }
  }

  function Flatten(guardrails: seq<Placement>): seq<Constraint> {
    if guardrails == [] then [] else Flatten(guardrails[..|guardrails| - 1]) + guardrails[|guardrails| - 1]
  }

  lemma {:induction false} FlattenJoins(guardrails: seq<Placement>)
    ensures forall c :: c in Flatten(guardrails) <==> exists g | g in guardrails :: c in g
  {
    if guardrails != [] {
      var n := |guardrails| - 1;
      FlattenJoins(guardrails[..n]);
      assert guardrails == guardrails[..n] + [guardrails[n]];
    }
  }

  method GuardrailCapacityConstraints(guardrails: seq<Placement>) returns (l: Limits, failed: bool)
    ensures (l, failed) == Effective(Flatten(guardrails))
  {
    var limits := new EffectiveLimits();
    failed := false;
    for i := 0 to |guardrails|
      invariant fresh(limits) && (limits.Value(), failed) == Effective(Flatten(guardrails[..i]))
    {
      assert guardrails[..i + 1][..i] == guardrails[..i];
      var failure := limits.Apply(guardrails[i], Flatten(guardrails[..i]));
      failed := failed || failure;
    }
    assert guardrails[..|guardrails|] == guardrails;
    l := limits.Value();
  }

  // ----- The check of a strategy -----

  datatype Violation =
    | FaultyGuardrail | StrategyRequired | InvalidSpotRatio | TypeMustBeSpot | RatioIsZero | SpotForbidden
    | BelowMinimum | FallbackDisallowed

  function TypeOf(cs: CapacityStrategy): PlacementType {
    if cs.placement.TypeUnset? then Spot else cs.placement
  }

  /** The ratio a strategy asks for, or `None` if it does not parse. */
  function RatioOf(cs: CapacityStrategy): Option<int> {
    if TypeOf(cs).OnDemand? then Some(0)
    else match cs.spotRatio
      case PercentageUnset => Some(100)
      case PercentageInvalid => None
      case Percentage(pct) => Some(pct)
  }

  function AddIf(v: seq<Violation>, violated: bool, violation: Violation): seq<Violation> {
    if violated then v + [violation] else v
  }

  function ModeViolation(v: seq<Violation>, mode: EnforcementMode, cs: CapacityStrategy): seq<Violation> {
    match mode
    case RequiredMode =>
      if !TypeOf(cs).Spot? then v + [TypeMustBeSpot] else AddIf(v, RatioOf(cs) == Some(0), RatioIsZero)
    case ForbiddenMode => AddIf(v, TypeOf(cs).Spot?, SpotForbidden)
    case _ => v
  }

  predicate BelowMinimumRatio(cs: CapacityStrategy, l: Limits) {
    TypeOf(cs).Spot? && RatioOf(cs).Some? && RatioOf(cs).value < l.minSpotRatio
  }

  function Check(strategy: Option<CapacityStrategy>, l: Limits, faulty: bool): seq<Violation> {
    var v := AddIf([], faulty, FaultyGuardrail);
    match strategy
    case None => AddIf(v, l.mode.RequiredMode?, StrategyRequired)
    case Some(cs) =>
      var parsed := AddIf(v, RatioOf(cs).None?, InvalidSpotRatio);
      var moded := ModeViolation(parsed, l.mode, cs);
      var bounded := AddIf(moded, BelowMinimumRatio(cs, l), BelowMinimum);
      AddIf(bounded, !l.allowFallback && cs.fallbackAction.FallbackToOnDemand?, FallbackDisallowed)
  }

  /** When each violation is reported. */
  predicate Reports(strategy: Option<CapacityStrategy>, l: Limits, faulty: bool, v: Violation) {
    var wantsSpot := strategy.Some? && (strategy.value.placement.TypeUnset? || strategy.value.placement.Spot?);
    match v
    case FaultyGuardrail => faulty
    case StrategyRequired => strategy.None? && l.mode.RequiredMode?
    case InvalidSpotRatio => strategy.Some? && !strategy.value.placement.OnDemand? && strategy.value.spotRatio.PercentageInvalid?
    case TypeMustBeSpot => strategy.Some? && l.mode.RequiredMode? && !wantsSpot
    case RatioIsZero => l.mode.RequiredMode? && wantsSpot && strategy.value.spotRatio == Percentage(0)
    case SpotForbidden => l.mode.ForbiddenMode? && wantsSpot
    case BelowMinimum =>
      && wantsSpot && !strategy.value.spotRatio.PercentageInvalid?
      && (if strategy.value.spotRatio.Percentage? then strategy.value.spotRatio.pct else 100) < l.minSpotRatio
    case FallbackDisallowed => strategy.Some? && !l.allowFallback && strategy.value.fallbackAction.FallbackToOnDemand?
  }

  lemma ReportedExactly(strategy: Option<CapacityStrategy>, l: Limits, faulty: bool, v: Violation)
    ensures v in Check(strategy, l, faulty) <==> Reports(strategy, l, faulty, v)
  {
  }

  /** No violation at all. */
  predicate Accepts(l: Limits, faulty: bool, strategy: Option<CapacityStrategy>) {
    && !faulty
    && match strategy
       case None => !l.mode.RequiredMode?
       case Some(cs) =>
         && RatioOf(cs).Some?
         && (l.mode.RequiredMode? ==> TypeOf(cs).Spot? && RatioOf(cs).value != 0)
         && (l.mode.ForbiddenMode? ==> !TypeOf(cs).Spot?)
         && (TypeOf(cs).Spot? ==> RatioOf(cs).value >= l.minSpotRatio)
         && (cs.fallbackAction.FallbackToOnDemand? ==> l.allowFallback)
  }

  /** The strategy passes against these constraints alone. */
  ghost predicate Passes(strategy: Option<CapacityStrategy>, all: seq<Constraint>) {
    Accepts(Effective(all).0, Effective(all).1, strategy)
  }

  lemma SilentIsAccepted(strategy: Option<CapacityStrategy>, l: Limits, faulty: bool)
    ensures Check(strategy, l, faulty) == [] <==> Accepts(l, faulty, strategy)
  {
  }

  /** One guardrail on its own demands Spot and another forbids it. */
  ghost predicate Mixed(guardrails: seq<Placement>) {
    && (exists g | g in guardrails :: Effective(g).0.mode.RequiredMode?)
    && (exists g | g in guardrails :: Effective(g).0.mode.ForbiddenMode?)
  }

  /** Unless Required and Forbidden are mixed, a strategy passes the aggregate exactly if it passes each guardrail. */
  lemma AggregateIsEach(strategy: Option<CapacityStrategy>, guardrails: seq<Placement>)
    requires guardrails != []
    ensures (Passes(strategy, Flatten(guardrails)) && !Mixed(guardrails)) <==>
      forall g | g in guardrails :: Passes(strategy, g)
  {
    var all := Flatten(guardrails);
    FlattenJoins(guardrails);
    if Passes(strategy, all) && !Mixed(guardrails) {
      forall g | g in guardrails
        ensures Passes(strategy, g)
      {
        EachFromAggregate(strategy, all, guardrails, g);
      }
    }
    if forall g | g in guardrails :: Passes(strategy, g) {
      AggregateFromEach(strategy, all, guardrails);
    }
  }

  /** Mixed guardrails do differ: Forbidden wins the aggregate, which an On-Demand strategy then passes. */
  lemma MixedGuardrailsDiffer()
    ensures var demand, forbid := [Parameters(RequiredMode, PercentageUnset, None, false)],
                                  [Parameters(ForbiddenMode, PercentageUnset, None, false)];
      var strategy := Some(CapacityStrategy(OnDemand, PercentageUnset, ActionUnset));
      && Mixed([demand, forbid]) && Passes(strategy, Flatten([demand, forbid])) && !Passes(strategy, demand)
  {
    var d, f := Parameters(RequiredMode, PercentageUnset, None, false), Parameters(ForbiddenMode, PercentageUnset, None, false);
    var guardrails := [[d], [f]];
    assert [d] in guardrails && [f] in guardrails;
    EffectiveOfOne(d);
    EffectiveOfOne(f);
    assert guardrails[..1] == [[d]] && [[d]][..0] == [] && Flatten([[d]]) == Flatten([]) + [d];
    assert Flatten(guardrails) == [d] + [f];
    assert ([d] + [f])[..1] == [d];
  }

  lemma EffectiveOfOne(c: Constraint)
    ensures Effective([c]) == (AfterOne(Limits(AllowedMode, 0, true), c), Faulty(c))
  {
    assert [c][..0] == [] && Effective([]) == (Limits(AllowedMode, 0, true), false);
  }

  /** The limits of a part are at most as strict as those of the whole, except that Forbidden lifts the minimum. */
  lemma PartIsLooser(part: seq<Constraint>, all: seq<Constraint>)
    requires forall c | c in part :: c in all
    ensures var (l, f) := Effective(part);
      var (m, g) := Effective(all);
      && (f ==> g) && (m.allowFallback ==> l.allowFallback)
      && (m.mode.ForbiddenMode? || l.minSpotRatio <= m.minSpotRatio)
      && (m.mode.ForbiddenMode? || m.mode == l.mode || l.mode.AllowedMode?)
  {
    EffectiveAggregates(part);
    EffectiveAggregates(all);
  }

  lemma EachFromAggregate(
    strategy: Option<CapacityStrategy>, all: seq<Constraint>, guardrails: seq<Placement>, g: Placement)
    requires g in guardrails && all == Flatten(guardrails)
    requires Passes(strategy, all) && !Mixed(guardrails)
    ensures Passes(strategy, g)
  {
    FlattenJoins(guardrails);
    PartIsLooser(g, all);
    EffectiveAggregates(g);
    if Effective(all).0.mode.ForbiddenMode? {
      EffectiveAggregates(all);
      var c :| c in all && Forbids(c);
      var h :| h in guardrails && c in h;
      EffectiveAggregates(h);
      assert Effective(h).0.mode.ForbiddenMode?;
      assert !Effective(g).0.mode.RequiredMode?;
    }
  }

  datatype Setting = Fault | NoFallback | Forbidding | Demanding | Minimum(pct: nat)

  predicate ShownBy(k: Setting, c: Constraint) {
    match k
    case Fault => Faulty(c)
    case NoFallback => BlocksFallback(c)
    case Forbidding => Forbids(c)
    case Demanding => Demands(c)
    case Minimum(pct) => MinimumOf(c) == pct
  }

  predicate SetIn(k: Setting, l: Limits, faulty: bool) {
    match k
    case Fault => faulty
    case NoFallback => !l.allowFallback
    case Forbidding => l.mode.ForbiddenMode?
    case Demanding => l.mode.RequiredMode?
    case Minimum(pct) => l.minSpotRatio == pct > 0
  }

  lemma SettingIsShown(k: Setting, all: seq<Constraint>)
    requires SetIn(k, Effective(all).0, Effective(all).1)
    ensures exists c | c in all :: ShownBy(k, c)
  {
    EffectiveAggregates(all);
  }

  lemma ShownIsSet(k: Setting, c: Constraint, part: seq<Constraint>, all: seq<Constraint>)
    requires SetIn(k, Effective(all).0, Effective(all).1)
    requires c in part && ShownBy(k, c) && forall d | d in part :: d in all
    ensures SetIn(k, Effective(part).0, Effective(part).1)
  {
    EffectiveAggregates(part);
    EffectiveAggregates(all);
    PartIsLooser(part, all);
  }

  /** Each strict setting of the whole comes from one guardrail. */
  lemma SettingsHaveSources(guardrails: seq<Placement>, k: Setting)
    requires SetIn(k, Effective(Flatten(guardrails)).0, Effective(Flatten(guardrails)).1)
    ensures exists g | g in guardrails :: SetIn(k, Effective(g).0, Effective(g).1)
  {
    var all := Flatten(guardrails);
    FlattenJoins(guardrails);
    SettingIsShown(k, all);
    var c :| c in all && ShownBy(k, c);
    var g :| g in guardrails && c in g;
    ShownIsSet(k, c, g, all);
  }

  lemma AggregateFromEach(strategy: Option<CapacityStrategy>, all: seq<Constraint>, guardrails: seq<Placement>)
    requires guardrails != [] && all == Flatten(guardrails)
    requires forall g | g in guardrails :: Passes(strategy, g)
    ensures Passes(strategy, all) && !Mixed(guardrails)
  {
    forall k | SetIn(k, Effective(all).0, Effective(all).1)
      ensures exists g | g in guardrails :: SetIn(k, Effective(g).0, Effective(g).1)
    {
      SettingsHaveSources(guardrails, k);
    }
    var (l, f) := Effective(all);
    assert SetIn(Fault, l, f) == f && SetIn(NoFallback, l, f) == !l.allowFallback;
    assert SetIn(Forbidding, l, f) == l.mode.ForbiddenMode? && SetIn(Demanding, l, f) == l.mode.RequiredMode?;
    assert l.minSpotRatio > 0 ==> SetIn(Minimum(l.minSpotRatio), l, f);
    assert Passes(strategy, guardrails[0]);
  }

  method CheckStrategy(strategy: Option<CapacityStrategy>, l: Limits, faulty: bool) returns (v: seq<Violation>)
    ensures v == Check(strategy, l, faulty)
  {
    v := if faulty then [FaultyGuardrail] else [];
    if strategy.None? {
      if l.mode.RequiredMode? {
        v := v + [StrategyRequired];
      }
      return;
    }
    var cs := strategy.value;
    ghost var start := v;
    var csType := if cs.placement.TypeUnset? then Spot else cs.placement;
    var spotRatio, spotRatioValid := 100, true;
    if csType.OnDemand? {
      spotRatio := 0;
    } else if !cs.spotRatio.PercentageUnset? {
      if cs.spotRatio.PercentageInvalid? {
        v := v + [InvalidSpotRatio];
        spotRatioValid := false;
      } else {
        spotRatio := cs.spotRatio.pct;
      }
    }
    var fallbackAction := if cs.fallbackAction.ActionUnset? then Fail else cs.fallbackAction;
    assert csType == TypeOf(cs) && RatioOf(cs) == if spotRatioValid then Some(spotRatio) else None;
    assert v == AddIf(start, RatioOf(cs).None?, InvalidSpotRatio);
    ghost var parsed := v;
    match l.mode {
      case RequiredMode =>
        if !csType.Spot? {
          v := v + [TypeMustBeSpot];
        } else if spotRatioValid && spotRatio == 0 {
          v := v + [RatioIsZero];
        }
      case ForbiddenMode =>
        if csType.Spot? {
          v := v + [SpotForbidden];
        }
      case _ =>
    }
    assert v == ModeViolation(parsed, l.mode, cs);
    ghost var moded := v;
    if csType.Spot? && spotRatioValid && l.minSpotRatio > 0 && spotRatio < l.minSpotRatio {
      v := v + [BelowMinimum];
    }
    assert v == AddIf(moded, BelowMinimumRatio(cs, l), BelowMinimum);
    if !l.allowFallback && fallbackAction.FallbackToOnDemand? {
      v := v + [FallbackDisallowed];
    }
  }

  /** Without guardrails nothing is checked, not even that the ratio parses. */
  method ValidateCapacityStrategy(strategy: Option<CapacityStrategy>, guardrails: seq<Placement>)
    returns (v: seq<Violation>)
    ensures v == if guardrails == [] then [] else
      Check(strategy, Effective(Flatten(guardrails)).0, Effective(Flatten(guardrails)).1)
    ensures (v == [] && !Mixed(guardrails)) <==> (guardrails == [] || forall g | g in guardrails :: Passes(strategy, g))
  {
    if guardrails == [] {
      return [];
    }
    AggregateIsEach(strategy, guardrails);
    SilentIsAccepted(strategy, Effective(Flatten(guardrails)).0, Effective(Flatten(guardrails)).1);
    var l, faulty := GuardrailCapacityConstraints(guardrails);
    v := CheckStrategy(strategy, l, faulty);
  }
}
