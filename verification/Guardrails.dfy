/** Disruption guardrails (internal/utils/guardrail.go) and their aggregation by the controller. */
module Guardrails {
  import opened Wrappers
  import opened Types
  import opened Windows

  /** A limit that is not positive, like an empty list of days, does not restrict anything. */
  datatype Guardrail = Guardrail(days: seq<string>, maxWindows: int, maxDays: int)

  datatype Violation =
    | WindowsRequired
    | DaysOutside(windows: seq<DisruptionWindow>)
    | TooManyWindows
    | DisruptedTooRarely
    | DisjointDays

  // ----- What compliance means -----

  /** A window of the class may start on the weekday. Without windows every day is open. */
  predicate MayStartOn(policy: DisruptionPolicy, weekday: string) {
    policy.windows == [] || exists w | w in policy.windows :: w.daysOfWeek == [] || weekday in w.daysOfWeek
  }

  predicate Complies(policy: DisruptionPolicy, g: Guardrail) {
    && (g.days != [] ==> forall d | d in WEEKDAYS && MayStartOn(policy, d) :: d in g.days)
    && (g.maxWindows > 0 ==> |policy.windows| <= g.maxWindows)
    && (g.maxDays > 0 ==> 1 <= policy.maxNonDisruptionDays <= g.maxDays)
  }

  predicate WeekdaysValid(policy: DisruptionPolicy) {
    forall w, d | w in policy.windows && d in w.daysOfWeek :: d in WEEKDAYS
  }

  // ----- The pairwise check -----

  predicate Subset(a: seq<string>, b: seq<string>) {
    forall d | d in a :: d in b
  }

  /** Like the source, which ignores order and duplicates. */
  method IsSubset(subset: seq<string>, superset: seq<string>) returns (yes: bool)
    ensures yes <==> Subset(subset, superset)
  {
    if subset == [] {
      return true;
    }
    var known: set<string> := {};
    for i := 0 to |superset|
      invariant forall d :: d in known <==> d in superset[..i]
    {
      known := known + {superset[i]};
    }
    for i := 0 to |subset|
      invariant forall d | d in subset[..i] :: d in superset
    {
      if subset[i] !in known {
        assert subset[i] in subset && subset[i] !in superset;
        return false;
      }
    }
    return true;
  }

  /** The days a window is active on; an empty list means every day. */
  function ActiveDays(w: DisruptionWindow): seq<string> {
    if w.daysOfWeek == [] then WEEKDAYS else w.daysOfWeek
  }

  function WindowsOutside(days: seq<string>, windows: seq<DisruptionWindow>): seq<DisruptionWindow> {
    if windows == [] then []
    else
      var last := windows[|windows| - 1];
      WindowsOutside(days, windows[..|windows| - 1]) + (if Subset(ActiveDays(last), days) then [] else [last])
  }

  function DaysViolation(days: seq<string>, windows: seq<DisruptionWindow>): seq<Violation> {
    if days == [] then []
    else if windows == [] then (if Subset(WEEKDAYS, days) then [] else [WindowsRequired])
    else
      var outside := WindowsOutside(days, windows);
      if outside == [] then [] else [DaysOutside(outside)]
  }

  function Violations(policy: DisruptionPolicy, g: Guardrail): seq<Violation> {
    DaysViolation(g.days, policy.windows)
    + (if g.maxWindows > 0 && |policy.windows| > g.maxWindows then [TooManyWindows] else [])
    + (if g.maxDays > 0 && (policy.maxNonDisruptionDays <= 0 || policy.maxNonDisruptionDays > g.maxDays)
       then [DisruptedTooRarely] else [])
  }

  method DaysOfWeekViolation(days: seq<string>, windows: seq<DisruptionWindow>) returns (v: seq<Violation>)
    ensures v == DaysViolation(days, windows)
  {
    if days == [] {
      return [];
    }
    if windows == [] {
      var allowed := IsSubset(WEEKDAYS, days);
      return if allowed then [] else [WindowsRequired];
    }
    var outside: seq<DisruptionWindow> := [];
    for i := 0 to |windows|
      invariant outside == WindowsOutside(days, windows[..i])
    {
      assert windows[..i + 1][..i] == windows[..i];
      if windows[i].daysOfWeek == [] {
        var allowed := IsSubset(WEEKDAYS, days);
        if !allowed {
          outside := outside + [windows[i]];
        }
        continue;
      }
      var allowed := IsSubset(windows[i].daysOfWeek, days);
      if !allowed {
        outside := outside + [windows[i]];
      }
    }
    assert windows[..|windows|] == windows;
    return if outside == [] then [] else [DaysOutside(outside)];
  }

  method GuardrailViolations(policy: DisruptionPolicy, g: Guardrail) returns (v: seq<Violation>)
    ensures v == Violations(policy, g)
  {
    v := DaysOfWeekViolation(g.days, policy.windows);
    if g.maxWindows > 0 && |policy.windows| > g.maxWindows {
      v := v + [TooManyWindows];
    }
    if g.maxDays > 0 && (policy.maxNonDisruptionDays <= 0 || policy.maxNonDisruptionDays > g.maxDays) {
      v := v + [DisruptedTooRarely];
    }
  }

  lemma {:induction false} WindowsOutsideAreListed(days: seq<string>, windows: seq<DisruptionWindow>)
    ensures forall w :: w in WindowsOutside(days, windows) <==> w in windows && !Subset(ActiveDays(w), days)
  {
    if windows != [] {
      var n := |windows| - 1;
      WindowsOutsideAreListed(days, windows[..n]);
      assert windows == windows[..n] + [windows[n]];
    }
  }

  lemma NoneOutside(days: seq<string>, windows: seq<DisruptionWindow>)
    ensures WindowsOutside(days, windows) == [] <==> forall w | w in windows :: Subset(ActiveDays(w), days)
  {
    WindowsOutsideAreListed(days, windows);
    var outside := WindowsOutside(days, windows);
    assert outside != [] ==> outside[0] in outside;
  }

  /** The window may start on a day that is not listed. */
  ghost predicate Leaves(w: DisruptionWindow, days: seq<string>) {
    exists d :: d !in days && (d in w.daysOfWeek || (w.daysOfWeek == [] && d in WEEKDAYS))
  }

  /** The windows that a violation names are those that leave the days. */
  lemma OutsideMeans(days: seq<string>, windows: seq<DisruptionWindow>)
    ensures forall w :: w in WindowsOutside(days, windows) <==> w in windows && Leaves(w, days)
    ensures WindowsOutside(days, windows) != [] <==> exists w | w in windows :: Leaves(w, days)
  {
    WindowsOutsideAreListed(days, windows);
    forall w: DisruptionWindow ensures Subset(ActiveDays(w), days) <==> !Leaves(w, days) {
    }
    NoneOutside(days, windows);
  }

  /** When each violation is reported, and which windows it names. */
  predicate Reports(policy: DisruptionPolicy, g: Guardrail, v: Violation) {
    match v
    case WindowsRequired => g.days != [] && policy.windows == [] && exists d | d in WEEKDAYS :: d !in g.days
    case DaysOutside(windows) => g.days != [] && windows == WindowsOutside(g.days, policy.windows) != []
    case TooManyWindows => 0 < g.maxWindows < |policy.windows|
    case DisruptedTooRarely => g.maxDays > 0 && !(1 <= policy.maxNonDisruptionDays <= g.maxDays)
    case DisjointDays => false
  }

  lemma ReportedExactly(policy: DisruptionPolicy, g: Guardrail, v: Violation)
    ensures v in Violations(policy, g) <==> Reports(policy, g, v)
  {
    assert v in DaysViolation(g.days, policy.windows) <==>
      (v.WindowsRequired? || v.DaysOutside?) && Reports(policy, g, v);
  }

  /** With valid day names the check is silent exactly if the class complies. */
  lemma SilentIsCompliant(policy: DisruptionPolicy, g: Guardrail)
    requires WeekdaysValid(policy)
    ensures Violations(policy, g) == [] <==> Complies(policy, g)
  {
    NoneOutside(g.days, policy.windows);
    if g.days != [] && policy.windows != [] {
      forall w | w in policy.windows
        ensures Subset(ActiveDays(w), g.days) <==>
          forall d | d in WEEKDAYS && (w.daysOfWeek == [] || d in w.daysOfWeek) :: d in g.days
      {
      }
    }
  }

  // ----- The aggregate -----

  function Keep(days: seq<string>, allowed: seq<string>): seq<string> {
    if days == [] then []
    else (if days[0] in allowed then [days[0]] else []) + Keep(days[1..], allowed)
  }

  /** The days that all guardrails leave, in the order of `days`. */
  function LeftOf(days: seq<string>, guardrails: seq<Guardrail>): seq<string> {
    if guardrails == [] then days
    else
      var left, last := LeftOf(days, guardrails[..|guardrails| - 1]), guardrails[|guardrails| - 1].days;
      if last == [] then left else Keep(left, last)
  }

  function EffectiveDays(guardrails: seq<Guardrail>): seq<string> {
    LeftOf(WEEKDAYS, guardrails)
  }

  predicate DaysRestricted(guardrails: seq<Guardrail>) {
    exists g | g in guardrails :: g.days != []
  }

  /** `min` is the least positive limit of the guardrails, or 0 if none is positive. */
  predicate Strictest(min: int, guardrails: seq<Guardrail>, limit: Limit) {
    && (forall g | g in guardrails && LimitOf(g, limit) > 0 :: 0 < min <= LimitOf(g, limit))
    && (min == 0 || exists g | g in guardrails :: LimitOf(g, limit) == min > 0)
  }

  datatype Limit = MaxWindows | MaxDays

  function LimitOf(g: Guardrail, limit: Limit): int {
    match limit
    case MaxWindows => g.maxWindows
    case MaxDays => g.maxDays
  }

  /** The stricter of a running limit and one more, where 0 means none. */
  function Tighter(min: int, limit: int): int {
    if limit > 0 && (min == 0 || limit < min) then limit else min
  }

  lemma {:induction false} KeepKeeps(days: seq<string>, allowed: seq<string>)
    ensures forall d :: d in Keep(days, allowed) <==> d in days && d in allowed
  {
    if days != [] {
      KeepKeeps(days[1..], allowed);
    }
  }

  lemma {:induction false} LeftAreCommon(days: seq<string>, guardrails: seq<Guardrail>)
    ensures forall d :: d in LeftOf(days, guardrails) <==>
      d in days && forall g | g in guardrails && g.days != [] :: d in g.days
  {
    if guardrails != [] {
      var n := |guardrails| - 1;
      LeftAreCommon(days, guardrails[..n]);
      KeepKeeps(LeftOf(days, guardrails[..n]), guardrails[n].days);
      assert guardrails == guardrails[..n] + [guardrails[n]];
    }
  }

  lemma EffectiveDaysAreCommon(guardrails: seq<Guardrail>)
    ensures forall d :: d in EffectiveDays(guardrails) <==>
      d in WEEKDAYS && forall g | g in guardrails && g.days != [] :: d in g.days
  {
    LeftAreCommon(WEEKDAYS, guardrails);
  }

  ghost predicate IsEffective(e: Guardrail, guardrails: seq<Guardrail>) {
    && e.days == (if DaysRestricted(guardrails) then EffectiveDays(guardrails) else [])
    && Strictest(e.maxWindows, guardrails, MaxWindows)
    && Strictest(e.maxDays, guardrails, MaxDays)
  }

  /** One guardrail against the running limits. */
  method Tighten(g: Guardrail, days: seq<string>, restricted: bool, minWindows: int, minDuration: int)
    returns (days': seq<string>, restricted': bool, minWindows': int, minDuration': int)
    ensures days' == (if g.days == [] then days else Keep(days, g.days)) && restricted' == (restricted || g.days != [])
    ensures minWindows' == Tighter(minWindows, g.maxWindows) && minDuration' == Tighter(minDuration, g.maxDays)
  {
    days', restricted', minWindows', minDuration' := days, restricted, minWindows, minDuration;
    if g.days != [] {
      restricted' := true;
      days' := DeleteOthers(days, g.days);
    }
    if g.maxWindows > 0 && (minWindows == 0 || g.maxWindows < minWindows) {
      minWindows' := g.maxWindows;
    }
    if g.maxDays > 0 && (minDuration == 0 || g.maxDays < minDuration) {
      minDuration' := g.maxDays;
    }
  }

  /** The strictest limits and the common days, taken in one pass over the guardrails. */
  method Strongest(all: seq<string>, guardrails: seq<Guardrail>)
    returns (days: seq<string>, restricted: bool, minWindows: int, minDuration: int)
    ensures days == LeftOf(all, guardrails) && restricted == DaysRestricted(guardrails)
    ensures Strictest(minWindows, guardrails, MaxWindows) && Strictest(minDuration, guardrails, MaxDays)
  {
    days, restricted, minWindows, minDuration := all, false, 0, 0;
    for i := 0 to |guardrails|
      invariant days == LeftOf(all, guardrails[..i]) && restricted == DaysRestricted(guardrails[..i])
      invariant Strictest(minWindows, guardrails[..i], MaxWindows)
      invariant Strictest(minDuration, guardrails[..i], MaxDays)
    {
      var g := guardrails[i];
      StrictestOfOneMore(guardrails[..i], g, MaxWindows, minWindows);
      StrictestOfOneMore(guardrails[..i], g, MaxDays, minDuration);
      DaysOfOneMore(all, guardrails[..i], g);
      assert guardrails[..i + 1] == guardrails[..i] + [g];
      days, restricted, minWindows, minDuration := Tighten(g, days, restricted, minWindows, minDuration);
    }
    assert guardrails[..|guardrails|] == guardrails;
  }

  lemma DaysOfOneMore(all: seq<string>, guardrails: seq<Guardrail>, g: Guardrail)
    ensures LeftOf(all, guardrails + [g]) ==
      if g.days == [] then LeftOf(all, guardrails) else Keep(LeftOf(all, guardrails), g.days)
    ensures DaysRestricted(guardrails + [g]) <==> DaysRestricted(guardrails) || g.days != []
  {
    var more := guardrails + [g];
    assert more[..|more| - 1] == guardrails && more[|more| - 1] == g;
    assert forall h :: h in more <==> h in guardrails || h == g;
  }

  lemma StrictestOfOneMore(guardrails: seq<Guardrail>, g: Guardrail, limit: Limit, min: int)
    requires Strictest(min, guardrails, limit)
    ensures Strictest(Tighter(min, LimitOf(g, limit)), guardrails + [g], limit)
  {
    assert forall h :: h in guardrails + [g] <==> h in guardrails || h == g;
  }

  method ValidateAgainstGuardrails(policy: DisruptionPolicy, guardrails: seq<Guardrail>)
    returns (v: seq<Violation>, ghost effective: Guardrail)
    ensures guardrails == [] ==> v == []
    ensures IsEffective(effective, guardrails)
    ensures v == (if DaysRestricted(guardrails) && effective.days == [] then [DisjointDays] else [])
                 + Violations(policy, effective)
    ensures v == [] <==>
      && (forall g | g in guardrails :: Violations(policy, g) == [])
      && (DaysRestricted(guardrails) ==> WeekdaysValid(policy))
  {
    effective := Guardrail([], 0, 0);
    if guardrails == [] {
      return [], effective;
    }
    var days, restricted, minWindows, minDuration := Strongest(WEEKDAYS, guardrails);
    if !restricted {
      days := [];
    }
    v := [];
    if restricted && days == [] {
      v := v + [DisjointDays];
    }
    effective := Guardrail(days, minWindows, minDuration);
    var more := GuardrailViolations(policy, Guardrail(days, minWindows, minDuration));
    v := v + more;
    AggregateIsPairwise(policy, guardrails, effective);
  }

  method DeleteOthers(days: seq<string>, allowed: seq<string>) returns (kept: seq<string>)
    ensures kept == Keep(days, allowed)
  {
    kept := [];
    for i := 0 to |days|
      invariant kept + Keep(days[i..], allowed) == Keep(days, allowed)
    {
      if days[i] in allowed {
        kept := kept + [days[i]];
      }
    }
  }

  lemma LimitsAgree(policy: DisruptionPolicy, guardrails: seq<Guardrail>, e: Guardrail)
    requires IsEffective(e, guardrails)
    ensures (e.maxWindows > 0 ==> |policy.windows| <= e.maxWindows) <==>
      forall g | g in guardrails && g.maxWindows > 0 :: |policy.windows| <= g.maxWindows
    ensures (e.maxDays > 0 ==> 1 <= policy.maxNonDisruptionDays <= e.maxDays) <==>
      forall g | g in guardrails && g.maxDays > 0 :: 1 <= policy.maxNonDisruptionDays <= g.maxDays
  {
    assert forall g | g in guardrails && g.maxWindows > 0 :: LimitOf(g, MaxWindows) >= e.maxWindows > 0;
    assert forall g | g in guardrails && g.maxDays > 0 :: LimitOf(g, MaxDays) >= e.maxDays > 0;
  }

  /** Whether the days of `windows` satisfy every guardrail, said with the common days only. */
  lemma DaysAgree(windows: seq<DisruptionWindow>, guardrails: seq<Guardrail>)
    requires DaysRestricted(guardrails)
    ensures (EffectiveDays(guardrails) != [] && DaysViolation(EffectiveDays(guardrails), windows) == []) <==>
      && (forall g | g in guardrails :: DaysViolation(g.days, windows) == [])
      && (forall w, d | w in windows && d in w.daysOfWeek :: d in WEEKDAYS)
  {
    var common := EffectiveDays(guardrails);
    EffectiveDaysAreCommon(guardrails);
    DaysComply(common, windows);
    forall g | g in guardrails
      ensures DaysViolation(g.days, windows) == [] <==>
        (g.days == [] || forall w | w in OrDefault(windows) :: Subset(ActiveDays(w), g.days))
    {
      DaysComply(g.days, windows);
    }
    var first := OrDefault(windows)[0];
    ActiveDaysExist(first);
    var day :| day in ActiveDays(first);
    assert first in OrDefault(windows);
    if forall w | w in OrDefault(windows) :: Subset(ActiveDays(w), common) {
      assert forall w | w in windows :: w in OrDefault(windows);
    }
    if forall g | g in guardrails && g.days != [] :: Subset(ActiveDays(first), g.days) {
      assert day in WEEKDAYS ==> day in common;
    }
  }

  /** Omitting the windows is like one window that names no days. */
  function OrDefault(windows: seq<DisruptionWindow>): seq<DisruptionWindow> {
    if windows == [] then [DisruptionWindow([], None, None, None)] else windows
  }

  lemma DaysComply(days: seq<string>, windows: seq<DisruptionWindow>)
    ensures DaysViolation(days, windows) == [] <==>
      (days == [] || forall w | w in OrDefault(windows) :: Subset(ActiveDays(w), days))
  {
    NoneOutside(days, windows);
    assert OrDefault(windows)[0] in OrDefault(windows);
  }

  lemma ActiveDaysExist(w: DisruptionWindow)
    ensures exists d :: d in ActiveDays(w)
  {
    assert ActiveDays(w)[0] in ActiveDays(w);
  }

  /**
   * The aggregate is silent exactly if each guardrail alone is and, once some guardrail restricts the days, the
   * class names only weekdays.
   */
  lemma AggregateIsPairwise(policy: DisruptionPolicy, guardrails: seq<Guardrail>, e: Guardrail)
    requires IsEffective(e, guardrails)
    ensures ((DaysRestricted(guardrails) ==> e.days != []) && Violations(policy, e) == []) <==>
      && (forall g | g in guardrails :: Violations(policy, g) == [])
      && (DaysRestricted(guardrails) ==> WeekdaysValid(policy))
  {
    LimitsAgree(policy, guardrails, e);
    if DaysRestricted(guardrails) {
      DaysAgree(policy.windows, guardrails);
    }
  }

  /** With an invalid day name that a guardrail also lists, the pairwise check passes and the aggregate does not. */
  lemma InvalidDayNameDiffers(policy: DisruptionPolicy)
    requires |policy.windows| == 1 && policy.windows[0].daysOfWeek == ["Foo"]
    ensures var g := Guardrail(["Monday", "Foo"], 0, 0);
      && Violations(policy, g) == []
      && (forall e :: IsEffective(e, [g]) ==> Violations(policy, e) != [])
  {
    var g := Guardrail(["Monday", "Foo"], 0, 0);
    NoneOutside(g.days, policy.windows);
    assert "Foo" in policy.windows[0].daysOfWeek && policy.windows[0] in policy.windows;
    assert Subset(["Foo"], g.days);
    forall e | IsEffective(e, [g])
      ensures Violations(policy, e) != []
    {
      assert "Foo" !in WEEKDAYS;
      EffectiveDaysAreCommon([g]);
      assert g in [g];
      assert WEEKDAYS[1] in e.days;
      NoneOutside(e.days, policy.windows);
      assert "Foo" !in e.days;
    }
  }

  /** What the guardrails are for: a compliant class with windows is only ever open from a day they all allow. */
  lemma CompliantOpensOnAllowedDays(policy: DisruptionPolicy, guardrails: seq<Guardrail>, t: int)
    requires forall g | g in guardrails :: Complies(policy, g)
    requires policy.windows != [] && InSomeWindow(policy.windows, t)
    ensures exists w, day: int | w in policy.windows && Parses(w) && ActiveOn(w, day) && OpenFrom(w, day, t) ::
      forall g | g in guardrails && g.days != [] :: Weekday(day) in g.days
  {
    var w :| w in policy.windows && Contains(w, t);
    var day: int :| ActiveOn(w, day) && OpenFrom(w, day, t);
    assert MayStartOn(policy, Weekday(day));
    assert forall g | g in guardrails && g.days != [] :: Weekday(day) in g.days;
  }
}
