/** Maintenance readiness of a class (calculateReadiness in internal/controller/workloadclass_controller.go). */
module MaintenanceReadiness {
  import opened Wrappers
  import opened Labels
  import opened Types
  import opened Governance
  import opened PdbSpec
  import opened Windows

  /** The upper bound on undisturbed time has passed; a class without a bound (0) is always overdue. */
  predicate IsOverdue(wc: WorkloadClass, now: int) {
    var limit := wc.policy.maxNonDisruptionDays;
    var since := if wc.lastDisruption.Some? then wc.lastDisruption.value else wc.created;
    limit > 0 ==> now - since > limit * DAY
  }

  /** The class is the Pod's best match, whether or not the Pod is terminating; completed Pods do not count. */
  predicate Counts(c: Cluster, wc: WorkloadClass, pod: Pod) {
    && !pod.phase.Succeeded? && !pod.phase.Failed?
    && Best(c, pod).Some? && Best(c, pod).value.name == wc.name
  }

  /** An active Pod has run for the minimum initial duration. */
  predicate OldEnough(wc: WorkloadClass, pod: Pod, now: int) {
    wc.policy.minInitialRunDays > 0 && IsPodActive(pod) ==> now - pod.created >= wc.policy.minInitialRunDays * DAY
  }

  /** A terminating Pod has had its grace period. */
  predicate Drained(wc: WorkloadClass, pod: Pod, now: int) {
    wc.policy.graceTerminationSeconds > 0 && pod.deletionTimestamp.Some? ==>
      wc.policy.graceTerminationSeconds * SECOND - (now - pod.deletionTimestamp.value) <= 0
  }

  ghost predicate AllSettled(c: Cluster, wc: WorkloadClass) {
    forall p | p in c.pods && Counts(c, wc, c.pods[p]) ::
      OldEnough(wc, c.pods[p], c.now) && Drained(wc, c.pods[p], c.now)
  }

  ghost function ReadinessOf(c: Cluster, wc: WorkloadClass): Readiness {
    if wc.policy.emergencyOverride then Ready
    else if IsOverdue(wc, c.now) then Overdue
    else if InSomeWindow(wc.policy.windows, c.now) && AllSettled(c, wc) then Ready
    else NotReady
  }

  /** Without an override a class is Overdue once its limit has passed since its last disruption, or since it exists. */
  lemma OverdueMeans(c: Cluster, wc: WorkloadClass)
    requires !wc.policy.emergencyOverride
    ensures wc.policy.maxNonDisruptionDays > 0 && wc.lastDisruption.Some? ==>
      (ReadinessOf(c, wc).Overdue? <==> c.now > wc.lastDisruption.value + wc.policy.maxNonDisruptionDays * DAY)
    ensures wc.policy.maxNonDisruptionDays > 0 && wc.lastDisruption.None? ==>
      (ReadinessOf(c, wc).Overdue? <==> c.now > wc.created + wc.policy.maxNonDisruptionDays * DAY)
    ensures wc.policy.maxNonDisruptionDays <= 0 ==> ReadinessOf(c, wc).Overdue?
  {
  }

  /**
   * A class that is not overdue is Ready exactly in an open window in which each of its running Pods has run for the
   * minimum time, and each of its terminating ones has had its grace period.
   */
  lemma ReadyMeans(c: Cluster, wc: WorkloadClass)
    requires !wc.policy.emergencyOverride && !ReadinessOf(c, wc).Overdue?
    ensures ReadinessOf(c, wc).Ready? || ReadinessOf(c, wc).NotReady?
    ensures ReadinessOf(c, wc).Ready? <==>
      && InSomeWindow(wc.policy.windows, c.now)
      && forall p | p in c.pods && (c.pods[p].phase.Pending? || c.pods[p].phase.Running?)
                    && Best(c, c.pods[p]).Some? && Best(c, c.pods[p]).value.name == wc.name ::
           if c.pods[p].deletionTimestamp.None? then
             wc.policy.minInitialRunDays > 0 ==> c.now >= c.pods[p].created + wc.policy.minInitialRunDays * DAY
           else
             wc.policy.graceTerminationSeconds > 0 ==>
               c.now >= c.pods[p].deletionTimestamp.value + wc.policy.graceTerminationSeconds * SECOND
  {
    forall p | p in c.pods
      ensures Counts(c, wc, c.pods[p]) <==>
        && (c.pods[p].phase.Pending? || c.pods[p].phase.Running?)
        && Best(c, c.pods[p]).Some? && Best(c, c.pods[p]).value.name == wc.name
    {
    }
  }

  lemma OverrideIsReady(c: Cluster, wc: WorkloadClass)
    ensures wc.policy.emergencyOverride ==> ReadinessOf(c, wc).Ready?
  {
  }

  predicate TimedWindows(wc: WorkloadClass) {
    forall w | w in wc.policy.windows :: TimesOfDay(w)
  }

  const EVERYTHING: LabelSelector := LabelSelector(map[], [])

  /** The selector used to list the Pods of a class: an enforced class, or one without a selector, lists all. */
  function PodSelectorOf(c: Cluster, wc: WorkloadClass): Result<LabelSelector> {
    if c.enforcedLabel == Some(wc.name) || wc.podSelector.None? then Ok(EVERYTHING)
    else if ValidSelector(wc.podSelector.value) then Ok(wc.podSelector.value)
    else Err
  }

  /** Listing by that selector drops no Pod whose best match is the class. */
  lemma SelectorListsBestMatches(c: Cluster, wc: WorkloadClass, pod: Pod)
    requires WellFormed(c) && wc in c.classes
    requires Best(c, pod).Some? && Best(c, pod).value.name == wc.name
    ensures PodSelectorOf(c, wc).Ok? && Matches(PodSelectorOf(c, wc).value, pod.labels)
  {
    BestMatchIsListed(pod, c.enforcedLabel, c.classes);
    SameName(c.classes, Best(c, pod).value, wc);
    if c.enforcedLabel.Some? {
      FindFinds(c.classes, c.enforcedLabel.value);
    }
  }

  /** The Pods of the class: listed by its selector, then filtered by best match. */
  method MatchedPods(c: Cluster, wc: WorkloadClass) returns (r: Result<set<string>>)
    requires WellFormed(c) && wc in c.classes
    ensures r.Err? <==> PodSelectorOf(c, wc).Err?
    ensures r.Ok? ==> r.value == set p | p in c.pods && Counts(c, wc, c.pods[p])
  {
    var selector := PodSelectorOf(c, wc);
    if selector.Err? {
      return Err;
    }
    var todo := set p | p in c.pods && Matches(selector.value, c.pods[p].labels);
    ghost var listed := todo;
    var matched: set<string> := {};
    while todo != {}
      invariant todo <= listed
      invariant matched == set p | p in listed - todo && Counts(c, wc, c.pods[p])
    {
      var p :| p in todo;
      todo := todo - {p};
      var pod := c.pods[p];
      if !pod.phase.Succeeded? && !pod.phase.Failed? {
        var best := BestMatch(pod, Enforced(c.classes, c.enforcedLabel), c.classes);
        if best.Some? && best.value.name == wc.name {
          matched := matched + {p};
        }
      }
    }
    forall p | p in c.pods && Counts(c, wc, c.pods[p]) ensures p in listed {
      SelectorListsBestMatches(c, wc, c.pods[p]);
    }
    r := Ok(matched);
  }

  /** Until a Pod that is not settled has had its time, the class is not, whatever else happens to the others. */
  lemma UnsettledUntil(c: Cluster, wc: WorkloadClass, p: string, wait: int)
    requires p in c.pods && Counts(c, wc, c.pods[p])
    requires forall t | c.now <= t < c.now + wait :: !(OldEnough(wc, c.pods[p], t) && Drained(wc, c.pods[p], t))
    ensures NotSettledBefore(c, wc, c.now + wait)
  {
    forall t | c.now <= t < c.now + wait
      ensures !AllSettled(c.(now := t), wc)
    {
      assert Best(c.(now := t), c.pods[p]) == Best(c, c.pods[p]);
      assert Counts(c.(now := t), wc, c.pods[p]);
    }
  }

  /** With the same Pods, the class is not settled at any moment before `end`. */
  ghost predicate NotSettledBefore(c: Cluster, wc: WorkloadClass, end: int) {
    forall t | c.now <= t < end :: !AllSettled(c.(now := t), wc)
  }

  /** The time a terminating Pod still has. */
  function GraceLeft(wc: WorkloadClass, pod: Pod, now: int): int {
    if pod.deletionTimestamp.None? then 0
    else wc.policy.graceTerminationSeconds * SECOND - (now - pod.deletionTimestamp.value)
  }

  /** Whether every one of the Pods has had its grace period, and otherwise the longest time that one still has. */
  method CheckTerminations(c: Cluster, wc: WorkloadClass, pods: set<string>) returns (passed: bool, longest: int)
    requires wc.policy.graceTerminationSeconds > 0 && pods <= c.pods.Keys
    ensures passed <==> forall p | p in pods :: Drained(wc, c.pods[p], c.now)
    ensures !passed ==> longest > 0 && exists p | p in pods :: GraceLeft(wc, c.pods[p], c.now) == longest
  {
    passed, longest := true, 0;
    var todo := pods;
    while todo != {}
      invariant todo <= pods
      invariant passed <==> forall p | p in pods - todo :: Drained(wc, c.pods[p], c.now)
      invariant longest >= 0 && (!passed ==> longest > 0)
      invariant longest > 0 ==> exists p | p in pods - todo :: GraceLeft(wc, c.pods[p], c.now) == longest
    {
      var p :| p in todo;
      todo := todo - {p};
      var ok, remaining := GracePeriodPassed(wc, c.pods[p], c.now);
      passed := passed && ok;
      longest := if remaining > longest then remaining else longest;
    }
  }

  /** Readiness, and a wait before which looking again at the same Pods in an open window is pointless. */
  method CalculateReadiness(c: Cluster, wc: WorkloadClass, listFails: bool) returns (r: Result<Readiness>, wait: int)
    requires WellFormed(c) && wc in c.classes && TimedWindows(wc)
    ensures r.Ok? ==> r.value == ReadinessOf(c, wc)
    ensures r.Err? <==>
      && !wc.policy.emergencyOverride && !IsOverdue(wc, c.now)
      && InSomeWindow(wc.policy.windows, c.now) && (listFails || PodSelectorOf(c, wc).Err?)
    ensures r == Ok(NotReady) ==> wait > 0
    ensures r == Ok(NotReady) && InSomeWindow(wc.policy.windows, c.now) ==> NotSettledBefore(c, wc, c.now + wait)
    ensures r == Ok(NotReady) && !InSomeWindow(wc.policy.windows, c.now) ==> wait <= WEEK
  {
    if wc.policy.emergencyOverride {
      return Ok(Ready), 0;
    }
    if IsOverdue(wc, c.now) {
      return Ok(Overdue), 0;
    }
    var inWindow, nextWindow := IsTimeInWindows(c.now, wc.policy.windows);
    if !inWindow {
      return Ok(NotReady), nextWindow;
    }
    if listFails {
      return Err, 0;
    }
    var matched := MatchedPods(c, wc);
    if matched.Err? {
      return Err, 0;
    }
    if wc.policy.minInitialRunDays > 0 {
      var minRun := wc.policy.minInitialRunDays * DAY;
      var todo := matched.value;
      while todo != {}
        invariant todo <= matched.value
        invariant forall p | p in matched.value - todo :: OldEnough(wc, c.pods[p], c.now)
      {
        var p :| p in todo;
        todo := todo - {p};
        var pod := c.pods[p];
        if IsPodActive(pod) && c.now - pod.created < minRun {
          assert !OldEnough(wc, c.pods[p], c.now);
          UnsettledUntil(c, wc, p, minRun - (c.now - pod.created));
          return Ok(NotReady), minRun - (c.now - pod.created);
        }
      }
    }
    if wc.policy.graceTerminationSeconds > 0 {
      var passed, longest := CheckTerminations(c, wc, matched.value);
      if !passed {
        ghost var last :| last in matched.value && GraceLeft(wc, c.pods[last], c.now) == longest;
        UnsettledUntil(c, wc, last, longest);
        return Ok(NotReady), longest;
      }
    }
    return Ok(Ready), nextWindow;
  }

  method GracePeriodPassed(wc: WorkloadClass, pod: Pod, now: int) returns (ok: bool, remaining: int)
    requires wc.policy.graceTerminationSeconds > 0
    ensures ok <==> Drained(wc, pod, now)
    ensures remaining == GraceLeft(wc, pod, now) && (ok <==> remaining <= 0)
  {
    if pod.deletionTimestamp.None? {
      return true, 0;
    }
    remaining := wc.policy.graceTerminationSeconds * SECOND - (now - pod.deletionTimestamp.value);
    ok := remaining <= 0;
  }
}
