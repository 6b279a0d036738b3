/** What a pass guarantees for a Pod, said of the Pod, its class and its PDB alone. */
module PdbGuarantees {
  import opened Wrappers
  import opened Labels
  import opened Types
  import opened Governance
  import opened LeaseTracker
  import opened Pdb
  import opened PdbSpec

  /** The Pod runs or is about to, and no user-created PDB selects it. */
  predicate Unattended(c: Cluster, p: string) {
    && p in c.pods && c.pods[p].deletionTimestamp.None? && (c.pods[p].phase.Pending? || c.pods[p].phase.Running?)
    && forall n | n in c.pdbs && !c.pdbs[n].controller.ByWorkloadClass? :: !Selects(c.pdbs[n].selector, c.pods[p].labels)
  }

  /** The reasons of the Validated condition with which a class protects Pods. */
  predicate Valid(reason: Reason, hasGuardrails: bool) {
    match reason
    case ValidationPassed => true
    case SelectorOverlap => hasGuardrails
    case ValidationFailed => false
    case NoGuardrails => false
    case PluginPending => false
    case OtherReason => false
  }

  /** The PDB is the class's, is labelled with the Pod's uid, selects exactly the Pods that are, and guards unhealthy ones. */
  ghost predicate IsFor(pdb: Pdb, wc: WorkloadClass, uid: string) {
    && pdb.controller == ByWorkloadClass(wc.uid) && pdb.evictionPolicy.IfHealthyBudget?
    && POD_UID_LABEL in pdb.labels && pdb.labels[POD_UID_LABEL] == uid
    && forall labels: LabelMap :: Selects(pdb.selector, labels) <==> POD_UID_LABEL in labels && labels[POD_UID_LABEL] == uid
  }

  lemma ScopedIsFor(pdb: Pdb, wc: WorkloadClass, uid: string)
    requires pdb.controller == ByWorkloadClass(wc.uid) && pdb.evictionPolicy.IfHealthyBudget?
    requires POD_UID_LABEL in pdb.labels && pdb.labels[POD_UID_LABEL] == uid && pdb.selector == Some(UidSelector(uid))
    ensures IsFor(pdb, wc, uid)
  {
    forall labels: LabelMap
      ensures Selects(pdb.selector, labels) <==> POD_UID_LABEL in labels && labels[POD_UID_LABEL] == uid
    {
      UidSelectorSelects(uid, labels);
    }
  }

  /**
   * A class that is not valid opens the PDB of every unattended Pod for which it owns one, so it blocks no eviction,
   * unless the calls for it fail, and then the pass fails.
   */
  lemma InvalidClassOpens(pass: Pass, n: string)
    requires !pass.wc.deleting && !Valid(pass.reason, pass.c.hasGuardrails)
    requires n in pass.c.pdbs && pass.c.pdbs[n].controller == ByWorkloadClass(pass.wc.uid)
    requires var p := PodNameFromPdbName(n);
      Unattended(pass.c, p)
      && (!pass.Fails()
          || (&& ListPdbs !in pass.faults && GetPod(p) !in pass.faults && WritePdb(PdbName(p)) !in pass.faults
              && (PdbName(p) in pass.c.pdbs ==> pass.c.pdbs[PdbName(p)].controller.ByWorkloadClass?)))
    ensures var p := PodNameFromPdbName(n);
      var after := pass.PdbAfter(PdbName(p));
      && after.Some? && after.value.maxUnavailable.Open? && after.value.holder == ""
      && IsFor(after.value, pass.wc, pass.c.pods[p].uid)
  {
    var p := PodNameFromPdbName(n);
    NameRoundTrip(p, n);
    NameRoundTrip(p, PdbName(p));
    assert Eligible(pass.c, pass.c.pods[p]);
    assert pass.Owns(n);
    assert !pass.Fails() ==> !pass.OpenFails(n);
    ScopedIsFor(pass.PdbAfter(PdbName(p)).value, pass.wc, pass.c.pods[p].uid);
  }

  /** A valid class whose listings succeed governs. */
  lemma ValidClassGoverns(pass: Pass)
    requires !pass.wc.deleting && Valid(pass.reason, pass.c.hasGuardrails) && pass.faults == {}
    requires pass.wc.podSelector.Some? ==> ValidSelector(pass.wc.podSelector.value)
    ensures pass.Mode().Governing?
  {
  }

  /**
   * A valid class gives each unattended Pod it is the best match of a PDB that selects this Pod and no other, and
   * that is open without a lease exactly if the class is Ready or Overdue.
   */
  lemma ValidClassProtects(pass: Pass, p: string)
    requires !pass.wc.deleting && Valid(pass.reason, pass.c.hasGuardrails) && pass.faults == {}
    requires WellFormed(pass.c) && pass.wc in pass.c.classes
    requires pass.wc.podSelector.Some? ==> ValidSelector(pass.wc.podSelector.value)
    requires Unattended(pass.c, p) && Best(pass.c, pass.c.pods[p]) == Some(pass.wc)
    requires PdbName(p) in pass.c.pdbs ==>
      pass.c.pdbs[PdbName(p)].controller.ByWorkloadClass? && pass.c.pdbs[PdbName(p)].holder == ""
    requires p !in pass.leases && pass.c.pods[p].uid != ""
    ensures var after, pod := pass.PdbAfter(PdbName(p)), pass.PodAfter(p);
      && after.Some? && after.value.holder == "" && IsFor(after.value, pass.wc, pass.c.pods[p].uid)
      && (after.value.maxUnavailable.Open? <==> pass.wc.readiness.Ready? || pass.wc.readiness.Overdue?)
      && (!after.value.maxUnavailable.Open? ==> after.value.maxUnavailable.Closed?)
      && pod.Some? && Selects(after.value.selector, pod.value.labels)
  {
    ValidClassGoverns(pass);
    NameRoundTrip(p, PdbName(p));
    assert pass.Visits(p);
    UidSelectorSelects(pass.c.pods[p].uid, pass.PodAfter(p).value.labels);
    ScopedIsFor(pass.PdbAfter(PdbName(p)).value, pass.wc, pass.c.pods[p].uid);
  }

  /** After a pass without error, each PDB the class controls belongs to a Pod that is there and unattended. */
  lemma NoPdbIsLeftOver(pass: Pass, n: string)
    requires WellFormed(pass.c) && !pass.wc.deleting && !pass.Fails() && ListPdbs !in pass.faults
    requires pass.PdbAfter(n).Some? && pass.PdbAfter(n).value.controller == ByWorkloadClass(pass.wc.uid)
    ensures var p := PodNameFromPdbName(n);
      && p in pass.c.pods && pass.c.pods[p].deletionTimestamp.None?
      && (pass.c.pods[p].phase.Pending? || pass.c.pods[p].phase.Running?)
      && forall m | m in pass.c.pdbs && !pass.c.pdbs[m].controller.ByWorkloadClass? ::
           !Selects(pass.c.pdbs[m].selector, pass.PodAfter(p).value.labels)
           || !Selects(pass.c.pdbs[m].selector, pass.c.pods[p].labels)
  {
    var p := PodNameFromPdbName(n);
    NameRoundTrip(p, n);
    if pass.Mode().Opening? {
      assert pass.Owns(n) ==> !pass.OpenFails(n);
    } else if pass.Mode().Governing? {
      assert pass.Owns(n) && !pass.VisitsName(n) ==> !pass.DropFails(n);
      assert pass.VisitsName(n) ==> !pass.VisitOutcome(p).failed;
    }
  }

  /**
   * Without faults a valid class deletes one of its PDBs exactly if the Pod the name stands for needs none, or needs
   * one from nobody who would adopt it: it has no best match, or one that is not valid.
   */
  lemma OwnedPdbIsDroppedExactly(pass: Pass, p: string)
    requires !pass.wc.deleting && Valid(pass.reason, pass.c.hasGuardrails) && pass.faults == {} && WellFormed(pass.c)
    requires pass.wc.podSelector.Some? ==> ValidSelector(pass.wc.podSelector.value)
    requires PdbName(p) in pass.c.pdbs && pass.c.pdbs[PdbName(p)].controller == ByWorkloadClass(pass.wc.uid)
    ensures pass.PdbAfter(PdbName(p)).None? <==>
      || !Unattended(pass.c, p)
      || (var best := Best(pass.c, pass.c.pods[p]);
          best.None? || (best.value.name != pass.wc.name
            && !(best.value.validated.Some? && Valid(best.value.validated.value.reason, pass.c.hasGuardrails))))
  {
    ValidClassGoverns(pass);
    NameRoundTrip(p, PdbName(p));
    if p in pass.c.pods {
      assert Unattended(pass.c, p) <==> Eligible(pass.c, pass.c.pods[p]);
    }
  }

  lemma UndisturbedVisitSucceeds(pod: Pod, wc: WorkloadClass, lease: Option<PendingLease>, existing: Option<Pdb>, now: int)
    requires existing.Some? ==> existing.value.controller.ByWorkloadClass?
    ensures !PodOutcome(pod, wc, lease, existing, now, {}).failed
  {
  }

  /** Without faults, and with no name taken by a user, a pass does not fail. */
  lemma UndisturbedPassSucceeds(pass: Pass)
    requires pass.faults == {} && forall p :: PdbName(p) in pass.c.pdbs ==> pass.c.pdbs[PdbName(p)].controller.ByWorkloadClass?
    requires pass.wc.podSelector.Some? ==> ValidSelector(pass.wc.podSelector.value)
    ensures !pass.Fails()
  {
    if pass.Mode().Governing? {
      forall p | p in pass.c.pods ensures !pass.VisitOutcome(p).failed {
        var pod := pass.c.pods[p];
        UndisturbedVisitSucceeds(pod, pass.wc, pass.LeaseFor(pod), Lookup(pass.c.pdbs, PdbName(pod.name)), pass.c.now);
      }
    }
  }

  /** How long a lease lasts: the Pod's remaining grace period, else its configured one, else 30 seconds. */
  function LeaseSeconds(pod: Pod): int {
    match (pod.deletionGraceSeconds, pod.terminationGraceSeconds)
    case (Some(s), Some(t)) => if s > 0 then s else if t > 0 then t else 30
    case (Some(s), None) => if s > 0 then s else 30
    case (None, Some(t)) => if t > 0 then t else 30
    case (None, None) => 30
  }

  /** The first request for a governed Pod that is not leased opens its PDB for the subject, for the time of a lease. */
  lemma RequestIsGranted(pass: Pass, p: string, lease: PendingLease)
    requires pass.Mode().Governing? && pass.faults == {} && pass.Visits(p) && pass.c.pods[p].name == p
    requires p in pass.leases && pass.leases[p] == lease && lease.podUid == pass.c.pods[p].uid
    requires PdbName(p) in pass.c.pdbs ==>
      && pass.c.pdbs[PdbName(p)].controller.ByWorkloadClass?
      && (pass.c.pdbs[PdbName(p)].holder == "" || pass.c.pdbs[PdbName(p)].expiration.None?
          || pass.c.pdbs[PdbName(p)].expiration.value <= pass.c.now
          || !(POD_UID_LABEL in pass.c.pdbs[PdbName(p)].labels)
          || pass.c.pdbs[PdbName(p)].labels[POD_UID_LABEL] != pass.c.pods[p].uid)
    requires pass.c.pods[p].uid != ""
    ensures var after := pass.PdbAfter(PdbName(p));
      && after.Some? && after.value.maxUnavailable.Open? && after.value.holder == BypassOwnerValue(lease.subject)
      && after.value.expiration == Some(pass.c.now + LeaseSeconds(pass.c.pods[p]) * 1_000_000_000)
      && IsFor(after.value, pass.wc, pass.c.pods[p].uid)
  {
    NameRoundTrip(p, PdbName(p));
    ScopedIsFor(pass.PdbAfter(PdbName(p)).value, pass.wc, pass.c.pods[p].uid);
  }

  /** The delay after which a leased Pod is looked at again is the time its lease still has. */
  lemma RemainingIsLeaseTime(pass: Pass, p: string)
    requires pass.Mode().Governing? && pass.Visits(p) && pass.c.pods[p].name == p && !pass.VisitOutcome(p).failed
    requires pass.c.pods[p].uid != ""
    ensures var after, remaining := pass.PdbAfter(PdbName(p)), pass.VisitOutcome(p).remaining;
      && after.Some?
      && (remaining > 0 ==> after.value.holder != "" && after.value.expiration == Some(pass.c.now + remaining))
      && (remaining == 0 ==> after.value.holder == "")
  {
    NameRoundTrip(p, PdbName(p));
    var lease := pass.LeaseFor(pass.c.pods[p]);
    if lease.Some? {
      assert BypassOwnerValue(lease.value.subject) != "";
    }
  }
}
