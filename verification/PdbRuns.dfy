/**
 * Safety of Per-Pod PDBs over whole runs: passes of any classes, cut short anywhere and with any API failures,
 * any lease requests drained, and an environment that changes Pods, classes, user PDBs and the time in between.
 */
module PdbRuns {
  import opened Wrappers
  import opened Labels
  import opened Types
  import opened Governance
  import opened LeaseTracker
  import opened Pdb
  import opened PdbSpec

  // ----- Runs -----

  /** A pass for a class of the namespace, with the Validated reason that its status shows. */
  predicate PassOf(pass: Pass, c: Cluster) {
    && pass.c == c && pass.wc in c.classes
    && pass.wc.validated.Some? && pass.reason == pass.wc.validated.value.reason
  }

  /** The cluster at any moment of the pass, or after it. */
  ghost predicate PassStep(c: Cluster, c': Cluster, pass: Pass) {
    && PassOf(pass, c)
    && c' == c.(pods := c'.pods, pdbs := c'.pdbs)
    && Intermediate(pass, c'.pdbs)
    && forall p :: Lookup(c'.pods, p) == Lookup(c.pods, p) || Lookup(c'.pods, p) == pass.PodAfter(p)
  }

  predicate OwnerListed(c: Cluster, pdb: Pdb) {
    exists wc | wc in c.classes :: ControlledBy(pdb, wc)
  }

  /** Others never write a managed PDB; it is garbage collected only when its class is gone. */
  ghost predicate EnvironmentStep(c: Cluster, c': Cluster) {
    && WellFormed(c') && c.now <= c'.now
    && (forall n | n in c.pdbs && Managed(c.pdbs[n]) ::
          Lookup(c'.pdbs, n) == Some(c.pdbs[n]) || (n !in c'.pdbs && !OwnerListed(c', c.pdbs[n])))
    && (forall n | n in c'.pdbs && Managed(c'.pdbs[n]) :: n in c.pdbs && Managed(c.pdbs[n]))
  }

  ghost predicate Step(c: Cluster, c': Cluster) {
    EnvironmentStep(c, c') || exists pass :: PassStep(c, c', pass)
  }

  ghost predicate Run(cs: seq<Cluster>) {
    && cs != [] && (forall i | 0 <= i < |cs| :: WellFormed(cs[i]))
    && forall i | 0 <= i < |cs| - 1 :: Step(cs[i], cs[i + 1])
  }

  // ----- No trespass -----

  lemma NoTrespass(pass: Pass, n: string)
    requires n in pass.c.pdbs && !Managed(pass.c.pdbs[n])
    ensures pass.PdbAfter(n) == Some(pass.c.pdbs[n])
  {
    if pass.Mode().Governing? && pass.VisitsName(n) {
      NameRoundTrip(PodNameFromPdbName(n), n);
      assert pass.VisitOutcome(PodNameFromPdbName(n)).pdb == Some(pass.c.pdbs[n]);
    }
  }

  /** Whatever a pass has done so far, user-created PDBs are as they were, and so is which Pods they cover. */
  lemma PassSparesUserPdbs(c: Cluster, c': Cluster, pass: Pass)
    requires PassStep(c, c', pass)
    ensures forall n | n in c.pdbs && !Managed(c.pdbs[n]) :: Lookup(c'.pdbs, n) == Some(c.pdbs[n])
  {
    forall n | n in c.pdbs && !Managed(c.pdbs[n]) ensures Lookup(c'.pdbs, n) == Some(c.pdbs[n]) {
      NoTrespass(pass, n);
    }
  }

  // ----- No protection gap -----

  /** The Pod is active, uncovered, and its best match protects Pods. */
  predicate Guarded(c: Cluster, p: string) {
    && p in c.pods && Eligible(c, c.pods[p])
    && Best(c, c.pods[p]).Some? && PassedValidation(Best(c, c.pods[p]).value, c.hasGuardrails)
  }

  /**
   * The class controls a PDB that carries the Pod's own name, and does not protect Pods: opening its PDBs then
   * writes the PDB of that Pod, whoever owns it.
   */
  predicate Diverts(pass: Pass, p: string) {
    && pass.Mode().Opening? && !HasPrefix(p) && pass.Owns(p)
    && GetPod(p) !in pass.faults && WritePdb(PdbName(p)) !in pass.faults
  }

  lemma PassKeepsProtection(pass: Pass, p: string)
    requires WellFormed(pass.c) && pass.wc in pass.c.classes && Guarded(pass.c, p)
    requires PdbName(p) in pass.c.pdbs && Managed(pass.c.pdbs[PdbName(p)])
    ensures var x, after := pass.c.pdbs[PdbName(p)], pass.PdbAfter(PdbName(p));
      && after.Some? && Managed(after.value)
      && (after.value.controller != x.controller ==>
            ControlledBy(after.value, pass.wc) && (Best(pass.c, pass.c.pods[p]).value == pass.wc || Diverts(pass, p)))
  {
    var n, pod := PdbName(p), pass.c.pods[p];
    NameRoundTrip(p, n);
    BestMatchIsListed(pod, pass.c.enforcedLabel, pass.c.classes);
    if Best(pass.c, pod).value.name == pass.wc.name {
      SameName(pass.c.classes, Best(pass.c, pod).value, pass.wc);
    }
  }

  /** A managed PDB of a guarded Pod exists throughout, in every state of the run. */
  lemma {:induction false} ProtectionIsContinuous(cs: seq<Cluster>, p: string, k: nat)
    requires Run(cs) && k < |cs|
    requires forall i | 0 <= i < |cs| :: Guarded(cs[i], p)
    requires PdbName(p) in cs[0].pdbs && Managed(cs[0].pdbs[PdbName(p)])
    requires forall i | 0 <= i < |cs| - 1 && PdbName(p) in cs[i].pdbs :: OwnerListed(cs[i + 1], cs[i].pdbs[PdbName(p)])
    ensures PdbName(p) in cs[k].pdbs && Managed(cs[k].pdbs[PdbName(p)])
  {
    if k > 0 {
      ProtectionIsContinuous(cs, p, k - 1);
      var c, c' := cs[k - 1], cs[k];
      assert Step(cs[k - 1], cs[k - 1 + 1]);
      if !EnvironmentStep(c, c') {
        var pass :| PassStep(c, c', pass);
        PassKeepsProtection(pass, p);
        assert Lookup(c'.pdbs, PdbName(p)).Some?;
      }
    }
  }

  // ----- Lease stability -----

  /** An unexpired lease on the PDB of this instance of the Pod. */
  predicate Leasing(c: Cluster, p: string, uid: string, holder: string, expiration: int) {
    var n := PdbName(p);
    && n in c.pdbs && Managed(c.pdbs[n]) && LabelOf(c.pdbs[n].labels, POD_UID_LABEL) == uid
    && holder != "" && c.pdbs[n].holder == holder && c.pdbs[n].expiration == Some(expiration)
    && c.pdbs[n].maxUnavailable.Open? && c.now < expiration
  }

  /** This instance of the Pod is guarded, and its PDB's owner, unless it is being deleted, protects Pods too. */
  predicate Shielded(c: Cluster, p: string, uid: string) {
    && Guarded(c, p) && c.pods[p].uid == uid
    && forall wc | wc in c.classes && !wc.deleting && PdbName(p) in c.pdbs && ControlledBy(c.pdbs[PdbName(p)], wc) ::
         PassedValidation(wc, c.hasGuardrails)
  }

  /** A pass leaves an unexpired lease exactly as it is, unless its class diverts the Pod's PDB; then the lease is gone. */
  lemma PassKeepsLease(pass: Pass, p: string, uid: string, holder: string, expiration: int)
    requires WellFormed(pass.c) && PassOf(pass, pass.c)
    requires Shielded(pass.c, p, uid) && Leasing(pass.c, p, uid, holder, expiration)
    ensures pass.PdbAfter(PdbName(p)) == Some(pass.c.pdbs[PdbName(p)]) <==> !Diverts(pass, p)
    ensures Diverts(pass, p) ==>
        pass.PdbAfter(PdbName(p)).Some? && pass.PdbAfter(PdbName(p)).value.holder == ""
  {
    var n, pod := PdbName(p), pass.c.pods[p];
    NameRoundTrip(p, n);
    BestMatchIsListed(pod, pass.c.enforcedLabel, pass.c.classes);
    if pass.Mode().Governing? && pass.Visits(p) {
      var x := pass.c.pdbs[n];
      assert ActiveLeaseRemaining(x, pod, pass.c.now) > 0 && !AllowLease(x, pod, pass.c.now);
      assert pass.VisitOutcome(p).pdb == Some(x);
    }
  }

  /** No live class that fails to protect Pods controls a PDB carrying the Pod's own name. */
  predicate NoDiversion(c: Cluster, p: string) {
    !HasPrefix(p) && p in c.pdbs ==>
      forall wc | wc in c.classes && !wc.deleting && ControlledBy(c.pdbs[p], wc) ::
        PassedValidation(wc, c.hasGuardrails)
  }

  /** What the run has to keep for the lease: the Pod's protection, its time, and the PDB's owner. */
  predicate Undisturbed(c: Cluster, p: string, uid: string, expiration: int) {
    Shielded(c, p, uid) && NoDiversion(c, p) && c.now < expiration
  }

  predicate OwnerStays(c: Cluster, c': Cluster, p: string) {
    PdbName(p) in c.pdbs ==> OwnerListed(c', c.pdbs[PdbName(p)])
  }

  lemma StepKeepsLease(c: Cluster, c': Cluster, p: string, uid: string, holder: string, expiration: int)
    requires WellFormed(c) && Step(c, c') && Leasing(c, p, uid, holder, expiration)
    requires Undisturbed(c, p, uid, expiration) && c'.now < expiration && OwnerStays(c, c', p)
    ensures Leasing(c', p, uid, holder, expiration)
  {
    var n := PdbName(p);
    assert Lookup(c'.pdbs, n) == Lookup(c.pdbs, n) by {
      if !EnvironmentStep(c, c') {
        var pass :| PassStep(c, c', pass);
        PassKeepsLease(pass, p, uid, holder, expiration);
      }
    }
  }

  /** No pass, failure, request or passage of time changes the holder or expiry of the lease or closes the PDB. */
  lemma {:induction false} LeaseIsStable(cs: seq<Cluster>, p: string, uid: string, holder: string, expiration: int, k: nat)
    requires Run(cs) && k < |cs| && Leasing(cs[0], p, uid, holder, expiration)
    requires forall i | 0 <= i < |cs| :: Undisturbed(cs[i], p, uid, expiration)
    requires forall i | 0 <= i < |cs| - 1 :: OwnerStays(cs[i], cs[i + 1], p)
    ensures Leasing(cs[k], p, uid, holder, expiration)
  {
    if k > 0 {
      var j := k - 1;
      LeaseIsStable(cs, p, uid, holder, expiration, j);
      assert Step(cs[j], cs[j + 1]) && OwnerStays(cs[j], cs[j + 1], p);
      assert Undisturbed(cs[j + 1], p, uid, expiration);
      StepKeepsLease(cs[j], cs[j + 1], p, uid, holder, expiration);
    }
  }

  // The condition is needed: class `a` fails validation and controls a PDB named like Pod `foo`, which class `b` governs.

  function ExampleClass(name: string, selector: Option<LabelSelector>, reason: Reason): WorkloadClass {
    WorkloadClass(name, name, false, 0, 1, selector, DisruptionPolicy([], [], 1, 0, 0, false), None, NoProfile, NotReady,
      None, Some(Condition(ConditionTrue, reason, 1)), None, None)
  }

  const EXAMPLE_A: WorkloadClass := ExampleClass("a", None, ValidationFailed)
  const EXAMPLE_B: WorkloadClass := ExampleClass("b", Some(LabelSelector(map[], [])), ValidationPassed)
  const EXAMPLE_POD: Pod :=
    Pod("foo", "u1", map[], 0, None, Running, None, None, "n", map[], [], true, None, None)
  const EXAMPLE_PDBS: map<string, Pdb> := map[
    "foo" := NewPdb(EXAMPLE_POD).(controller := ByWorkloadClass("a")),
    PdbName("foo") := Leased(NewPdb(EXAMPLE_POD), EXAMPLE_POD, EXAMPLE_B, Subject("User", "admin", ""), 0)]
  const EXAMPLE: Cluster := Cluster(map["foo" := EXAMPLE_POD], [EXAMPLE_A, EXAMPLE_B], None, true, EXAMPLE_PDBS, 0)

  lemma ExampleBest()
    ensures Best(EXAMPLE, EXAMPLE_POD) == Some(EXAMPLE_B) && Eligible(EXAMPLE, EXAMPLE_POD)
  {
    var classes := [EXAMPLE_A, EXAMPLE_B];
    assert classes[..1] == [EXAMPLE_A];
    assert SelectBest(EXAMPLE_POD.labels, [EXAMPLE_A]) == None;
    assert Candidate(EXAMPLE_B, EXAMPLE_POD.labels);
    assert SelectBest(EXAMPLE_POD.labels, classes) == Some(EXAMPLE_B);
  }

  lemma DiversionEndsLease() returns (pass: Pass)
    ensures PassOf(pass, pass.c) && Shielded(pass.c, "foo", "u1") && PdbName("foo") in pass.c.pdbs
    ensures Leasing(pass.c, "foo", "u1", "user:admin", DEFAULT_LEASE_DURATION) && Diverts(pass, "foo")
    ensures pass.PdbAfter(PdbName("foo")) != Some(pass.c.pdbs[PdbName("foo")])
  {
    pass := Pass(EXAMPLE, EXAMPLE_A, ValidationFailed, map[], {});
    ExampleBest();
    assert "foo" != PdbName("foo") && "a" != "b";
    assert EXAMPLE_A in EXAMPLE.classes && "foo" in EXAMPLE.pods && "foo" in EXAMPLE.pdbs;
    assert pass.Mode().Opening?;
    assert WellFormed(EXAMPLE);
    PassKeepsLease(pass, "foo", "u1", "user:admin", DEFAULT_LEASE_DURATION);
  }

  // ----- What a pass establishes for each governed Pod -----

  /** After a pass without error, the PDB of a governed Pod is leased, or synced: open only if Ready or Overdue. */
  lemma GovernedPdbIsSynced(pass: Pass, p: string)
    requires pass.Mode().Governing? && !pass.Fails() && pass.Visits(p)
    ensures var pod, after := pass.c.pods[p], pass.PdbAfter(PdbName(p));
      && after.Some?
      && (ActiveLeaseRemaining(after.value, pod, pass.c.now) <= 0 ==>
            && ControlledBy(after.value, pass.wc)
            && after.value.selector == Some(UidSelector(pod.uid))
            && after.value.maxUnavailable ==
                 if pass.wc.readiness.Ready? || pass.wc.readiness.Overdue? then Open else Closed)
  {
    NameRoundTrip(p, PdbName(p));
    assert !pass.VisitOutcome(p).failed;
  }

  /** An unexpired lease keeps the request out: the PDB is not this subject's to use. */
  predicate Refused(pass: Pass, p: string, subject: Subject)
    requires p in pass.c.pods
  {
    var x := Lookup(pass.c.pdbs, PdbName(p));
    && x.Some? && ActiveLeaseRemaining(x.value, pass.c.pods[p], pass.c.now) > 0
    && (Managed(x.value) ==> x.value.holder != BypassOwnerValue(subject))
    && pass.PdbAfter(PdbName(p)) == x
  }

  /** Every request drained for a governed instance is granted, already held, refused for a lease, or back in the tracker. */
  lemma RequestIsAccountedFor(pass: Pass, p: string, current: Option<PendingLease>)
    requires pass.Visits(p) && pass.LeaseFor(pass.c.pods[p]).Some?
    requires pass.c.pods[p].name == p
    requires pass.Mode().Governing? || pass.Mode().ListingFailed?
    ensures var pod, subject, after := pass.c.pods[p], pass.leases[p].subject, pass.PdbAfter(PdbName(p));
      || (after.Some? && SubjectAlreadyLeasing(after.value, pod, subject, pass.c.now)
            && (after.value.maxUnavailable.Open? || after == Lookup(pass.c.pdbs, PdbName(p))))
      || Refused(pass, p, subject)
      || (pass.RequestAfter(current, p).Some? && pass.RequestAfter(current, p).value.podUid == pod.uid)
  {
    NameRoundTrip(p, PdbName(p));
    if pass.Mode().Governing? {
      var o := pass.VisitOutcome(p);
      assert pass.PdbAfter(PdbName(p)) == o.pdb;
      assert BypassOwnerValue(pass.leases[p].subject) != "";
    }
  }

  /** When a listing fails nothing is written and every drained request is back. */
  lemma ListingFailureLosesNothing(pass: Pass, p: string, current: Option<PendingLease>)
    requires pass.Mode().ListingFailed? && p in pass.leases
    ensures pass.RequestAfter(current, p).Some? && pass.RequestAfter(current, p).value.podUid == pass.leases[p].podUid
    ensures forall n :: pass.PdbAfter(n) == Lookup(pass.c.pdbs, n)
  {
  }
}
