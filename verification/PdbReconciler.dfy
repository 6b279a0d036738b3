/**
 * The reconciliation of Per-Pod PDBs in the form of the source (internal/controller/workloadclass_controller.go):
 * loops of API calls over a shared namespace. `ReconcilePdbs` is proved against the pass of PdbSpec, including
 * every intermediate state it leaves in the API server.
 */
module PdbReconciler {
  import opened Wrappers
  import opened Labels
  import opened Types
  import opened Governance
  import opened LeaseTracker
  import opened Pdb
  import opened PdbSpec

  function Put<V>(m: map<string, V>, k: string, v: Option<V>): map<string, V> {
    if v.Some? then m[k := v.value] else m - {k}
  }

  /** The objects of one namespace. `faults` are the calls that fail; `history` records the PDBs after every write. */
  class ApiServer {
    var pods: map<string, Pod>
    var pdbs: map<string, Pdb>
    var classes: seq<WorkloadClass>
    var enforcedLabel: Option<string>
    var hasGuardrails: bool
    var now: int
    var faults: set<Call>
    ghost var history: seq<map<string, Pdb>>

    ghost function View(): Cluster
      reads this
    {
      Cluster(pods, classes, enforcedLabel, hasGuardrails, pdbs, now)
    }

    method Label(pod: Pod) returns (failed: bool)
      modifies this`pods
      ensures failed <==> LabelPod(pod.name) in faults
      ensures pods == if failed then old(pods) else old(pods)[pod.name := pod]
    {
      failed := LabelPod(pod.name) in faults;
      if !failed {
        pods := pods[pod.name := pod];
      }
    }

    method Write(name: string, pdb: Pdb)
      modifies this`pdbs, this`history
      ensures pdbs == old(pdbs)[name := pdb] && history == old(history) + [pdbs]
    {
      pdbs := pdbs[name := pdb];
      history := history + [pdbs];
    }

    method Delete(name: string)
      modifies this`pdbs, this`history
      ensures pdbs == old(pdbs) - {name} && history == old(history) + [pdbs]
    {
      pdbs := pdbs - {name};
      history := history + [pdbs];
    }
  }

  /** The PDBs have changed under one name only, by at most one write. */
  twostate predicate OneWrite(api: ApiServer, name: string, after: Option<Pdb>)
    reads api
  {
    && api.pdbs == Put(old(api.pdbs), name, after)
    && (api.history == old(api.history) || api.history == old(api.history) + [api.pdbs])
  }

  // ----- Single PDBs -----

  /** Takes over the PDB from another class, and refuses one that is not managed by a WorkloadClass. */
  method ClaimPdb(wc: WorkloadClass, pdb: Pdb, found: bool) returns (failed: bool, claimed: Pdb)
    ensures failed <==> found && !Managed(pdb)
    ensures !failed ==> claimed == pdb.(controller := ByWorkloadClass(wc.uid))
  {
    claimed := pdb;
    if found && !Managed(pdb) {
      return true, claimed;
    }
    if claimed.controller != NoController && claimed.controller != ByWorkloadClass(wc.uid) {
      claimed := claimed.(controller := NoController);
    }
    claimed := claimed.(controller := ByWorkloadClass(wc.uid));
    failed := false;
  }

  method SyncPdbWithWorkloadClass(wc: WorkloadClass, pod: Pod, pdb: Pdb, isValid: bool) returns (r: Pdb)
    ensures r.(controller := ByWorkloadClass(wc.uid)) == Synced(pdb, pod, wc, isValid) && r.controller == pdb.controller
  {
    r := pdb.(labels := pdb.labels[POD_UID_LABEL := pod.uid]);
    r := r.(holder := "", expiration := None);
    r := r.(selector := Some(UidSelector(pod.uid)));
    r := r.(evictionPolicy := IfHealthyBudget);
    if !isValid {
      r := r.(maxUnavailable := Open);
      return;
    }
    if wc.readiness.Ready? || wc.readiness.Overdue? {
      r := r.(maxUnavailable := Open);
    } else {
      r := r.(maxUnavailable := Closed);
    }
  }

  method PdbWithLease(pod: Pod, pdb: Pdb, subject: Subject, now: int, ghost wc: WorkloadClass) returns (r: Pdb)
    ensures r.(controller := ByWorkloadClass(wc.uid)) == Leased(pdb, pod, wc, subject, now)
    ensures r.controller == pdb.controller
  {
    r := pdb.(labels := pdb.labels[POD_UID_LABEL := pod.uid]);
    r := r.(selector := Some(UidSelector(pod.uid)));
    r := r.(evictionPolicy := IfHealthyBudget);
    r := r.(maxUnavailable := Open);
    r := r.(holder := BypassOwnerValue(subject), expiration := Some(now + LeaseDuration(pod)));
  }

  /** CreateOrUpdate of the Pod's PDB: synced with the class, or leased to a subject. */
  method WritePodPdb(api: ApiServer, wc: WorkloadClass, pod: Pod, isValid: bool, subject: Option<Subject>)
    returns (failed: bool)
    modifies api`pdbs, api`history
    ensures var name := PdbName(pod.name);
      var x := Lookup(old(api.pdbs), name);
      var updated := if subject.Some? then Leased(Base(x, pod), pod, wc, subject.value, api.now)
                  else Synced(Base(x, pod), pod, wc, isValid);
      var o := Written(x, updated, name, api.faults, 0);
      failed == o.failed && OneWrite(api, name, o.pdb)
  {
    var name := PdbName(pod.name);
    var pdb := if name in api.pdbs then api.pdbs[name] else NewPdb(pod);
    assert pdb == Base(Lookup(api.pdbs, name), pod);
    var refused, claimed := ClaimPdb(wc, pdb, name in api.pdbs);
    if refused || WritePdb(name) in api.faults {
      assert api.pdbs == Put(api.pdbs, name, Lookup(api.pdbs, name));
      return true;
    }
    if subject.Some? {
      claimed := PdbWithLease(pod, claimed, subject.value, api.now, wc);
    } else {
      claimed := SyncPdbWithWorkloadClass(wc, pod, claimed, isValid);
    }
    api.Write(name, claimed);
    failed := false;
  }

  /** Deletes a PDB if the class still controls it. */
  method DeleteOwned(api: ApiServer, wc: WorkloadClass, name: string) returns (failed: bool)
    modifies api`pdbs, api`history
    ensures failed <==> DeletePdb(name) in api.faults
    ensures OneWrite(api, name,
      if !failed && name in old(api.pdbs) && ControlledBy(old(api.pdbs)[name], wc) then None
      else Lookup(old(api.pdbs), name))
  {
    assert api.pdbs == Put(api.pdbs, name, Lookup(api.pdbs, name));
    if DeletePdb(name) in api.faults {
      return true;
    }
    if name in api.pdbs && ControlledBy(api.pdbs[name], wc) {
      api.Delete(name);
    }
    return false;
  }

  method EnsurePodUidLabel(api: ApiServer, pod: Pod) returns (failed: bool)
    requires Lookup(api.pods, pod.name) == Some(pod)
    modifies api`pods
    ensures failed <==> LabelOf(pod.labels, POD_UID_LABEL) != pod.uid && LabelPod(pod.name) in api.faults
    ensures api.pods == if failed then old(api.pods) else old(api.pods)[pod.name := Patched(pod)]
  {
    if LabelOf(pod.labels, POD_UID_LABEL) == pod.uid {
      assert api.pods == api.pods[pod.name := Patched(pod)];
      return false;
    }
    failed := api.Label(Patched(pod));
  }

  /** The PDB of one governed Pod: leased on request, left alone while leased, synced otherwise. */
  method ReconcilePodPdb(api: ApiServer, wc: WorkloadClass, pod: Pod, lease: Option<PendingLease>)
    returns (failed: bool, remaining: int)
    requires Lookup(api.pods, pod.name) == Some(pod)
    modifies api`pods, api`pdbs, api`history
    ensures var o := PodOutcome(pod, wc, lease, Lookup(old(api.pdbs), PdbName(pod.name)), api.now, api.faults);
      && failed == o.failed && remaining == o.remaining
      && OneWrite(api, PdbName(pod.name), o.pdb)
      && api.pods == if o.labelled then old(api.pods)[pod.name := Patched(pod)] else old(api.pods)
  {
    var name := PdbName(pod.name);
    var existing := Lookup(api.pdbs, name);
    assert api.pdbs == Put(api.pdbs, name, existing);
    failed := EnsurePodUidLabel(api, pod);
    if failed || GetPdb(name) in api.faults {
      return true, 0;
    }
    if lease.Some? {
      if existing.Some? && SubjectAlreadyLeasing(existing.value, pod, lease.value.subject, api.now) {
        return false, LeaseTimeRemaining(existing.value, api.now);
      } else if existing.None? || AllowLease(existing.value, pod, api.now) {
        failed := WritePodPdb(api, wc, pod, true, Some(lease.value.subject));
        return failed, if failed then 0 else LeaseDuration(pod);
      }
    }
    if existing.Some? && ActiveLeaseRemaining(existing.value, pod, api.now) > 0 {
      return false, ActiveLeaseRemaining(existing.value, pod, api.now);
    }
    failed := WritePodPdb(api, wc, pod, true, None);
    return failed, 0;
  }

  // ----- The Pods a class governs -----

  lemma GovernedIsSelected(c: Cluster, wc: WorkloadClass, pod: Pod)
    requires WellFormed(c) && wc in c.classes && Governs(c, wc, pod)
    ensures Enforced(c.classes, c.enforcedLabel).None? ==> Selects(wc.podSelector, pod.labels)
    ensures Enforced(c.classes, c.enforcedLabel).Some? ==>
        Enforced(c.classes, c.enforcedLabel).value.name == wc.name
  {
    BestMatchIsListed(pod, c.enforcedLabel, c.classes);
    SameName(c.classes, Best(c, pod).value, wc);
  }

  /** Governance is a partition: an eligible Pod with a best match is governed by exactly one class, any other by none. */
  lemma GovernanceIsPartition(c: Cluster, pod: Pod)
    requires WellFormed(c)
    ensures Eligible(c, pod) && Best(c, pod).Some? <==>
      exists wc | wc in c.classes && !wc.deleting :: Governs(c, wc, pod)
    ensures forall a, b | a in c.classes && b in c.classes && Governs(c, a, pod) && Governs(c, b, pod) :: a == b
  {
    BestMatchIsListed(pod, c.enforcedLabel, c.classes);
    if Eligible(c, pod) && Best(c, pod).Some? {
      assert Governs(c, Best(c, pod).value, pod);
    }
    forall a, b | a in c.classes && b in c.classes && Governs(c, a, pod) && Governs(c, b, pod)
      ensures a == b
    {
      SameName(c.classes, a, b);
    }
  }

  /** Lists with the class's selector first: the pre-filter drops no governed Pod. */
  method GovernedPods(api: ApiServer, wc: WorkloadClass, ghost pass: Pass) returns (r: Result<set<string>>)
    requires pass.c == api.View() && pass.wc == wc && pass.faults == api.faults
    requires WellFormed(pass.c) && wc in pass.c.classes
    ensures r.Err? <==> pass.GovernedPodsFails()
    ensures r.Ok? ==> r.value == set p | p in api.pods && pass.Visits(p)
  {
    forall p | p in api.pods && pass.Visits(p)
      ensures pass.GovernedPodsFails() || PreFilter(api.View(), wc, api.pods[p])
    {
      GovernedIsSelected(pass.c, wc, api.pods[p]);
    }
    var enforced := Enforced(api.classes, api.enforcedLabel);
    if enforced.Some? && enforced.value.name != wc.name {
      return Ok({});
    }
    if enforced.None? {
      if wc.podSelector.None? {
        return Ok({});
      }
      if !ValidSelector(wc.podSelector.value) {
        return Err;
      }
    }
    if ListPods in api.faults {
      return Err;
    }
    var listed := set p | p in api.pods && (enforced.None? ==> Matches(wc.podSelector.value, api.pods[p].labels));
    var governed: set<string> := {};
    var todo := listed;
    while todo != {}
      invariant todo <= listed
      invariant governed == set p | p in listed - todo && pass.Visits(p)
    {
      var p :| p in todo;
      todo := todo - {p};
      var pod := api.pods[p];
      if IsPodActive(pod) && !Covered(pod.labels, api.pdbs) {
        var best := BestMatch(pod, enforced, api.classes);
        if best.Some? && best.value.name == wc.name {
          governed := governed + {p};
        }
      }
    }
    return Ok(governed);
  }

  predicate PreFilter(c: Cluster, wc: WorkloadClass, pod: Pod) {
    var enforced := Enforced(c.classes, c.enforcedLabel);
    if enforced.Some? then enforced.value.name == wc.name else Selects(wc.podSelector, pod.labels)
  }
}
