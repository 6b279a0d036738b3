/**
 * What one pass of `reconcilePDBs` does, PDB by PDB. Every name of a PDB is affected independently of the
 * others, so the pass is specified by the functions `PdbAfter` and `PodAfter` of a single name.
 */
module PdbSpec {
  import opened Wrappers
  import opened Labels
  import opened Types
  import opened Governance
  import opened LeaseTracker
  import opened Pdb

  /** One namespace as the API server holds it. */
  datatype Cluster = Cluster(
    pods: map<string, Pod>, classes: seq<WorkloadClass>, enforcedLabel: Option<string>, hasGuardrails: bool,
    pdbs: map<string, Pdb>, now: int)

  predicate UniqueUids(classes: seq<WorkloadClass>) {
    forall i, j | 0 <= i < j < |classes| :: classes[i].uid != classes[j].uid
  }

  predicate WellFormed(c: Cluster) {
    && (forall p | p in c.pods :: c.pods[p].name == p)
    && UniqueNames(c.classes) && UniqueUids(c.classes)
  }

  predicate Protects(reason: Reason, hasGuardrails: bool) {
    reason.ValidationPassed? || (reason.SelectorOverlap? && hasGuardrails)
  }

  predicate PassedValidation(wc: WorkloadClass, hasGuardrails: bool) {
    wc.validated.Some? && Protects(wc.validated.value.reason, hasGuardrails)
  }

  function Best(c: Cluster, pod: Pod): Option<WorkloadClass> {
    BestMatch(pod, Enforced(c.classes, c.enforcedLabel), c.classes)
  }

  /** Active, and not covered by a user-created PDB. */
  predicate Eligible(c: Cluster, pod: Pod) {
    IsPodActive(pod) && !Covered(pod.labels, c.pdbs)
  }

  predicate Governs(c: Cluster, wc: WorkloadClass, pod: Pod) {
    Eligible(c, pod) && Best(c, pod).Some? && Best(c, pod).value.name == wc.name
  }

  /** The Pod carrying its uid as a label, which is what its PDB selects. */
  function Patched(pod: Pod): Pod {
    if LabelOf(pod.labels, POD_UID_LABEL) == pod.uid then pod
    else pod.(labels := pod.labels[POD_UID_LABEL := pod.uid])
  }

  /** The API calls of a pass that can fail. CreateOrUpdate is one call, and so are the Get and Delete of a deletion. */
  datatype Call =
    | ListPdbs | GetNamespace | ListClasses | ListPods
    | GetPod(pod: string) | LabelPod(pod: string) | GetPdb(pdb: string) | WritePdb(pdb: string) | DeletePdb(pdb: string)

  /** The PDB of a Pod afterwards, whether the Pod got its uid label, and what the call returned. */
  datatype Outcome = Outcome(pdb: Option<Pdb>, labelled: bool, failed: bool, remaining: int)

  function Base(existing: Option<Pdb>, pod: Pod): Pdb {
    if existing.Some? then existing.value else NewPdb(pod)
  }

  /** A PDB that exists and is not managed by a WorkloadClass is never written. */
  predicate Writable(existing: Option<Pdb>) {
    existing.None? || Managed(existing.value)
  }

  function Written(existing: Option<Pdb>, updated: Pdb, name: string, faults: set<Call>, remaining: int): Outcome {
    if WritePdb(name) in faults || !Writable(existing) then Outcome(existing, true, true, 0)
    else Outcome(Some(updated), true, false, remaining)
  }

  /** `reconcilePodPDB` on the current PDB of one governed Pod. */
  function PodOutcome(
    pod: Pod, wc: WorkloadClass, lease: Option<PendingLease>, existing: Option<Pdb>, now: int, faults: set<Call>): Outcome
  {
    var name := PdbName(pod.name);
    if LabelOf(pod.labels, POD_UID_LABEL) != pod.uid && LabelPod(pod.name) in faults then
      Outcome(existing, false, true, 0)
    else if GetPdb(name) in faults then
      Outcome(existing, true, true, 0)
    else if lease.Some? && existing.Some? && SubjectAlreadyLeasing(existing.value, pod, lease.value.subject, now) then
      Outcome(existing, true, false, LeaseTimeRemaining(existing.value, now))
    else if lease.Some? && (existing.None? || AllowLease(existing.value, pod, now)) then
      Written(existing, Leased(Base(existing, pod), pod, wc, lease.value.subject, now), name, faults, LeaseDuration(pod))
    else if existing.Some? && ActiveLeaseRemaining(existing.value, pod, now) > 0 then
      Outcome(existing, true, false, ActiveLeaseRemaining(existing.value, pod, now))
    else
      Written(existing, Synced(Base(existing, pod), pod, wc, true), name, faults, 0)
  }

  datatype Mode = Skipping | ListingFailed | Opening | Governing

  /** One call of `reconcilePDBs`: the cluster it starts from, its arguments, and which API calls fail. */
  datatype Pass = Pass(
    c: Cluster, wc: WorkloadClass, reason: Reason, leases: map<string, PendingLease>, faults: set<Call>)
  {
    /** `governedPods` returns an error: an invalid podSelector, or the list call itself. */
    predicate GovernedPodsFails() {
      var e := Enforced(c.classes, c.enforcedLabel);
      && (e.Some? ==> e.value.name == wc.name)
      && (e.None? ==> wc.podSelector.Some?)
      && ((e.None? && !ValidSelector(wc.podSelector.value)) || ListPods in faults)
    }

    function Mode(): Mode {
      if wc.deleting then Skipping
      else if ListPdbs in faults then ListingFailed
      else if !Protects(reason, c.hasGuardrails) then Opening
      else if GetNamespace in faults || ListClasses in faults || GovernedPodsFails() then ListingFailed
      else Governing
    }

    /** The Pod exists and the pass governs it. */
    predicate Visits(p: string) {
      p in c.pods && Governs(c, wc, c.pods[p])
    }

    /** The request for this instance of the Pod, if one was drained. */
    function LeaseFor(pod: Pod): Option<PendingLease> {
      if pod.name in leases && leases[pod.name].podUid == pod.uid then Some(leases[pod.name]) else None
    }

    function VisitOutcome(p: string): Outcome
      requires p in c.pods
    {
      PodOutcome(c.pods[p], wc, LeaseFor(c.pods[p]), Lookup(c.pdbs, PdbName(p)), c.now, faults)
    }

    function PodAfter(p: string): Option<Pod> {
      if Mode().Governing? && Visits(p) && VisitOutcome(p).labelled then Some(Patched(c.pods[p])) else Lookup(c.pods, p)
    }

    predicate Owns(name: string) {
      name in c.pdbs && ControlledBy(c.pdbs[name], wc)
    }

    // ----- A class that does not protect Pods opens its PDBs -----

    predicate Keeps(p: string) {
      p in c.pods && Eligible(c, c.pods[p])
    }

    /** The PDB that is written for an owned PDB: that of the Pod its name stands for. */
    function Target(name: string): string {
      var p := PodNameFromPdbName(name);
      if Keeps(p) then PdbName(p) else name
    }

    function OpenAfter(name: string): Option<Pdb> {
      var x, p := Lookup(c.pdbs, name), PodNameFromPdbName(name);
      if GetPod(p) in faults then x
      else if Owns(name) && !Keeps(p) then
        if DeletePdb(name) in faults then x else None
      else if HasPrefix(name) && Keeps(p) && (Owns(name) || (!HasPrefix(p) && Owns(p))) then
        Written(x, Synced(Base(x, c.pods[p]), c.pods[p], wc, false), name, faults, 0).pdb
      else x
    }

    predicate OpenFails(name: string)
      requires Owns(name)
    {
      var p := PodNameFromPdbName(name);
      || GetPod(p) in faults
      || (Keeps(p) && (WritePdb(PdbName(p)) in faults || !Writable(Lookup(c.pdbs, PdbName(p)))))
      || (!Keeps(p) && DeletePdb(name) in faults)
    }

    // ----- A class that protects Pods drops the PDBs of Pods it no longer governs -----

    /** Another class governs the Pod now and will adopt its PDB. */
    predicate LeftForAnother(p: string) {
      var pod := PodAfter(p);
      && pod.Some? && Eligible(c, pod.value)
      && Best(c, pod.value).Some? && Best(c, pod.value).value.name != wc.name
      && PassedValidation(Best(c, pod.value).value, c.hasGuardrails)
    }

    predicate VisitsName(name: string) {
      HasPrefix(name) && Visits(PodNameFromPdbName(name))
    }

    function DropAfter(name: string): Option<Pdb> {
      var x, p := Lookup(c.pdbs, name), PodNameFromPdbName(name);
      if !Owns(name) || GetPod(p) in faults || LeftForAnother(p) || DeletePdb(name) in faults then x else None
    }

    predicate DropFails(name: string) {
      var p := PodNameFromPdbName(name);
      GetPod(p) in faults || (!LeftForAnother(p) && DeletePdb(name) in faults)
    }

    // ----- The whole pass -----

    function PdbAfter(name: string): Option<Pdb> {
      match Mode()
      case Skipping => Lookup(c.pdbs, name)
      case ListingFailed => Lookup(c.pdbs, name)
      case Opening => OpenAfter(name)
      case Governing =>
        if VisitsName(name) then VisitOutcome(PodNameFromPdbName(name)).pdb else DropAfter(name)
    }

    predicate Fails() {
      match Mode()
      case Skipping => false
      case ListingFailed => true
      case Opening => exists n | n in c.pdbs && Owns(n) :: OpenFails(n)
      case Governing =>
        || (exists p | p in c.pods && Visits(p) :: VisitOutcome(p).failed)
        || (exists n | n in c.pdbs && Owns(n) && !VisitsName(n) :: DropFails(n))
    }

    /** The request drained for a Pod goes back to the tracker. */
    predicate Reenqueues(p: string) {
      && p in leases
      && (Mode().ListingFailed?
          || (Mode().Governing? && Visits(p) && VisitOutcome(p).failed && LeaseFor(c.pods[p]).Some?))
    }

    function RequestAfter(current: Option<PendingLease>, p: string): Option<PendingLease> {
      if Reenqueues(p) then Some(Keep(current, leases[p])) else current
    }
  }

  /** A state of the PDBs that the pass may leave behind at any moment: each name is as before or as after. */
  ghost predicate Intermediate(pass: Pass, pdbs: map<string, Pdb>) {
    forall n :: Lookup(pdbs, n) == Lookup(pass.c.pdbs, n) || Lookup(pdbs, n) == pass.PdbAfter(n)
  }
}
