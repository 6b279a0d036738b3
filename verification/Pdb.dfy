/** Per-Pod PodDisruptionBudgets and the leases recorded on them (internal/utils/pdb.go). */
module Pdb {
  import opened Wrappers
  import opened Labels
  import opened Types

  const PDB_NAME_PREFIX: string := "workload-"
  const POD_UID_LABEL: string := "workloads.gke.io/pod-uid"
  const DEFAULT_LEASE_DURATION: int := 30 * SECOND

  datatype Controller = NoController | ByWorkloadClass(uid: string) | ByOther(uid: string)

  datatype MaxUnavailable = Open | Closed | OtherBudget(value: string) | BudgetUnset

  datatype EvictionPolicy = IfHealthyBudget | AlwaysAllow | PolicyUnset

  /**
   * `holder` and `expiration` are the two bypass annotations: an absent owner reads as "", an absent or
   * unparseable expiration as `None`. `otherRefs` are the owner references that are not the controller.
   */
  datatype Pdb = Pdb(
    labels: LabelMap, controller: Controller, otherRefs: seq<string>, selector: Option<LabelSelector>,
    maxUnavailable: MaxUnavailable, evictionPolicy: EvictionPolicy, holder: string, expiration: Option<int>)

  // ----- Names -----

  function PdbName(pod: string): string {
    PDB_NAME_PREFIX + pod
  }

  predicate HasPrefix(name: string) {
    PDB_NAME_PREFIX <= name
  }

  function PodNameFromPdbName(name: string): string {
    if HasPrefix(name) then name[|PDB_NAME_PREFIX|..] else name
  }

  /** For names that are not truncated, naming is undone by stripping the prefix, in both directions. */
  lemma NameRoundTrip(pod: string, name: string)
    ensures HasPrefix(PdbName(pod)) && PodNameFromPdbName(PdbName(pod)) == pod
    ensures HasPrefix(name) ==> PdbName(PodNameFromPdbName(name)) == name
    ensures PdbName(pod) == name <==> HasPrefix(name) && pod == PodNameFromPdbName(name)
  {
    assert PdbName(pod)[|PDB_NAME_PREFIX|..] == pod;
    if HasPrefix(name) {
      assert name == PDB_NAME_PREFIX + name[|PDB_NAME_PREFIX|..];
    }
  }

  // ----- Ownership and coverage -----

  predicate Managed(pdb: Pdb) {
    pdb.controller.ByWorkloadClass?
  }

  predicate ControlledBy(pdb: Pdb, wc: WorkloadClass) {
    pdb.controller == ByWorkloadClass(wc.uid)
  }

  function LabelOf(labels: LabelMap, key: string): string {
    if key in labels then labels[key] else ""
  }

  /** A user-created PDB selects the Pod. */
  predicate Covered(labels: LabelMap, pdbs: map<string, Pdb>) {
    exists n | n in pdbs :: !Managed(pdbs[n]) && Selects(pdbs[n].selector, labels)
  }

  function UidSelector(uid: string): LabelSelector {
    LabelSelector(map[POD_UID_LABEL := uid], [])
  }

  lemma UidSelectorSelects(uid: string, labels: LabelMap)
    ensures Selects(Some(UidSelector(uid)), labels) <==> Lookup(labels, POD_UID_LABEL) == Some(uid)
  {
    assert POD_UID_LABEL in UidSelector(uid).matchLabels;
  }

  // ----- Leases -----

  function BypassOwnerValue(s: Subject): string {
    if s.kind == "User" then "user:" + s.name
    else if s.kind == "Group" then "group:" + s.name
    else "system:serviceaccount:" + s.namespace + ":" + s.name
  }

  /** The API schema: users and groups have no namespace, and a namespace contains no colon. */
  predicate ValidSubject(s: Subject) {
    && s.kind in {"User", "Group", "ServiceAccount"}
    && (s.kind == "ServiceAccount" ==> ':' !in s.namespace)
    && (s.kind != "ServiceAccount" ==> s.namespace == "")
  }

  lemma ColonPosition(a: string, x: string, i: nat)
    requires ':' !in a && i <= |a| && (a + ":" + x)[i] == ':'
    ensures i == |a|
  {
    assert forall k | 0 <= k < |a| :: a[k] != ':';
  }

  lemma FirstColon(a: string, x: string, b: string, y: string)
    requires ':' !in a && ':' !in b && a + ":" + x == b + ":" + y
    ensures a == b && x == y
  {
    var text := a + ":" + x;
    if |a| <= |b| {
      ColonPosition(b, y, |a|);
    } else {
      ColonPosition(a, x, |b|);
    }
    assert a == text[..|a|] && b == text[..|b|];
    assert x == text[|a| + 1..] && y == text[|b| + 1..];
  }

  /** The annotation identifies its subject, so "the holder" is one subject. */
  lemma BypassOwnerIsInjective(s: Subject, t: Subject)
    requires ValidSubject(s) && ValidSubject(t) && BypassOwnerValue(s) == BypassOwnerValue(t)
    ensures s == t
  {
    assert BypassOwnerValue(s)[0] == BypassOwnerValue(t)[0];
    var v := BypassOwnerValue(s);
    if s.kind == "ServiceAccount" {
      var rest := v[22..];
      assert rest == s.namespace + ":" + s.name;
      assert rest == t.namespace + ":" + t.name;
      FirstColon(s.namespace, s.name, t.namespace, t.name);
    } else if s.kind == "User" {
      assert s.name == v[5..] == t.name;
    } else {
      assert s.name == v[6..] == t.name;
    }
  }

  function LeaseDuration(pod: Pod): (d: int)
    ensures d > 0
  {
    if pod.deletionGraceSeconds.Some? && pod.deletionGraceSeconds.value > 0 then pod.deletionGraceSeconds.value * SECOND
    else if pod.terminationGraceSeconds.Some? && pod.terminationGraceSeconds.value > 0 then
      pod.terminationGraceSeconds.value * SECOND
    else DEFAULT_LEASE_DURATION
  }

  function LeaseTimeRemaining(pdb: Pdb, now: int): (d: int)
    ensures d >= 0
  {
    if pdb.expiration.None? || pdb.expiration.value <= now then 0 else pdb.expiration.value - now
  }

  predicate ForInstance(pdb: Pdb, pod: Pod) {
    LabelOf(pdb.labels, POD_UID_LABEL) == pod.uid
  }

  predicate AllowLease(pdb: Pdb, pod: Pod, now: int) {
    Managed(pdb) && (!ForInstance(pdb, pod) || pdb.holder == "" || LeaseTimeRemaining(pdb, now) <= 0)
  }

  predicate SubjectAlreadyLeasing(pdb: Pdb, pod: Pod, subject: Subject, now: int) {
    && Managed(pdb) && ForInstance(pdb, pod)
    && pdb.holder != "" && pdb.holder == BypassOwnerValue(subject)
    && LeaseTimeRemaining(pdb, now) > 0
  }

  function ActiveLeaseRemaining(pdb: Pdb, pod: Pod, now: int): int {
    if !ForInstance(pdb, pod) || pdb.holder == "" then 0 else LeaseTimeRemaining(pdb, now)
  }

  // ----- What the controller writes -----

  /** PDBBase with nothing else set: what CreateOrUpdate starts from when the PDB does not exist. */
  function NewPdb(pod: Pod): Pdb {
    Pdb(map[POD_UID_LABEL := pod.uid], NoController, [], None, BudgetUnset, PolicyUnset, "", None)
  }

  /** Open exactly when the class is not valid, or is Ready or Overdue. */
  function BudgetFor(readiness: Readiness, isValid: bool): MaxUnavailable {
    if !isValid then Open
    else match readiness
      case Ready => Open
      case Overdue => Open
      case NotReady => Closed
      case ReadinessUnset => Closed
  }

  function Scoped(pdb: Pdb, pod: Pod, wc: WorkloadClass): Pdb {
    pdb.(controller := ByWorkloadClass(wc.uid), labels := pdb.labels[POD_UID_LABEL := pod.uid],
         selector := Some(UidSelector(pod.uid)), evictionPolicy := IfHealthyBudget)
  }

  /** The PDB claimed and synced for the Pod: without a lease, and open as the class says. */
  function Synced(pdb: Pdb, pod: Pod, wc: WorkloadClass, isValid: bool): Pdb {
    Scoped(pdb, pod, wc).(holder := "", expiration := None, maxUnavailable := BudgetFor(wc.readiness, isValid))
  }

  /** The PDB claimed and leased to the subject: open until the lease expires. */
  function Leased(pdb: Pdb, pod: Pod, wc: WorkloadClass, subject: Subject, now: int): Pdb {
    Scoped(pdb, pod, wc).(holder := BypassOwnerValue(subject), expiration := Some(now + LeaseDuration(pod)),
                          maxUnavailable := Open)
  }

  /** A granted lease is at once active for its subject, blocks every other one, and leaves the PDB open. */
  lemma GrantedLeaseIsExclusive(pdb: Pdb, pod: Pod, wc: WorkloadClass, subject: Subject, other: Subject, now: int, t: int)
    requires now <= t
    ensures var leased := Leased(pdb, pod, wc, subject, now);
      && leased.maxUnavailable == Open
      && (t < now + LeaseDuration(pod) ==>
          SubjectAlreadyLeasing(leased, pod, subject, t) && !AllowLease(leased, pod, t))
      && (t >= now + LeaseDuration(pod) ==> AllowLease(leased, pod, t))
      && (SubjectAlreadyLeasing(leased, pod, other, t) ==> BypassOwnerValue(other) == BypassOwnerValue(subject))
  {
    assert BypassOwnerValue(subject) != "";
  }
}
