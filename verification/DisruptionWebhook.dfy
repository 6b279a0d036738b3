/** The decision on an eviction request (internal/webhook/disruption_webhook.go). */
module DisruptionWebhook {
  import opened Wrappers
  import opened Labels
  import opened Types
  import opened Governance
  import opened LeaseTracker
  import opened Pdb
  import opened PdbSpec
  import opened Windows
  import opened MaintenanceReadiness
  import PdbGuarantees
  import PdbRuns

  datatype Decision = Allowed | Denied | Errored

  datatype Request = Request(eviction: bool, pod: string, user: UserInfo)

  /** The lookups of the webhook that can fail. */
  datatype Lookups = Lookups(podFails: bool, classFails: bool, pdbFails: bool)

  // ----- Identity -----

  predicate MatchesIdentity(user: UserInfo, s: Subject) {
    && s.name != ""
    && (match s.kind
        case "User" => s.namespace == "" && user.username == s.name
        case "Group" => s.namespace == "" && s.name in user.groups
        case "ServiceAccount" => user.username == "system:serviceaccount:" + s.namespace + ":" + s.name
        case _ => false)
  }

  /** The subjects of the class's list that the requester is, in the order of the list. */
  function MatchingSubjects(user: UserInfo, subjects: seq<Subject>): seq<Subject> {
    if subjects == [] then []
    else
      var last := subjects[|subjects| - 1];
      MatchingSubjects(user, subjects[..|subjects| - 1]) + (if MatchesIdentity(user, last) then [last] else [])
  }

  lemma {:induction false} MatchingSubjectsMatch(user: UserInfo, subjects: seq<Subject>)
    ensures forall s :: s in MatchingSubjects(user, subjects) <==> s in subjects && MatchesIdentity(user, s)
  {
    if subjects != [] {
      var n := |subjects| - 1;
      MatchingSubjectsMatch(user, subjects[..n]);
      assert subjects == subjects[..n] + [subjects[n]];
    }
  }

  lemma {:induction false} NoSubjectMatches(user: UserInfo, subjects: seq<Subject>)
    requires forall s | s in subjects :: !MatchesIdentity(user, s)
    ensures MatchingSubjects(user, subjects) == []
  {
    if subjects != [] {
      NoSubjectMatches(user, subjects[..|subjects| - 1]);
    }
  }

  const SERVICE_ACCOUNT_PREFIX: string := "system:serviceaccount:"

  /** The users, groups and service accounts that a requester is, as the holder annotation spells them. */
  ghost function Identities(user: UserInfo): iset<string> {
    (iset g | g in user.groups :: "group:" + g)
    + iset{"user:" + user.username}
    + (if SERVICE_ACCOUNT_PREFIX <= user.username then iset{user.username} else iset{})
  }

  lemma AfterPrefix(prefix: string, a: string, b: string)
    requires prefix + a == prefix + b
    ensures a == b
  {
    assert (prefix + a)[|prefix|..] == a && (prefix + b)[|prefix|..] == b;
  }

  /** A requester matches a named subject exactly if the annotation that its lease would leave is one of its own. */
  lemma MatchingIsByIdentity(user: UserInfo, s: Subject)
    ensures MatchesIdentity(user, s) <==>
      && s.name != "" && s.kind in {"User", "Group", "ServiceAccount"}
      && (s.kind != "ServiceAccount" ==> s.namespace == "")
      && BypassOwnerValue(s) in Identities(user)
  {
    var v := BypassOwnerValue(s);
    if s.kind == "User" {
      assert v[0] == 'u' && v[4] == ':';
      if v == "user:" + user.username {
        AfterPrefix("user:", s.name, user.username);
      }
    } else if s.kind == "Group" {
      assert v[0] == 'g';
      forall g | g in user.groups && v == "group:" + g ensures s.name == g {
        AfterPrefix("group:", s.name, g);
      }
    } else {
      assert v[0] == 's';
      assert v == SERVICE_ACCOUNT_PREFIX + (s.namespace + ":" + s.name);
    }
  }

  // ----- Allowed subjects and leases -----

  /** The decision for an allowed subject, and whether a lease is requested for the first matching subject. */
  function DecideForSubjects(pdb: Option<Pdb>, pod: Pod, subjects: seq<Subject>, now: int): (Decision, bool)
    requires subjects != []
  {
    if pdb.None? || !Managed(pdb.value) then (Allowed, false)
    else if exists s | s in subjects :: SubjectAlreadyLeasing(pdb.value, pod, s, now) then (Allowed, false)
    else if !AllowLease(pdb.value, pod, now) then (Denied, false)
    else if pdb.value.maxUnavailable.Open? && ForInstance(pdb.value, pod) then (Allowed, false)
    else (Allowed, true)
  }

  method SomeSubject(subjects: seq<Subject>, p: Subject -> bool) returns (found: bool)
    ensures found <==> exists s | s in subjects :: p(s)
  {
    for i := 0 to |subjects|
      invariant forall s | s in subjects[..i] :: !p(s)
    {
      if p(subjects[i]) {
        return true;
      }
    }
    return false;
  }

  method HandleAuthorizedSubject(
    c: Cluster, key: Key, pod: Pod, subjects: seq<Subject>, pdbFails: bool, tracker: PendingLeaseTracker)
    returns (d: Decision)
    requires subjects != [] && tracker.Valid()
    modifies tracker
    ensures tracker.Valid()
    ensures var found := if pdbFails then None else Lookup(c.pdbs, PdbName(pod.name));
      var (decision, leases) := DecideForSubjects(found, pod, subjects, c.now);
      && d == decision
      && tracker.pending == if leases then Enqueued(old(tracker.pending), key, PendingLease(pod.name, pod.uid, subjects[0]))
                            else old(tracker.pending)
  {
    var name := PdbName(pod.name);
    if pdbFails || name !in c.pdbs {
      return Allowed;
    }
    var pdb := c.pdbs[name];
    if !Managed(pdb) {
      return Allowed;
    }
    var leasing := SomeSubject(subjects, s => SubjectAlreadyLeasing(pdb, pod, s, c.now));
    if leasing {
      return Allowed;
    }
    if !AllowLease(pdb, pod, c.now) {
      return Denied;
    }
    if pdb.maxUnavailable.Open? && ForInstance(pdb, pod) {
      return Allowed;
    }
    var _ := tracker.Enqueue(key, pod.name, pod.uid, subjects[0]);
    return Allowed;
  }

  /**
   * While an instance is leased, an allowed requester gets in exactly if one of its subjects is the holder, and no
   * request, not even the holder's own, asks for another lease.
   */
  lemma OnlyTheHolderGetsIn(c: Cluster, pod: Pod, subjects: seq<Subject>, holder: string, expiration: int)
    requires subjects != [] && PdbRuns.Leasing(c, pod.name, pod.uid, holder, expiration)
    ensures var (decision, leases) := DecideForSubjects(Lookup(c.pdbs, PdbName(pod.name)), pod, subjects, c.now);
      && !leases
      && decision == if exists s :: s in subjects && BypassOwnerValue(s) == holder then Allowed else Denied
  {
    var pdb := c.pdbs[PdbName(pod.name)];
    assert forall s :: SubjectAlreadyLeasing(pdb, pod, s, c.now) <==> BypassOwnerValue(s) == holder;
    assert !AllowLease(pdb, pod, c.now);
  }

  /** What is leased is a PDB of this very instance, to one holder, until the lease expires. */
  predicate LeasedTo(pdb: Pdb, pod: Pod, holder: string, now: int) {
    && pdb.controller.ByWorkloadClass? && LabelOf(pdb.labels, POD_UID_LABEL) == pod.uid
    && holder != "" && pdb.holder == holder && pdb.expiration.Some? && now < pdb.expiration.value
  }

  /** An allowed subject is turned away exactly while the instance is leased to somebody it is not. */
  lemma DeniedExactlyDuringAnothersLease(pdb: Option<Pdb>, pod: Pod, subjects: seq<Subject>, now: int)
    requires subjects != []
    ensures DecideForSubjects(pdb, pod, subjects, now).0 == Denied <==>
      && pdb.Some? && LeasedTo(pdb.value, pod, pdb.value.holder, now)
      && forall s | s in subjects :: BypassOwnerValue(s) != pdb.value.holder
    ensures DecideForSubjects(pdb, pod, subjects, now).0 != Errored
  {
    if pdb.Some? && LeasedTo(pdb.value, pod, pdb.value.holder, now) {
      assert forall s | s in subjects ::
          SubjectAlreadyLeasing(pdb.value, pod, s, now) <==> BypassOwnerValue(s) == pdb.value.holder;
    }
  }

  /** The subject whose request for this instance the tracker keeps: the first one. */
  function FirstRequester(earlier: map<string, PendingLease>, pod: Pod, subject: Subject): Subject {
    if pod.name in earlier && earlier[pod.name].podUid == pod.uid then earlier[pod.name].subject else subject
  }

  /**
   * From the webhook to the PDB: an allowed subject that gets in finds the managed PDB leased to it or open, or the
   * next undisturbed pass that governs the Pod leases the PDB to whoever asked first, and the retry of that subject
   * gets in for as long as the lease lasts.
   */
  lemma LeaseIsObtained(pass: Pass, p: string, subjects: seq<Subject>, pending: Pending, key: Key, t: int)
    requires pass.Mode().Governing? && pass.faults == {} && pass.Visits(p)
    requires pass.c.pods[p].name == p && pass.c.pods[p].uid != "" && subjects != []
    requires PdbName(p) in pass.c.pdbs && pass.c.pdbs[PdbName(p)].controller.ByWorkloadClass?
    requires var pod := pass.c.pods[p];
      var (decision, asks) := DecideForSubjects(Some(pass.c.pdbs[PdbName(p)]), pod, subjects, pass.c.now);
      && decision == Allowed
      && pass.leases == Requests(if asks then Enqueued(pending, key, PendingLease(p, pod.uid, subjects[0])) else pending, key)
    ensures var x, pod, after := pass.c.pdbs[PdbName(p)], pass.c.pods[p], pass.PdbAfter(PdbName(p));
      var winner := FirstRequester(Requests(pending, key), pod, subjects[0]);
      || (exists s | s in subjects :: LeasedTo(x, pod, BypassOwnerValue(s), pass.c.now))
      || (x.maxUnavailable.Open? && LabelOf(x.labels, POD_UID_LABEL) == pod.uid)
      || (&& after.Some? && after.value.maxUnavailable.Open?
          && LeasedTo(after.value, pod, BypassOwnerValue(winner), pass.c.now)
          && (pass.c.now <= t < after.value.expiration.value && winner in subjects ==>
                DecideForSubjects(after, pod, subjects, t) == (Allowed, false)))
  {
    var x, pod := pass.c.pdbs[PdbName(p)], pass.c.pods[p];
    if DecideForSubjects(Some(x), pod, subjects, pass.c.now).1 {
      PdbGuarantees.RequestIsGranted(pass, p, pass.leases[p]);
      var after := pass.PdbAfter(PdbName(p)).value;
      assert LabelOf(after.labels, POD_UID_LABEL) == pod.uid;
    } else {
      assert forall s | s in subjects && SubjectAlreadyLeasing(x, pod, s, pass.c.now) ::
          LeasedTo(x, pod, BypassOwnerValue(s), pass.c.now);
    }
  }

  // ----- The whole decision -----

  /** The class's constraints apply: it did not fail validation for anything but a selector overlap. */
  predicate Enforces(wc: WorkloadClass) {
    !(wc.validated.Some? && wc.validated.value.status.ConditionFalse? && !IsValidated(wc.validated))
  }

  ghost predicate WithinPolicy(wc: WorkloadClass, pod: Pod, now: int) {
    || wc.readiness.Overdue?
    || (InSomeWindow(wc.policy.windows, now)
        && (wc.policy.minInitialRunDays > 0 ==> now - pod.created >= wc.policy.minInitialRunDays * DAY))
  }

  ghost function Decide(c: Cluster, req: Request, faults: Lookups): Decision {
    if !req.eviction then Allowed
    else if faults.podFails || req.pod !in c.pods then Errored
    else if faults.classFails || Best(c, c.pods[req.pod]).None? then Allowed
    else
      var pod, wc := c.pods[req.pod], Best(c, c.pods[req.pod]).value;
      var subjects := MatchingSubjects(req.user, wc.policy.allowedSubjects);
      if !Enforces(wc) || wc.policy.emergencyOverride then Allowed
      else if subjects != [] then
        DecideForSubjects(if faults.pdbFails then None else Lookup(c.pdbs, PdbName(pod.name)), pod, subjects, c.now).0
      else if WithinPolicy(wc, pod, c.now) then Allowed
      else Denied
  }

  predicate AllTimed(c: Cluster) {
    forall wc | wc in c.classes :: TimedWindows(wc)
  }

  /** The lease that the webhook asks the class to grant, if the decision comes to that. */
  ghost function Asked(c: Cluster, namespace: string, req: Request, faults: Lookups): Option<(Key, PendingLease)> {
    if !req.eviction || faults.podFails || req.pod !in c.pods || faults.classFails || Best(c, c.pods[req.pod]).None? then None
    else
      var pod, wc := c.pods[req.pod], Best(c, c.pods[req.pod]).value;
      var subjects := MatchingSubjects(req.user, wc.policy.allowedSubjects);
      var found := if faults.pdbFails then None else Lookup(c.pdbs, PdbName(pod.name));
      if Enforces(wc) && !wc.policy.emergencyOverride && subjects != [] && DecideForSubjects(found, pod, subjects, c.now).1
      then Some((Key(namespace, wc.name), PendingLease(pod.name, pod.uid, subjects[0])))
      else None
  }

  /** The managed PDB of the Pod blocks its eviction, and no lease on it is running. */
  predicate NeedsLease(c: Cluster, pod: Pod) {
    && PdbName(pod.name) in c.pdbs
    && var pdb := c.pdbs[PdbName(pod.name)];
       && pdb.controller.ByWorkloadClass? && !LeasedTo(pdb, pod, pdb.holder, c.now)
       && !(pdb.maxUnavailable.Open? && LabelOf(pdb.labels, POD_UID_LABEL) == pod.uid)
  }

  /**
   * A lease is asked for exactly if a class in force, not overridden, allows a subject that the requester is, and the
   * Pod's PDB needs one; it is asked for this instance and such a subject, and the eviction is let through to the PDB.
   */
  lemma AsksExactly(c: Cluster, namespace: string, req: Request, faults: Lookups)
    ensures Asked(c, namespace, req, faults).Some? <==>
      && req.eviction && faults == Lookups(false, false, false)
      && req.pod in c.pods && Best(c, c.pods[req.pod]).Some? && NeedsLease(c, c.pods[req.pod])
      && var wc := Best(c, c.pods[req.pod]).value;
         && (wc.validated.Some? && wc.validated.value.status.ConditionFalse? ==> wc.validated.value.reason.SelectorOverlap?)
         && !wc.policy.emergencyOverride
         && exists s | s in wc.policy.allowedSubjects :: MatchesIdentity(req.user, s)
    ensures Asked(c, namespace, req, faults).Some? ==>
      var pod, wc, lease := c.pods[req.pod], Best(c, c.pods[req.pod]).value, Asked(c, namespace, req, faults).value.1;
      && Decide(c, req, faults) == Allowed && Asked(c, namespace, req, faults).value.0 == Key(namespace, wc.name)
      && lease.podName == pod.name && lease.podUid == pod.uid
      && lease.subject in wc.policy.allowedSubjects && MatchesIdentity(req.user, lease.subject)
  {
    if req.pod in c.pods && Best(c, c.pods[req.pod]).Some? {
      var pod, wc := c.pods[req.pod], Best(c, c.pods[req.pod]).value;
      var subjects := MatchingSubjects(req.user, wc.policy.allowedSubjects);
      MatchingSubjectsMatch(req.user, wc.policy.allowedSubjects);
      if subjects == [] {
        assert forall s | s in wc.policy.allowedSubjects :: s !in subjects;
      } else {
        assert subjects[0] in subjects;
        LeaseIsNeeded(c, pod, subjects);
      }
    }
  }

  lemma LeaseIsNeeded(c: Cluster, pod: Pod, subjects: seq<Subject>)
    requires subjects != []
    ensures DecideForSubjects(Lookup(c.pdbs, PdbName(pod.name)), pod, subjects, c.now).1 <==> NeedsLease(c, pod)
    ensures NeedsLease(c, pod) ==>
      DecideForSubjects(Lookup(c.pdbs, PdbName(pod.name)), pod, subjects, c.now).0 == Allowed
  {
    var x := Lookup(c.pdbs, PdbName(pod.name));
    if x.Some? && exists s | s in subjects :: SubjectAlreadyLeasing(x.value, pod, s, c.now) {
      var s :| s in subjects && SubjectAlreadyLeasing(x.value, pod, s, c.now);
      assert LeasedTo(x.value, pod, x.value.holder, c.now);
    }
  }

  /** The webhook writes nothing but the lease requests it asks for. */
  method Handle(c: Cluster, namespace: string, req: Request, faults: Lookups, tracker: PendingLeaseTracker)
    returns (d: Decision)
    requires WellFormed(c) && AllTimed(c) && tracker.Valid()
    modifies tracker
    ensures tracker.Valid() && d == Decide(c, req, faults)
    ensures var asked := Asked(c, namespace, req, faults);
      tracker.pending ==
        if asked.Some? then Enqueued(old(tracker.pending), asked.value.0, asked.value.1) else old(tracker.pending)
  {
    if !req.eviction {
      return Allowed;
    }
    if faults.podFails || req.pod !in c.pods {
      return Errored;
    }
    var pod := c.pods[req.pod];
    if faults.classFails {
      return Allowed;
    }
    var best := BestMatch(pod, Enforced(c.classes, c.enforcedLabel), c.classes);
    if best.None? {
      return Allowed;
    }
    var wc := best.value;
    BestMatchIsListed(pod, c.enforcedLabel, c.classes);
    if wc.validated.Some? && wc.validated.value.status.ConditionFalse? && !IsValidated(wc.validated) {
      return Allowed;
    }
    if wc.policy.emergencyOverride {
      return Allowed;
    }
    var subjects: seq<Subject> := [];
    for i := 0 to |wc.policy.allowedSubjects|
      invariant subjects == MatchingSubjects(req.user, wc.policy.allowedSubjects[..i])
      invariant tracker.Valid() && tracker.pending == old(tracker.pending)
    {
      assert wc.policy.allowedSubjects[..i + 1][..i] == wc.policy.allowedSubjects[..i];
      if MatchesIdentity(req.user, wc.policy.allowedSubjects[i]) {
        subjects := subjects + [wc.policy.allowedSubjects[i]];
      }
    }
    assert wc.policy.allowedSubjects[..|wc.policy.allowedSubjects|] == wc.policy.allowedSubjects;
    if subjects != [] {
      d := HandleAuthorizedSubject(c, Key(namespace, wc.name), pod, subjects, faults.pdbFails, tracker);
      return;
    }
    var inWindow, _ := IsTimeInWindows(c.now, wc.policy.windows);
    if wc.readiness.Overdue? {
      return Allowed;
    }
    if !inWindow {
      return Denied;
    }
    if wc.policy.minInitialRunDays > 0 && c.now - pod.created < wc.policy.minInitialRunDays * DAY {
      return Denied;
    }
    return Allowed;
  }

  /**
   * The controller and the webhook agree: once the readiness computed at this moment is persisted as Ready or
   * Overdue, every active Pod of the class may be evicted by anyone the class does not list as a subject.
   */
  lemma ReadinessCoheres(c: Cluster, wc: WorkloadClass, req: Request, faults: Lookups)
    requires WellFormed(c) && wc in c.classes
    requires wc.readiness == ReadinessOf(c, wc) && (wc.readiness.Ready? || wc.readiness.Overdue?)
    requires req.pod in c.pods && IsPodActive(c.pods[req.pod]) && Best(c, c.pods[req.pod]) == Some(wc)
    requires forall s | s in wc.policy.allowedSubjects :: !MatchesIdentity(req.user, s)
    ensures !faults.podFails ==> Decide(c, req, faults) == Allowed
  {
    NoSubjectMatches(req.user, wc.policy.allowedSubjects);
    var pod := c.pods[req.pod];
    if wc.readiness.Ready? && !wc.policy.emergencyOverride {
      assert Counts(c, wc, pod);
      assert OldEnough(wc, pod, c.now);
    }
  }

  /** The instance is leased to somebody who is none of the subjects that the requester is. */
  ghost predicate LeasedElsewhere(c: Cluster, pod: Pod, wc: WorkloadClass, user: UserInfo) {
    && PdbName(pod.name) in c.pdbs
    && var pdb := c.pdbs[PdbName(pod.name)];
       && LeasedTo(pdb, pod, pdb.holder, c.now)
       && forall s | s in wc.policy.allowedSubjects && MatchesIdentity(user, s) :: BypassOwnerValue(s) != pdb.holder
  }

  /**
   * An eviction is turned away exactly by a class in force that is not overridden: from an allowed subject while the
   * Pod is leased to another one, and from anybody else, unless the class is overdue, while no window is open or the
   * Pod is too young. It is an error exactly if the Pod cannot be read.
   */
  lemma DeniedExactly(c: Cluster, req: Request, faults: Lookups)
    ensures Decide(c, req, faults) == Denied <==>
      && req.eviction && !faults.podFails && !faults.classFails
      && req.pod in c.pods && Best(c, c.pods[req.pod]).Some?
      && var pod, wc := c.pods[req.pod], Best(c, c.pods[req.pod]).value;
         && (wc.validated.Some? && wc.validated.value.status.ConditionFalse? ==> wc.validated.value.reason.SelectorOverlap?)
         && !wc.policy.emergencyOverride
         && if exists s | s in wc.policy.allowedSubjects :: MatchesIdentity(req.user, s)
            then !faults.pdbFails && LeasedElsewhere(c, pod, wc, req.user)
            else
              && !wc.readiness.Overdue?
              && (InSomeWindow(wc.policy.windows, c.now) ==>
                    wc.policy.minInitialRunDays > 0 && c.now < pod.created + wc.policy.minInitialRunDays * DAY)
    ensures Decide(c, req, faults) == Errored <==> req.eviction && (faults.podFails || req.pod !in c.pods)
  {
    if req.pod in c.pods && Best(c, c.pods[req.pod]).Some? {
      var pod, wc := c.pods[req.pod], Best(c, c.pods[req.pod]).value;
      var subjects := MatchingSubjects(req.user, wc.policy.allowedSubjects);
      MatchingSubjectsMatch(req.user, wc.policy.allowedSubjects);
      if subjects == [] {
        assert forall s | s in wc.policy.allowedSubjects :: s !in subjects;
      } else {
        assert subjects[0] in subjects;
        var found := if faults.pdbFails then None else Lookup(c.pdbs, PdbName(pod.name));
        DeniedExactlyDuringAnothersLease(found, pod, subjects, c.now);
      }
    }
  }

  /** Outside of its windows a class that is not overdue lets in no one but its subjects, in every readiness. */
  lemma ClosedWindowBlocks(c: Cluster, wc: WorkloadClass, req: Request, faults: Lookups)
    requires req.eviction && req.pod in c.pods && Best(c, c.pods[req.pod]) == Some(wc)
    requires Enforces(wc) && !wc.policy.emergencyOverride && !wc.readiness.Overdue?
    requires !InSomeWindow(wc.policy.windows, c.now)
    requires forall s | s in wc.policy.allowedSubjects :: !MatchesIdentity(req.user, s)
    ensures !faults.podFails && !faults.classFails ==> Decide(c, req, faults) == Denied
  {
    NoSubjectMatches(req.user, wc.policy.allowedSubjects);
  }
}
