/** The loops of `reconcilePDBs`, with lease requests taken from and returned to the tracker. */
module PdbPass {
  import opened Wrappers
  import opened Labels
  import opened Types
  import opened Governance
  import opened LeaseTracker
  import opened Pdb
  import opened PdbSpec
  import opened PdbReconciler

  // ----- Progress of a pass -----

  /** The PDBs named in `done` are as the pass leaves them, all others as it found them. */
  ghost predicate Progress(pdbs: map<string, Pdb>, pass: Pass, done: set<string>) {
    forall n :: Lookup(pdbs, n) == if n in done then pass.PdbAfter(n) else Lookup(pass.c.pdbs, n)
  }

  /** Every state recorded since `start` is an intermediate state of the pass. */
  ghost predicate Recorded(history: seq<map<string, Pdb>>, start: nat, pass: Pass) {
    start <= |history| && forall i | start <= i < |history| :: Intermediate(pass, history[i])
  }

  lemma ProgressStep(before: map<string, Pdb>, after: map<string, Pdb>, pass: Pass, done: set<string>, n: string)
    requires Progress(before, pass, done) && after == Put(before, n, pass.PdbAfter(n))
    ensures Progress(after, pass, done + {n}) && Intermediate(pass, after)
  {
    forall m ensures Lookup(after, m) == if m in done + {n} then pass.PdbAfter(m) else Lookup(pass.c.pdbs, m) {
      assert m != n ==> Lookup(after, m) == Lookup(before, m);
    }
  }

  /** One write of the pass, as the API server records it. */
  lemma WriteStep(before: map<string, Pdb>, history: seq<map<string, Pdb>>, api: ApiServer,
                  pass: Pass, done: set<string>, n: string, start: nat)
    requires Progress(before, pass, done) && Recorded(history, start, pass)
    requires api.pdbs == Put(before, n, pass.PdbAfter(n))
    requires api.history == history || api.history == history + [api.pdbs]
    ensures Progress(api.pdbs, pass, done + {n}) && Recorded(api.history, start, pass)
  {
    ProgressStep(before, api.pdbs, pass, done, n);
  }

  predicate SameInputs(api: ApiServer, pass: Pass)
    reads api
  {
    && api.classes == pass.c.classes && api.enforcedLabel == pass.c.enforcedLabel
    && api.hasGuardrails == pass.c.hasGuardrails && api.now == pass.c.now && api.faults == pass.faults
  }

  // ----- Requests returned to the tracker -----

  /** The requests of the Pods in `done` are as the pass leaves them; nothing else in the tracker has changed. */
  ghost predicate Requeued(current: Pending, before: Pending, key: Key, pass: Pass, done: set<string>) {
    && (forall p :: Lookup(Requests(current, key), p) ==
          if p in done then pass.RequestAfter(Lookup(Requests(before, key), p), p) else Lookup(Requests(before, key), p))
    && (forall k | k != key :: Requests(current, k) == Requests(before, k))
  }

  lemma EnqueueStep(current: Pending, before: Pending, key: Key, pass: Pass, done: set<string>, p: string)
    requires Requeued(current, before, key, pass, done) && p !in done
    requires p in pass.leases && pass.leases[p].podName == p
    ensures pass.Reenqueues(p) ==> Requeued(Enqueued(current, key, pass.leases[p]), before, key, pass, done + {p})
    ensures !pass.Reenqueues(p) ==> Requeued(current, before, key, pass, done + {p})
  {
    var later := Enqueued(current, key, pass.leases[p]);
    forall q ensures q != p ==> Lookup(Requests(later, key), q) == Lookup(Requests(current, key), q) {
    }
    assert forall k | k != key :: Requests(later, k) == Requests(current, k);
  }

  method ReenqueueLeases(tracker: PendingLeaseTracker, key: Key, pending: seq<PendingLease>, ghost pass: Pass)
    requires tracker.Valid() && pass.Mode().ListingFailed?
    requires DistinctPods(pending) && pass.leases == LeaseMap(pending)
    modifies tracker
    ensures tracker.Valid()
    ensures Requeued(tracker.pending, old(tracker.pending), key, pass, pass.leases.Keys)
  {
    ghost var done: set<string> := {};
    for i := 0 to |pending|
      invariant tracker.Valid()
      invariant done == set l | l in pending[..i] :: l.podName
      invariant Requeued(tracker.pending, old(tracker.pending), key, pass, done)
    {
      var lease := pending[i];
      LeaseMapOf(pending, i);
      assert lease.podName !in done by {
        assert forall j | 0 <= j < i :: pending[j].podName != lease.podName;
      }
      EnqueueStep(tracker.pending, old(tracker.pending), key, pass, done, lease.podName);
      var _ := tracker.Enqueue(key, lease.podName, lease.podUid, lease.subject);
      done := done + {lease.podName};
      assert pending[..i + 1] == pending[..i] + [lease];
    }
    assert pending[..|pending|] == pending;
    LeaseMapKeys(pending);
  }

  predicate DistinctPods(pending: seq<PendingLease>) {
    forall i, j | 0 <= i < j < |pending| :: pending[i].podName != pending[j].podName
  }

  function LeaseMap(pending: seq<PendingLease>): map<string, PendingLease> {
    if pending == [] then map[]
    else
      var l := pending[|pending| - 1];
      LeaseMap(pending[..|pending| - 1])[l.podName := l]
  }

  lemma {:induction false} LeaseMapKeys(pending: seq<PendingLease>)
    ensures LeaseMap(pending).Keys == set l | l in pending :: l.podName
  {
    if pending != [] {
      var n := |pending| - 1;
      LeaseMapKeys(pending[..n]);
      assert pending == pending[..n] + [pending[n]];
    }
  }

  lemma {:induction false} LeaseMapOf(pending: seq<PendingLease>, i: nat)
    requires DistinctPods(pending) && i < |pending|
    ensures pending[i].podName in LeaseMap(pending) && LeaseMap(pending)[pending[i].podName] == pending[i]
  {
    if i < |pending| - 1 {
      LeaseMapOf(pending[..|pending| - 1], i);
    }
  }

  lemma {:induction false} LeaseMapIsFiled(pending: seq<PendingLease>)
    ensures forall p | p in LeaseMap(pending) :: LeaseMap(pending)[p].podName == p
  {
    if pending != [] {
      LeaseMapIsFiled(pending[..|pending| - 1]);
    }
  }

  // ----- A class that does not protect Pods -----

  /** A sync forgets whatever an earlier sync, by any class, has written. */
  lemma SyncedTwice(pdb: Pdb, pod: Pod, first: WorkloadClass, wc: WorkloadClass, v: bool, isValid: bool)
    ensures Synced(Synced(pdb, pod, first, v), pod, wc, isValid) == Synced(pdb, pod, wc, isValid)
  {
    assert pdb.labels[POD_UID_LABEL := pod.uid][POD_UID_LABEL := pod.uid] == pdb.labels[POD_UID_LABEL := pod.uid];
  }

  /** Syncing the target of an owned PDB, whether or not another owned PDB with the same target came first. */
  lemma OpenStep(pass: Pass, m: string, x: Option<Pdb>)
    requires WellFormed(pass.c) && pass.Mode().Opening? && pass.Owns(m)
    requires GetPod(PodNameFromPdbName(m)) !in pass.faults && pass.Keeps(PodNameFromPdbName(m))
    requires x == Lookup(pass.c.pdbs, pass.Target(m)) || x == pass.PdbAfter(pass.Target(m))
    ensures var pod := pass.c.pods[PodNameFromPdbName(m)];
      var o := Written(x, Synced(Base(x, pod), pod, pass.wc, false), PdbName(pod.name), pass.faults, 0);
      pass.Target(m) == PdbName(pod.name) && o.pdb == pass.PdbAfter(pass.Target(m)) && o.failed == pass.OpenFails(m)
  {
    var p, t := PodNameFromPdbName(m), pass.Target(m);
    NameRoundTrip(p, m);
    NameRoundTrip(p, t);
    SyncedTwice(Base(Lookup(pass.c.pdbs, t), pass.c.pods[p]), pass.c.pods[p], pass.wc, pass.wc, false, false);
    assert !HasPrefix(m) ==> p == m;
  }

  lemma OpenUntouched(pass: Pass, done: set<string>, n: string)
    requires pass.Mode().Opening? && n !in done
    requires forall m | pass.Owns(m) :: pass.Target(m) in done
    ensures pass.PdbAfter(n) == Lookup(pass.c.pdbs, n)
  {
    var p := PodNameFromPdbName(n);
    NameRoundTrip(p, n);
    if pass.Owns(n) {
      assert pass.Target(n) in done;
    }
    if !HasPrefix(p) && pass.Owns(p) && pass.Keeps(p) {
      assert pass.Target(p) == PdbName(p);
    }
  }

  /** One iteration over the owned PDBs. */
  method OpenOwnedPdb(api: ApiServer, wc: WorkloadClass, m: string, listed: map<string, Pdb>,
                      ghost pass: Pass, ghost done: set<string>, ghost start: nat)
    returns (failed: bool)
    requires SameInputs(api, pass) && api.pods == pass.c.pods && listed == pass.c.pdbs && pass.wc == wc
    requires WellFormed(pass.c) && pass.Mode().Opening? && pass.Owns(m)
    requires Progress(api.pdbs, pass, done) && Recorded(api.history, start, pass)
    modifies api`pdbs, api`history
    ensures Progress(api.pdbs, pass, done + {pass.Target(m)}) && Recorded(api.history, start, pass)
    ensures failed <==> pass.OpenFails(m)
  {
    var p := PodNameFromPdbName(m);
    NameRoundTrip(p, m);
    NameRoundTrip(p, pass.Target(m));
    ghost var before, history := api.pdbs, api.history;
    if GetPod(p) in api.faults {
      assert pass.PdbAfter(pass.Target(m)) == Lookup(pass.c.pdbs, pass.Target(m));
      return true;
    }
    if !(p in api.pods && IsPodActive(api.pods[p]) && !Covered(api.pods[p].labels, listed)) {
      failed := DeleteOwned(api, wc, m);
    } else {
      OpenStep(pass, m, Lookup(api.pdbs, pass.Target(m)));
      failed := WritePodPdb(api, wc, api.pods[p], false, None);
    }
    WriteStep(before, history, api, pass, done, pass.Target(m), start);
  }

  method OpenOwnedPdbs(api: ApiServer, wc: WorkloadClass, owned: set<string>, listed: map<string, Pdb>,
                       ghost pass: Pass, ghost start: nat)
    returns (failed: bool)
    requires pass.c == api.View() && listed == api.pdbs && pass.wc == wc && SameInputs(api, pass) && WellFormed(pass.c)
    requires pass.Mode().Opening? && owned == set n | n in api.pdbs && ControlledBy(api.pdbs[n], wc)
    requires Recorded(api.history, start, pass)
    modifies api`pdbs, api`history
    ensures forall n :: Lookup(api.pdbs, n) == pass.PdbAfter(n)
    ensures Recorded(api.history, start, pass)
    ensures failed <==> pass.Fails()
  {
    failed := false;
    var todo := owned;
    ghost var done: set<string> := {};
    while todo != {}
      invariant todo <= owned && SameInputs(api, pass) && api.pods == pass.c.pods
      invariant forall m | m in owned - todo :: pass.Target(m) in done
      invariant Progress(api.pdbs, pass, done) && Recorded(api.history, start, pass)
      invariant failed <==> exists m | m in owned - todo :: pass.OpenFails(m)
    {
      var m :| m in todo;
      assert pass.Owns(m);
      var error := OpenOwnedPdb(api, wc, m, listed, pass, done, start);
      failed := failed || error;
      done := done + {pass.Target(m)};
      todo := todo - {m};
    }
    forall n | n !in done ensures pass.PdbAfter(n) == Lookup(pass.c.pdbs, n) {
      OpenUntouched(pass, done, n);
    }
    assert forall n | n in pass.c.pdbs :: pass.Owns(n) <==> n in owned;
  }

  // ----- A class that protects Pods -----

  /** The Pods in `done` carry their labels as the pass leaves them, all others are as it found them. */
  ghost predicate Labelled(pods: map<string, Pod>, pass: Pass, done: set<string>) {
    forall p :: Lookup(pods, p) == if p in done then pass.PodAfter(p) else Lookup(pass.c.pods, p)
  }

  ghost function NamesOf(done: set<string>): set<string> {
    set p | p in done :: PdbName(p)
  }

  /** The requeue delay is the least remaining time of a lease among the visited Pods, or 0 when none is leased. */
  ghost predicate EarliestLease(requeue: int, pass: Pass, done: set<string>)
    requires done <= pass.c.pods.Keys
  {
    && 0 <= requeue
    && (forall p | p in done && pass.VisitOutcome(p).remaining > 0 :: 0 < requeue <= pass.VisitOutcome(p).remaining)
    && (requeue > 0 ==> exists p | p in done :: pass.VisitOutcome(p).remaining == requeue)
  }

  ghost predicate SomeFailed(pass: Pass, done: set<string>)
    requires done <= pass.c.pods.Keys
  {
    exists p | p in done :: pass.VisitOutcome(p).failed
  }

  lemma EarliestStep(requeue: int, failed: bool, pass: Pass, done: set<string>, p: string)
    requires done <= pass.c.pods.Keys && p in pass.c.pods
    requires EarliestLease(requeue, pass, done) && failed == SomeFailed(pass, done)
    ensures EarliestLease(MinPositiveDuration(requeue, pass.VisitOutcome(p).remaining), pass, done + {p})
    ensures (failed || pass.VisitOutcome(p).failed) == SomeFailed(pass, done + {p})
  {
    var o := pass.VisitOutcome(p);
    assert o.remaining >= 0;
    assert forall q | q in done + {p} :: q in done || pass.VisitOutcome(q) == o;
  }

  /** Everything a visit of the Pods in `done` has changed, in the API server and in the tracker. */
  ghost predicate Visited(api: ApiServer, tracker: PendingLeaseTracker, pass: Pass, done: set<string>, start: nat,
                          key: Key, requests: Pending)
    reads api, tracker
  {
    && SameInputs(api, pass) && tracker.Valid()
    && Progress(api.pdbs, pass, NamesOf(done)) && Recorded(api.history, start, pass)
    && Labelled(api.pods, pass, done)
    && Requeued(tracker.pending, requests, key, pass, done)
  }

  lemma VisitedName(pass: Pass, done: set<string>, p: string)
    requires pass.Mode().Governing? && pass.Visits(p) && p !in done
    ensures pass.PdbAfter(PdbName(p)) == pass.VisitOutcome(p).pdb
    ensures PdbName(p) !in NamesOf(done) && NamesOf(done + {p}) == NamesOf(done) + {PdbName(p)}
  {
    var name := PdbName(p);
    NameRoundTrip(p, name);
    forall q | q in done ensures PdbName(q) != name {
      NameRoundTrip(q, name);
    }
  }

  lemma LabelStep(before: map<string, Pod>, after: map<string, Pod>, pass: Pass, done: set<string>, p: string)
    requires pass.Mode().Governing? && pass.Visits(p) && Labelled(before, pass, done)
    requires after == if pass.VisitOutcome(p).labelled then before[p := Patched(pass.c.pods[p])] else before
    requires p !in done
    ensures Labelled(after, pass, done + {p})
  {
    assert pass.PodAfter(p)
        == if pass.VisitOutcome(p).labelled then Some(Patched(pass.c.pods[p])) else Some(pass.c.pods[p]);
  }

  method VisitPdb(api: ApiServer, wc: WorkloadClass, p: string, lease: Option<PendingLease>,
                  ghost pass: Pass, ghost done: set<string>, ghost start: nat)
    returns (failed: bool, remaining: int)
    requires SameInputs(api, pass) && pass.wc == wc && WellFormed(pass.c)
    requires pass.Mode().Governing? && pass.Visits(p) && p !in done && lease == pass.LeaseFor(pass.c.pods[p])
    requires Progress(api.pdbs, pass, NamesOf(done)) && Recorded(api.history, start, pass)
    requires Labelled(api.pods, pass, done)
    modifies api`pods, api`pdbs, api`history
    ensures Progress(api.pdbs, pass, NamesOf(done + {p})) && Recorded(api.history, start, pass)
    ensures Labelled(api.pods, pass, done + {p})
    ensures failed == pass.VisitOutcome(p).failed && remaining == pass.VisitOutcome(p).remaining
  {
    var name := PdbName(p);
    VisitedName(pass, done, p);
    assert Lookup(api.pods, p) == Lookup(pass.c.pods, p);
    ghost var pods, before, history := api.pods, api.pdbs, api.history;
    failed, remaining := ReconcilePodPdb(api, wc, api.pods[p], lease);
    WriteStep(before, history, api, pass, NamesOf(done), name, start);
    LabelStep(pods, api.pods, pass, done, p);
  }

  /** One governed Pod: its PDB, its label, and the fate of its request. */
  method VisitPod(api: ApiServer, tracker: PendingLeaseTracker, key: Key, wc: WorkloadClass, p: string,
                  leases: map<string, PendingLease>, ghost pass: Pass, ghost done: set<string>, ghost start: nat,
                  ghost requests: Pending)
    returns (failed: bool, remaining: int)
    requires Visited(api, tracker, pass, done, start, key, requests)
    requires pass.wc == wc && pass.leases == leases && WellFormed(pass.c)
    requires pass.Mode().Governing? && pass.Visits(p) && p !in done
    requires forall q | q in leases :: leases[q].podName == q
    modifies api`pods, api`pdbs, api`history, tracker
    ensures Visited(api, tracker, pass, done + {p}, start, key, requests)
    ensures failed == pass.VisitOutcome(p).failed && remaining == pass.VisitOutcome(p).remaining
  {
    assert Lookup(api.pods, p) == Lookup(pass.c.pods, p);
    var uid := api.pods[p].uid;
    var lease := if p in leases && leases[p].podUid == uid then Some(leases[p]) else None;
    assert lease == pass.LeaseFor(pass.c.pods[p]);
    failed, remaining := VisitPdb(api, wc, p, lease, pass, done, start);
    assert pass.Reenqueues(p) <==> failed && lease.Some?;
    if p in leases {
      EnqueueStep(tracker.pending, requests, key, pass, done, p);
    }
    if failed && lease.Some? {
      var _ := tracker.Enqueue(key, lease.value.podName, lease.value.podUid, lease.value.subject);
    }
  }

  /** One iteration: the Pod is visited, and its error and its lease's remaining time are joined to the others'. */
  method VisitNext(api: ApiServer, tracker: PendingLeaseTracker, key: Key, wc: WorkloadClass, p: string,
                   leases: map<string, PendingLease>, failed: bool, requeue: int, ghost pass: Pass,
                   ghost done: set<string>, ghost start: nat, ghost requests: Pending)
    returns (failed': bool, requeue': int)
    requires Visited(api, tracker, pass, done, start, key, requests)
    requires pass.wc == wc && pass.leases == leases && WellFormed(pass.c)
    requires pass.Mode().Governing? && pass.Visits(p) && p !in done && done <= pass.c.pods.Keys
    requires forall q | q in leases :: leases[q].podName == q
    requires failed == SomeFailed(pass, done) && EarliestLease(requeue, pass, done)
    modifies api`pods, api`pdbs, api`history, tracker
    ensures Visited(api, tracker, pass, done + {p}, start, key, requests)
    ensures failed' == SomeFailed(pass, done + {p}) && EarliestLease(requeue', pass, done + {p})
  {
    var error, remaining := VisitPod(api, tracker, key, wc, p, leases, pass, done, start, requests);
    EarliestStep(requeue, failed, pass, done, p);
    failed' := failed || error;
    requeue' := MinPositiveDuration(requeue, remaining);
  }

  lemma NothingVisited(api: ApiServer, tracker: PendingLeaseTracker, pass: Pass, start: nat, key: Key)
    requires SameInputs(api, pass) && pass.c == api.View()
    requires tracker.Valid() && Recorded(api.history, start, pass)
    ensures Visited(api, tracker, pass, {}, start, key, tracker.pending)
  {
  }

  method VisitGoverned(api: ApiServer, tracker: PendingLeaseTracker, key: Key, wc: WorkloadClass, governed: set<string>,
                       leases: map<string, PendingLease>, ghost pass: Pass, ghost start: nat, ghost requests: Pending)
    returns (failed: bool, requeue: int)
    requires Visited(api, tracker, pass, {}, start, key, requests)
    requires pass.wc == wc && pass.leases == leases && WellFormed(pass.c) && pass.Mode().Governing?
    requires governed <= pass.c.pods.Keys && forall p | p in governed :: pass.Visits(p)
    requires forall q | q in leases :: leases[q].podName == q
    modifies api`pods, api`pdbs, api`history, tracker
    ensures Visited(api, tracker, pass, governed, start, key, requests)
    ensures failed == SomeFailed(pass, governed) && EarliestLease(requeue, pass, governed)
  {
    failed, requeue := false, 0;
    var todo := governed;
    ghost var done: set<string> := {};
    while todo != {}
      invariant todo !! done && todo + done == governed
      invariant Visited(api, tracker, pass, done, start, key, requests)
      invariant failed == SomeFailed(pass, done) && EarliestLease(requeue, pass, done)
    {
      var p :| p in todo;
      failed, requeue := VisitNext(api, tracker, key, wc, p, leases, failed, requeue, pass, done, start, requests);
      todo := todo - {p};
      done := done + {p};
    }
    assert done == governed;
  }

  // ----- Owned PDBs of Pods the class does not govern -----

  predicate Droppable(pass: Pass, m: string) {
    pass.Owns(m) && !pass.VisitsName(m)
  }

  ghost predicate AllVisited(api: ApiServer, pass: Pass)
    reads api
  {
    forall p :: Lookup(api.pods, p) == pass.PodAfter(p)
  }

  /** One iteration over the owned PDBs that were not visited. */
  method DropPdb(api: ApiServer, wc: WorkloadClass, m: string, listed: map<string, Pdb>,
                 ghost pass: Pass, ghost done: set<string>, ghost start: nat)
    returns (failed: bool)
    requires SameInputs(api, pass) && listed == pass.c.pdbs && pass.wc == wc && pass.Mode().Governing?
    requires Droppable(pass, m) && AllVisited(api, pass)
    requires Progress(api.pdbs, pass, done) && Recorded(api.history, start, pass)
    modifies api`pdbs, api`history
    ensures Progress(api.pdbs, pass, done + {m}) && Recorded(api.history, start, pass) && AllVisited(api, pass)
    ensures failed <==> pass.DropFails(m)
  {
    assert pass.PdbAfter(m) == pass.DropAfter(m);
    ghost var before, history := api.pdbs, api.history;
    assert api.pdbs == Put(api.pdbs, m, Lookup(api.pdbs, m));
    var p := PodNameFromPdbName(m);
    failed := GetPod(p) in api.faults;
    if !failed {
      var pod := Lookup(api.pods, p);
      var left := false;
      if pod.Some? && IsPodActive(pod.value) && !Covered(pod.value.labels, listed) {
        var best := BestMatch(pod.value, Enforced(api.classes, api.enforcedLabel), api.classes);
        left := best.Some? && best.value.name != wc.name && PassedValidation(best.value, api.hasGuardrails);
      }
      assert left == pass.LeftForAnother(p);
      if !left {
        failed := DeleteOwned(api, wc, m);
      }
    }
    WriteStep(before, history, api, pass, done, m, start);
  }

  ghost predicate SomeDropFails(pass: Pass, done: set<string>) {
    exists m | m in done :: pass.DropFails(m)
  }

  lemma DropFailsStep(pass: Pass, done: set<string>, m: string)
    ensures SomeDropFails(pass, done + {m}) <==> SomeDropFails(pass, done) || pass.DropFails(m)
  {
    if SomeDropFails(pass, done) {
      var n :| n in done && pass.DropFails(n);
      assert n in done + {m};
    }
    if pass.DropFails(m) {
      assert m in done + {m};
    }
  }

  method DropUngoverned(api: ApiServer, wc: WorkloadClass, owned: set<string>, governedPdbs: set<string>,
                        listed: map<string, Pdb>, ghost pass: Pass, ghost start: nat)
    returns (failed: bool)
    requires SameInputs(api, pass) && listed == pass.c.pdbs && pass.wc == wc && pass.Mode().Governing?
    requires forall m | m in owned - governedPdbs :: Droppable(pass, m)
    requires AllVisited(api, pass)
    requires Progress(api.pdbs, pass, governedPdbs) && Recorded(api.history, start, pass)
    modifies api`pdbs, api`history
    ensures Progress(api.pdbs, pass, governedPdbs + owned) && Recorded(api.history, start, pass)
    ensures failed <==> SomeDropFails(pass, owned - governedPdbs)
  {
    failed := false;
    var todo := owned;
    ghost var done := governedPdbs;
    while todo != {}
      invariant todo <= owned && done == governedPdbs + (owned - todo) && AllVisited(api, pass)
      invariant Progress(api.pdbs, pass, done) && Recorded(api.history, start, pass)
      invariant failed <==> SomeDropFails(pass, done - governedPdbs)
    {
      var m :| m in todo;
      todo := todo - {m};
      if m !in governedPdbs {
        var error := DropPdb(api, wc, m, listed, pass, done, start);
        DropFailsStep(pass, done - governedPdbs, m);
        assert done + {m} - governedPdbs == done - governedPdbs + {m};
        failed := failed || error;
        done := done + {m};
      } else {
        assert done == done + {m};
      }
    }
    assert done == governedPdbs + owned && done - governedPdbs == owned - governedPdbs;
  }

  // ----- The whole pass -----

  lemma VisitedNames(pass: Pass, governed: set<string>, m: string)
    requires forall p :: p in governed <==> pass.Visits(p)
    ensures m in NamesOf(governed) <==> pass.VisitsName(m)
  {
    NameRoundTrip(PodNameFromPdbName(m), m);
    forall p | p in governed ensures PdbName(p) == m <==> HasPrefix(m) && p == PodNameFromPdbName(m) {
      NameRoundTrip(p, m);
    }
    if pass.VisitsName(m) {
      assert PodNameFromPdbName(m) in governed;
    }
  }

  lemma Untouched(pass: Pass, done: set<string>, n: string)
    requires pass.Mode().Governing? && n !in done
    requires forall m | pass.Owns(m) || pass.VisitsName(m) :: m in done
    ensures pass.PdbAfter(n) == Lookup(pass.c.pdbs, n)
  {
  }

  /** The earliest expiry among the leases the pass leaves active, as far as its Pods were reconciled. */
  ghost predicate RequeuesAtExpiry(requeue: int, pass: Pass) {
    && 0 <= requeue
    && (!pass.Mode().Governing? ==> requeue == 0)
    && (pass.Mode().Governing? ==> EarliestLease(requeue, pass, set p | p in pass.c.pods && pass.Visits(p)))
  }

  /**
   * One call of `reconcilePDBs`. Every PDB and Pod ends as the pass says, every state in between is an
   * intermediate state of the pass, and the requests of the pass's failures are back in the tracker.
   */
  method ReconcilePdbs(api: ApiServer, tracker: PendingLeaseTracker, key: Key, wc: WorkloadClass, reason: Reason,
                       pending: seq<PendingLease>)
    returns (failed: bool, requeue: int)
    requires WellFormed(api.View()) && wc in api.classes && DistinctPods(pending) && tracker.Valid()
    modifies api`pods, api`pdbs, api`history, tracker
    ensures var pass := Pass(old(api.View()), wc, reason, LeaseMap(pending), api.faults);
      && (forall n :: Lookup(api.pdbs, n) == pass.PdbAfter(n))
      && (forall p :: Lookup(api.pods, p) == pass.PodAfter(p))
      && Recorded(api.history, |old(api.history)|, pass)
      && Requeued(tracker.pending, old(tracker.pending), key, pass, pass.leases.Keys)
      && tracker.Valid()
      && failed == pass.Fails() && RequeuesAtExpiry(requeue, pass)
  {
    ghost var pass := Pass(api.View(), wc, reason, LeaseMap(pending), api.faults);
    ghost var start := |api.history|;
    if wc.deleting {
      return false, 0;
    }
    if ListPdbs in api.faults {
      ReenqueueLeases(tracker, key, pending, pass);
      return true, 0;
    }
    var listed := api.pdbs;
    var owned := set n | n in listed && ControlledBy(listed[n], wc);
    if !Protects(reason, api.hasGuardrails) {
      failed := OpenOwnedPdbs(api, wc, owned, listed, pass, start);
      return failed, 0;
    }
    if GetNamespace in api.faults || ListClasses in api.faults {
      ReenqueueLeases(tracker, key, pending, pass);
      return true, 0;
    }
    var result := GovernedPods(api, wc, pass);
    if result.Err? {
      ReenqueueLeases(tracker, key, pending, pass);
      return true, 0;
    }
    failed, requeue := GovernAll(api, tracker, key, wc, result.value, owned, listed, LeaseMap(pending), pending, pass, start);
  }

  lemma FailsAre(pass: Pass, governed: set<string>, owned: set<string>, governedPdbs: set<string>)
    requires pass.Mode().Governing? && governed == (set p | p in pass.c.pods && pass.Visits(p))
    requires owned == (set n | n in pass.c.pdbs && pass.Owns(n)) && forall m :: m in governedPdbs <==> pass.VisitsName(m)
    ensures pass.Fails() == (SomeFailed(pass, governed) || SomeDropFails(pass, owned - governedPdbs))
  {
  }

  lemma AllDone(pdbs: map<string, Pdb>, pass: Pass, owned: set<string>, governedPdbs: set<string>)
    requires pass.Mode().Governing? && Progress(pdbs, pass, governedPdbs + owned)
    requires owned == (set n | n in pass.c.pdbs && pass.Owns(n)) && forall m :: m in governedPdbs <==> pass.VisitsName(m)
    ensures forall n :: Lookup(pdbs, n) == pass.PdbAfter(n)
  {
    forall n
      ensures Lookup(pdbs, n) == pass.PdbAfter(n)
    {
      if n !in governedPdbs + owned {
        Untouched(pass, governedPdbs + owned, n);
      }
    }
  }

  method GovernAll(api: ApiServer, tracker: PendingLeaseTracker, key: Key, wc: WorkloadClass, governed: set<string>,
                   owned: set<string>, listed: map<string, Pdb>, leases: map<string, PendingLease>,
                   ghost pending: seq<PendingLease>, ghost pass: Pass, ghost start: nat)
    returns (failed: bool, requeue: int)
    requires pass.c == api.View() && listed == api.pdbs && SameInputs(api, pass) && pass.wc == wc
    requires pass.leases == leases == LeaseMap(pending) && WellFormed(pass.c) && pass.Mode().Governing?
    requires governed == (set p | p in api.pods && pass.Visits(p)) && owned == set n | n in listed && pass.Owns(n)
    requires tracker.Valid() && start == |api.history|
    modifies api`pods, api`pdbs, api`history, tracker
    ensures forall n :: Lookup(api.pdbs, n) == pass.PdbAfter(n)
    ensures forall p :: Lookup(api.pods, p) == pass.PodAfter(p)
    ensures Recorded(api.history, start, pass)
    ensures Requeued(tracker.pending, old(tracker.pending), key, pass, leases.Keys) && tracker.Valid()
    ensures failed == pass.Fails() && RequeuesAtExpiry(requeue, pass)
  {
    LeaseMapIsFiled(pending);
    NothingVisited(api, tracker, pass, start, key);
    failed, requeue := VisitGoverned(api, tracker, key, wc, governed, leases, pass, start, tracker.pending);
    var governedPdbs := set p | p in governed :: PdbName(p);
    forall m ensures m in governedPdbs <==> pass.VisitsName(m) {
      VisitedNames(pass, governed, m);
    }
    assert governedPdbs == NamesOf(governed);
    var error := DropUngoverned(api, wc, owned, governedPdbs, listed, pass, start);
    AllDone(api.pdbs, pass, owned, governedPdbs);
    FailsAre(pass, governed, owned, governedPdbs);
    failed := failed || error;
  }

  /** The drain point of `Reconcile` and the pass that follows: what the tracker holds for the class afterwards. */
  method DrainAndReconcile(api: ApiServer, tracker: PendingLeaseTracker, key: Key, wc: WorkloadClass, reason: Reason)
    returns (failed: bool, requeue: int)
    requires WellFormed(api.View()) && wc in api.classes && tracker.Valid()
    modifies api`pods, api`pdbs, api`history, tracker
    ensures var pass := Pass(old(api.View()), wc, reason, Requests(old(tracker.pending), key), api.faults);
      && (forall n :: Lookup(api.pdbs, n) == pass.PdbAfter(n))
      && (forall p :: Lookup(api.pods, p) == pass.PodAfter(p))
      && (forall p :: Lookup(Requests(tracker.pending, key), p) == pass.RequestAfter(None, p))
      && (forall k | k != key :: Requests(tracker.pending, k) == Requests(old(tracker.pending), k))
      && tracker.Valid() && failed == pass.Fails()
  {
    var drained := tracker.Drain(key);
    DrainedRequests(drained, Requests(old(tracker.pending), key));
    failed, requeue := ReconcilePdbs(api, tracker, key, wc, reason, drained);
  }

  lemma DrainedRequests(drained: seq<PendingLease>, requests: map<string, PendingLease>)
    requires SortedByPod(drained)
    requires forall l :: l in drained <==> Lookup(requests, l.podName) == Some(l)
    requires forall n | n in requests :: requests[n].podName == n
    ensures DistinctPods(drained) && LeaseMap(drained) == requests
  {
    forall i, j | 0 <= i < j < |drained| ensures drained[i].podName != drained[j].podName {
      LessIsIrreflexive(drained[i].podName);
    }
    LeaseMapKeys(drained);
    forall n | n in requests ensures n in LeaseMap(drained) && LeaseMap(drained)[n] == requests[n] {
      assert requests[n] in drained;
      var i :| 0 <= i < |drained| && drained[i] == requests[n];
      LeaseMapOf(drained, i);
    }
  }

  lemma {:induction false} LessIsIrreflexive(a: string)
    ensures !Less(a, a)
  {
    if a != [] {
      LessIsIrreflexive(a[1..]);
    }
  }
}
