/**
 * The API calls of a pass one by one. Every write is a Get followed by a write that the API server accepts only if
 * the PDB has not changed in between; users, Pods, classes and other reconcilers may act between any two calls.
 */
module Interleaving {
  import opened Wrappers
  import opened Labels
  import opened Types
  import opened Governance
  import opened LeaseTracker
  import opened Pdb
  import opened PdbSpec
  import opened PdbRuns

  // ----- Calls -----

  datatype Stored = Stored(pdb: Pdb, version: nat)

  datatype Intent = Sync(pod: Pod, isValid: bool) | Lease(pod: Pod, subject: Subject) | Drop

  /**
   * The moments of a run at which a pass read what it decides on: the guardrails, its own class with its persisted
   * status, the PDBs, the namespace, the classes, the Pods, and last the one object the call is about: the Pod of
   * an owned PDB, or the PDB of a governed Pod.
   */
  datatype Reads = Reads(guardrails: nat, status: nat, pdbs: nat, namespace: nat, classes: nat, pods: nat, last: nat)

  /** A call whose Get was answered: what it read, what it is about to write, and the reads it was decided on. */
  datatype Op = Op(wc: WorkloadClass, name: string, read: Option<Stored>, intent: Intent, on: Reads)

  /** `world` is everything but the PDBs, which are held with their resource versions. */
  datatype State = State(world: Cluster, store: map<string, Stored>, next: nat, ops: map<nat, Op>)

  function PdbsOf(store: map<string, Stored>): map<string, Pdb> {
    map n | n in store :: store[n].pdb
  }

  function View(s: State): Cluster {
    s.world.(pdbs := PdbsOf(s.store))
  }

  /** The PDB a write leads to, from the PDB it is based on. */
  function Intended(op: Op, base: Option<Pdb>, now: int): Option<Pdb> {
    match op.intent
    case Sync(pod, isValid) =>
      if Writable(base) then Some(Synced(Base(base, pod), pod, op.wc, isValid)) else base
    case Lease(pod, subject) =>
      if Writable(base) then Some(Leased(Base(base, pod), pod, op.wc, subject, now)) else base
    case Drop =>
      if base.Some? && ControlledBy(base.value, op.wc) then None else base
  }

  /** The atomic calls of a pass, as the pass's specification has them. */
  lemma IntendedIsCall(op: Op, base: Option<Pdb>, now: int)
    ensures op.intent.Sync? ==> var pod := op.intent.pod;
      Intended(op, base, now) == Written(base, Synced(Base(base, pod), pod, op.wc, op.intent.isValid), op.name, {}, 0).pdb
    ensures op.intent.Lease? ==> var pod := op.intent.pod;
      Intended(op, base, now) == Written(base, Leased(Base(base, pod), pod, op.wc, op.intent.subject, now), op.name, {}, 0).pdb
  {
  }

  function PdbOf(x: Option<Stored>): Option<Pdb> {
    if x.Some? then Some(x.value.pdb) else None
  }

  function PutStored(s: State, n: string, x: Option<Pdb>): State {
    match x
    case None => s.(store := s.store - {n}, next := s.next + 1)
    case Some(pdb) => s.(store := s.store[n := Stored(pdb, s.next)], next := s.next + 1)
  }

  /** The write is based on what was read, and goes through only if that is still what is stored. */
  function Commit(s: State, op: Op): State {
    var current, wanted := Lookup(s.store, op.name), Intended(op, PdbOf(op.read), s.world.now);
    var same := if op.read.None? then current.None? else current.Some? && current.value.version == op.read.value.version;
    if wanted == PdbOf(op.read) || !same then s else PutStored(s, op.name, wanted)
  }

  // ----- What a pass decides -----

  /** Another class governs the Pod and will adopt its PDB, by what the pass read. */
  predicate AdoptedElsewhere(seen: Cluster, wc: WorkloadClass, pod: Pod) {
    && Eligible(seen, pod)
    && Best(seen, pod).Some? && Best(seen, pod).value.name != wc.name
    && PassedValidation(Best(seen, pod).value, seen.hasGuardrails)
  }

  predicate GovernsListed(seen: Cluster, wc: WorkloadClass, p: string) {
    p in seen.pods && Governs(seen, wc, seen.pods[p])
  }

  /** `pods` are the Pods when the one of the owned PDB is read again; all else is as it was seen before. */
  predicate Drops(wc: WorkloadClass, seen: Cluster, pods: map<string, Pod>, n: string) {
    var p := PodNameFromPdbName(n);
    && n in seen.pdbs && ControlledBy(seen.pdbs[n], wc)
    && if !PassedValidation(wc, seen.hasGuardrails) then !(p in pods && Eligible(seen, pods[p]))
       else !(HasPrefix(n) && GovernsListed(seen, wc, p)) && !(p in pods && AdoptedElsewhere(seen, wc, pods[p]))
  }

  /** The pass opens the PDB of this Pod, because the class owns one whose name stands for it. */
  predicate OpensFor(wc: WorkloadClass, seen: Cluster, last: Cluster, pod: Pod) {
    && Lookup(last.pods, pod.name) == Some(pod) && Eligible(seen, pod)
    && exists m | m in seen.pdbs :: ControlledBy(seen.pdbs[m], wc) && PodNameFromPdbName(m) == pod.name
  }

  /** The Pod was listed and is governed; it may have got its uid label since. */
  predicate VisitsFor(wc: WorkloadClass, seen: Cluster, pod: Pod) {
    GovernsListed(seen, wc, pod.name) && pod in {seen.pods[pod.name], Patched(seen.pods[pod.name])}
  }

  /** The pass makes this call on what it has seen, and on the cluster at its last read. */
  predicate Decides(op: Op, seen: Cluster, last: Cluster) {
    && !op.wc.deleting
    && match op.intent
       case Drop => Drops(op.wc, seen, last.pods, op.name)
       case Sync(pod, isValid) =>
         && op.name == PdbName(pod.name) && (isValid <==> PassedValidation(op.wc, seen.hasGuardrails))
         && if !isValid then OpensFor(op.wc, seen, last, pod)
            else
              && VisitsFor(op.wc, seen, pod)
              && (op.name in last.pdbs ==> ActiveLeaseRemaining(last.pdbs[op.name], pod, last.now) <= 0)
       case Lease(pod, subject) =>
         && op.name == PdbName(pod.name) && PassedValidation(op.wc, seen.hasGuardrails)
         && VisitsFor(op.wc, seen, pod)
         && (op.name in last.pdbs ==>
               !SubjectAlreadyLeasing(last.pdbs[op.name], pod, subject, last.now)
               && AllowLease(last.pdbs[op.name], pod, last.now))
  }

  /** When nothing changes but what the pass itself writes, its deletions are those of the atomic pass. */
  lemma DropsIsPass(c: Cluster, wc: WorkloadClass, pods: map<string, Pod>, n: string)
    requires WellFormed(c) && wc in c.classes && wc.validated.Some?
    requires n in c.pdbs && ControlledBy(c.pdbs[n], wc)
    requires var pass := Pass(c, wc, wc.validated.value.reason, map[], {});
      (pass.Mode().Opening? || pass.Mode().Governing?) && forall p :: Lookup(pods, p) == pass.PodAfter(p)
    ensures Drops(wc, c, pods, n) <==> Pass(c, wc, wc.validated.value.reason, map[], {}).PdbAfter(n).None?
  {
    var p, pass := PodNameFromPdbName(n), Pass(c, wc, wc.validated.value.reason, map[], {});
    NameRoundTrip(p, n);
    assert Lookup(pods, p) == pass.PodAfter(p);
  }

  /** The same holds for what it opens. */
  lemma OpeningIsPass(c: Cluster, wc: WorkloadClass, p: string, op: Op)
    requires wc.validated.Some? && Pass(c, wc, wc.validated.value.reason, map[], {}).Mode().Opening?
    requires p in c.pods && c.pods[p].name == p
    requires op.wc == wc && op.name == PdbName(p) && op.intent == Sync(c.pods[p], false)
    ensures var x, after := Lookup(c.pdbs, op.name), Pass(c, wc, wc.validated.value.reason, map[], {}).PdbAfter(op.name);
      if Decides(op, c, c) then after == Intended(op, x, c.now)
      else after == if Drops(wc, c, c.pods, op.name) then None else x
  {
    NameRoundTrip(p, op.name);
    forall m | m in c.pdbs && PodNameFromPdbName(m) == p ensures m == op.name || (m == p && !HasPrefix(p)) {
      NameRoundTrip(p, m);
    }
    assert HasPrefix(p) || PodNameFromPdbName(p) == p;
  }

  /** And for what it syncs and leases: a requested lease if that is its decision, and otherwise a sync if that is. */
  lemma VisitIsPass(c: Cluster, wc: WorkloadClass, leases: map<string, PendingLease>, p: string, sync: Op, lease: Op)
    requires wc.validated.Some? && Pass(c, wc, wc.validated.value.reason, leases, {}).Mode().Governing?
    requires p in c.pods && c.pods[p].name == p && Governs(c, wc, c.pods[p])
    requires sync.wc == wc && sync.name == PdbName(p) && sync.intent == Sync(c.pods[p], true)
    requires lease.wc == wc && lease.name == PdbName(p) && lease.intent.Lease? && lease.intent.pod == c.pods[p]
    ensures var x, pass := Lookup(c.pdbs, PdbName(p)), Pass(c, wc, wc.validated.value.reason, leases, {});
      var after, request := pass.PdbAfter(PdbName(p)), pass.LeaseFor(c.pods[p]);
      if request.None? then after == if Decides(sync, c, c) then Intended(sync, x, c.now) else x
      else request.value.subject == lease.intent.subject ==>
        after == if Decides(lease, c, c) then Intended(lease, x, c.now) else x
  {
    NameRoundTrip(p, PdbName(p));
  }

  // ----- Runs -----

  datatype Step =
    | Get(id: nat, op: Op)                        // a reconciler reads a PDB it has decided to write
    | Write(id: nat)                              // and writes it
    | UserPdb(name: string, pdb: Option<Pdb>)     // a user creates, changes or deletes a PDB of their own
    | Collect(name: string)                       // a PDB is garbage collected after its class
    | Change(world: Cluster)                      // Pods, classes, labels and time

  predicate Allowed(s: State, step: Step) {
    match step
    case Get(_, op) => op.read == Lookup(s.store, op.name)
    case Write(id) => id in s.ops
    case UserPdb(n, pdb) =>
      (n in s.store ==> !Managed(s.store[n].pdb)) && (pdb.Some? ==> !Managed(pdb.value))
    case Collect(n) => n in s.store && Managed(s.store[n].pdb) && !OwnerListed(s.world, s.store[n].pdb)
    case Change(world) => s.world.now <= world.now
  }

  function Apply(s: State, step: Step): State
    requires Allowed(s, step)
  {
    match step
    case Get(id, op) => s.(ops := s.ops[id := op])
    case Write(id) => Commit(s, s.ops[id]).(ops := s.ops - {id})
    case UserPdb(n, pdb) => PutStored(s, n, pdb)
    case Collect(n) => PutStored(s, n, None)
    case Change(world) => s.(world := world)
  }

  /** The reads were made one after the other, all before moment `end`. */
  predicate InOrder(r: Reads, end: nat) {
    r.guardrails <= r.status <= r.pdbs <= r.namespace <= r.classes <= r.pods <= r.last < end
  }

  /** What the pass has put together from its reads, each of its own moment. */
  function Seen(states: seq<State>, r: Reads): Cluster
    requires InOrder(r, |states|)
  {
    Cluster(states[r.pods].world.pods, states[r.classes].world.classes, states[r.namespace].world.enforcedLabel,
            states[r.guardrails].world.hasGuardrails, PdbsOf(states[r.pdbs].store), states[r.last].world.now)
  }

  /** The call was decided on earlier states of the run. */
  predicate Grounded(states: seq<State>, k: nat, op: Op)
    requires k < |states|
  {
    && InOrder(op.on, k + 1) && op.wc in states[op.on.status].world.classes
    && Decides(op, Seen(states, op.on), View(states[op.on.last]))
  }

  predicate Run(states: seq<State>, steps: seq<Step>) {
    && |states| == |steps| + 1 && VersionsIdentify(states[0])
    && (forall i | 0 <= i < |states| :: WellFormed(View(states[i])))
    && Chained(states, steps) && AllGrounded(states, steps)
  }

  /** Each state is the previous one after an allowed step. */
  predicate Chained(states: seq<State>, steps: seq<Step>) {
    && |states| == |steps| + 1
    && forall i | 0 <= i < |steps| :: Allowed(states[i], steps[i]) && states[i + 1] == Apply(states[i], steps[i])
  }

  predicate AllGrounded(states: seq<State>, steps: seq<Step>)
    requires |states| == |steps| + 1
  {
    forall i | 0 <= i < |steps| && steps[i].Get? :: Grounded(states, i, steps[i].op)
  }

  // ----- Atomicity -----

  /** A version stands for one state of one PDB: if the version that was read is still there, so is the PDB. */
  predicate VersionsIdentify(s: State) {
    && (forall n | n in s.store :: s.store[n].version < s.next)
    && (forall id | id in s.ops && s.ops[id].read.Some? :: s.ops[id].read.value.version < s.next)
    && (forall id | id in s.ops && s.ops[id].read.Some? && s.ops[id].name in s.store ::
          Identified(s.store[s.ops[id].name], s.ops[id].read.value))
  }

  predicate Identified(current: Stored, read: Stored) {
    current.version == read.version ==> current == read
  }

  lemma PutKeepsVersions(s: State, n: string, x: Option<Pdb>)
    requires VersionsIdentify(s)
    ensures VersionsIdentify(PutStored(s, n, x))
  {
  }

  lemma StepKeepsVersions(s: State, step: Step)
    requires VersionsIdentify(s) && Allowed(s, step)
    ensures VersionsIdentify(Apply(s, step))
  {
    match step
    case Write(id) =>
      var op := s.ops[id];
      PutKeepsVersions(s, op.name, Intended(op, PdbOf(op.read), s.world.now));
    case UserPdb(n, pdb) => PutKeepsVersions(s, n, pdb);
    case Collect(n) => PutKeepsVersions(s, n, None);
    case _ =>
  }

  lemma {:induction false} RunKeepsVersions(states: seq<State>, steps: seq<Step>, k: nat)
    requires Run(states, steps) && k < |states|
    ensures VersionsIdentify(states[k])
  {
    if k > 0 {
      RunKeepsVersions(states, steps, k - 1);
      StepKeepsVersions(states[k - 1], steps[k - 1]);
    }
  }

  /** The Get and the write together are one atomic call at the moment of the write, or a conflict without effect. */
  lemma CommitIsAtomic(s: State, id: nat)
    requires VersionsIdentify(s) && id in s.ops
    ensures var op, s' := s.ops[id], Apply(s, Write(id));
      && (forall n | n != op.name :: Lookup(s'.store, n) == Lookup(s.store, n))
      && (Lookup(PdbsOf(s'.store), op.name) == Lookup(PdbsOf(s.store), op.name)
          || Lookup(PdbsOf(s'.store), op.name) == Intended(op, Lookup(PdbsOf(s.store), op.name), s.world.now))
  {
  }

  lemma StepSparesForeign(s: State, step: Step, n: string)
    requires VersionsIdentify(s) && Allowed(s, step) && !step.UserPdb?
    requires n in s.store && !Managed(s.store[n].pdb)
    ensures Lookup(Apply(s, step).store, n) == Some(s.store[n])
  {
    if step.Write? {
      CommitIsAtomic(s, step.id);
    }
  }

  /** However the calls interleave, no reconciler changes or deletes a PDB that no WorkloadClass controls. */
  lemma {:induction false} NoTrespassInterleaved(states: seq<State>, steps: seq<Step>, k: nat, n: string)
    requires Run(states, steps) && k < |steps| && !steps[k].UserPdb?
    requires n in states[k].store && !Managed(states[k].store[n].pdb)
    ensures Lookup(states[k + 1].store, n) == Some(states[k].store[n])
  {
    RunKeepsVersions(states, steps, k);
    StepSparesForeign(states[k], steps[k], n);
  }

  lemma StepDeletesOwned(s: State, step: Step, n: string)
    requires VersionsIdentify(s) && Allowed(s, step) && !step.UserPdb? && !step.Collect?
    requires n in s.store && n !in Apply(s, step).store
    ensures step.Write? && s.ops[step.id].intent.Drop? && s.ops[step.id].name == n
    ensures ControlledBy(s.store[n].pdb, s.ops[step.id].wc)
  {
    if step.Write? {
      CommitIsAtomic(s, step.id);
    }
  }

  /** A class never deletes a PDB that another class adopted after it was read. */
  lemma {:induction false} OnlyOwnersDelete(states: seq<State>, steps: seq<Step>, k: nat, n: string)
    requires Run(states, steps) && k < |steps| && !steps[k].UserPdb? && !steps[k].Collect?
    requires n in states[k].store && n !in states[k + 1].store
    ensures steps[k].Write? && states[k].ops[steps[k].id].intent.Drop? && states[k].ops[steps[k].id].name == n
    ensures ControlledBy(states[k].store[n].pdb, states[k].ops[steps[k].id].wc)
  {
    RunKeepsVersions(states, steps, k);
    StepDeletesOwned(states[k], steps[k], n);
  }

  // ----- When the PDB of an active Pod is deleted -----

  /**
   * The pass is misled about the Pod: it sees the Pod, as it is now, covered by a user PDB it listed at the start;
   * or, having not listed the Pod as its own, it sees no other protecting class that would adopt its PDB.
   */
  predicate Misled(op: Op, seen: Cluster, pod: Pod) {
    var stale, best := Covered(pod.labels, seen.pdbs), Best(seen, pod);
    if !PassedValidation(op.wc, seen.hasGuardrails) then stale
    else
      && !GovernsListed(seen, op.wc, pod.name)
      && (stale || best.None? || best.value.name == op.wc.name || !PassedValidation(best.value, seen.hasGuardrails))
  }

  /** A live class decides to delete a PDB it owned exactly if it is misled about the Pod, which is active. */
  lemma DroppedExactlyIfMisled(op: Op, seen: Cluster, last: Cluster, p: string)
    requires op.intent.Drop? && op.name == PdbName(p) && !op.wc.deleting
    requires op.name in seen.pdbs && ControlledBy(seen.pdbs[op.name], op.wc)
    requires p in last.pods && last.pods[p].name == p && IsPodActive(last.pods[p])
    ensures Decides(op, seen, last) <==> Misled(op, seen, last.pods[p])
  {
    NameRoundTrip(p, op.name);
  }

  predicate SameClasses(a: Cluster, b: Cluster) {
    a.classes == b.classes && a.enforcedLabel == b.enforcedLabel && a.hasGuardrails == b.hasGuardrails
  }

  /**
   * For a Pod that is guarded when the PDBs are listed (`a`), when the Pods are listed (`b`) and when it is read
   * again (`d`), with the classes unchanged, there are exactly two ways to be misled. Its labels changed so that a
   * user PDB of the old list covers it, or its best match moved to the class after the Pods were listed.
   */
  lemma GuardedIsDroppedExactly(op: Op, a: Cluster, b: Cluster, d: Cluster, p: string)
    requires op.intent.Drop? && op.name == PdbName(p) && op.wc in b.classes
    requires WellFormed(b) && WellFormed(d) && SameClasses(a, b) && SameClasses(b, d)
    requires Guarded(b, p) && Guarded(d, p)
    requires op.name in a.pdbs && ControlledBy(a.pdbs[op.name], op.wc)
    ensures var staleThen, stale := Covered(b.pods[p].labels, a.pdbs), Covered(d.pods[p].labels, a.pdbs);
      var mineThen, mine := Best(b, b.pods[p]) == Some(op.wc), Best(d, d.pods[p]) == Some(op.wc);
      Decides(op, b.(pdbs := a.pdbs), d) <==>
        && !op.wc.deleting
        && if PassedValidation(op.wc, b.hasGuardrails) then (!mineThen || staleThen) && (stale || mine) else stale
  {
    var seen := b.(pdbs := a.pdbs);
    assert Best(seen, b.pods[p]) == Best(b, b.pods[p]) && Best(seen, d.pods[p]) == Best(d, d.pods[p]);
    BestMatchIsListed(b.pods[p], b.enforcedLabel, b.classes);
    BestMatchIsListed(d.pods[p], d.enforcedLabel, d.classes);
    NamesDecide(b, Best(b, b.pods[p]).value, op.wc);
    NamesDecide(b, Best(d, d.pods[p]).value, op.wc);
    if !op.wc.deleting {
      DroppedExactlyIfMisled(op, seen, d, p);
    }
  }

  lemma NamesDecide(c: Cluster, a: WorkloadClass, b: WorkloadClass)
    requires WellFormed(c) && a in c.classes && b in c.classes
    ensures a == b <==> a.name == b.name
  {
  }

  // ----- No protection gap -----

  predicate MisledIn(states: seq<State>, op: Op, p: string)
    requires InOrder(op.on, |states|)
  {
    && p in states[op.on.last].world.pods
    && Misled(op, Seen(states, op.on), states[op.on.last].world.pods[p])
  }

  /** No deletion of the Pod's PDB was decided by a misled pass. */
  predicate NobodyMisled(states: seq<State>, steps: seq<Step>, p: string)
    requires Run(states, steps)
  {
    forall i | 0 <= i < |steps| && steps[i].Get? && steps[i].op.intent.Drop? && steps[i].op.name == PdbName(p) ::
      !MisledIn(states, steps[i].op, p)
  }

  predicate ActiveThroughout(states: seq<State>, p: string) {
    forall i | 0 <= i < |states| :: p in states[i].world.pods && IsPodActive(states[i].world.pods[p])
  }

  predicate NoDropPending(s: State, n: string) {
    forall id | id in s.ops && s.ops[id].intent.Drop? :: s.ops[id].name != n
  }

  predicate OwnerStaysListed(states: seq<State>, n: string) {
    forall i | 0 <= i < |states| && n in states[i].store :: OwnerListed(states[i].world, states[i].store[n].pdb)
  }

  lemma NoDropDecided(states: seq<State>, steps: seq<Step>, p: string, i: nat)
    requires Run(states, steps) && ActiveThroughout(states, p) && NobodyMisled(states, steps, p)
    requires i < |steps| && steps[i].Get? && steps[i].op.intent.Drop?
    ensures steps[i].op.name != PdbName(p)
  {
    var op := steps[i].op;
    assert Grounded(states, i, op);
    var seen, last := Seen(states, op.on), View(states[op.on.last]);
    assert WellFormed(last) && p in states[op.on.last].world.pods;
    if op.name == PdbName(p) {
      DroppedExactlyIfMisled(op, seen, last, p);
    }
  }

  /**
   * In every interleaving in which no pass is misled about the active Pod, its managed PDB exists and stays managed;
   * the run starts when no call is under way.
   */
  lemma {:induction false} NoGapInterleaved(states: seq<State>, steps: seq<Step>, p: string, k: nat)
    requires Run(states, steps) && k < |states| && states[0].ops == map[]
    requires ActiveThroughout(states, p) && NobodyMisled(states, steps, p) && OwnerStaysListed(states, PdbName(p))
    requires PdbName(p) in states[0].store && Managed(states[0].store[PdbName(p)].pdb)
    ensures PdbName(p) in states[k].store && Managed(states[k].store[PdbName(p)].pdb)
    ensures NoDropPending(states[k], PdbName(p))
  {
    if k > 0 {
      var j, n := k - 1, PdbName(p);
      NoGapInterleaved(states, steps, p, j);
      RunKeepsVersions(states, steps, j);
      if steps[j].Get? && steps[j].op.intent.Drop? {
        NoDropDecided(states, steps, p, j);
      }
      assert OwnerListed(states[j].world, states[j].store[n].pdb);
      StepKeepsManaged(states[j], steps[j], n);
    }
  }

  lemma StepKeepsManaged(s: State, step: Step, n: string)
    requires VersionsIdentify(s) && Allowed(s, step) && NoDropPending(s, n)
    requires step.Get? && step.op.intent.Drop? ==> step.op.name != n
    requires n in s.store && Managed(s.store[n].pdb) && OwnerListed(s.world, s.store[n].pdb)
    ensures n in Apply(s, step).store && Managed(Apply(s, step).store[n].pdb) && NoDropPending(Apply(s, step), n)
  {
    if step.Write? {
      CommitIsAtomic(s, step.id);
    }
  }

  /** Nothing a pass decides on changes for the Pod: the classes, its best match, and that no user PDB covers it. */
  predicate Settled(states: seq<State>, p: string) {
    && ActiveThroughout(states, p)
    && (forall i, j | 0 <= i < |states| && 0 <= j < |states| :: SameClasses(states[i].world, states[j].world))
    && (forall i, j | 0 <= i < |states| && 0 <= j < |states| ::
          !Covered(states[i].world.pods[p].labels, PdbsOf(states[j].store)))
    && (forall i | 0 <= i < |states| :: Guarded(View(states[i]), p))
    && (forall i, j | 0 <= i < |states| && 0 <= j < |states| ::
          Best(View(states[i]), states[i].world.pods[p]) == Best(View(states[j]), states[j].world.pods[p]))
  }

  lemma SeenAgrees(states: seq<State>, r: Reads, p: string)
    requires InOrder(r, |states|) && Settled(states, p)
    requires forall i | 0 <= i < |states| :: WellFormed(View(states[i]))
    ensures var seen, b, d := Seen(states, r), View(states[r.pods]), View(states[r.last]);
      && p in seen.pods && seen.pods[p] == b.pods[p] && seen.pods[p].name == p && p in d.pods && d.pods[p].name == p
      && Best(seen, b.pods[p]) == Best(b, b.pods[p]) == Best(d, d.pods[p]) == Best(seen, d.pods[p])
      && !Covered(b.pods[p].labels, seen.pdbs) && !Covered(d.pods[p].labels, seen.pdbs)
      && Guarded(b, p) && Guarded(d, p) && SameClasses(seen, b) && SameClasses(seen, d)
  {
    var b, d := View(states[r.pods]), View(states[r.last]);
    assert WellFormed(b) && WellFormed(d) && Guarded(b, p) && Guarded(d, p);
    assert SameClasses(states[r.classes].world, states[r.pods].world);
    assert SameClasses(states[r.namespace].world, states[r.pods].world);
    assert SameClasses(states[r.guardrails].world, states[r.pods].world);
    assert SameClasses(states[r.last].world, states[r.pods].world);
    assert !Covered(states[r.pods].world.pods[p].labels, PdbsOf(states[r.pdbs].store));
    assert !Covered(states[r.last].world.pods[p].labels, PdbsOf(states[r.pdbs].store));
    assert Best(b, states[r.pods].world.pods[p]) == Best(d, states[r.last].world.pods[p]);
  }

  lemma AgreeingReadsDoNotMislead(op: Op, seen: Cluster, now: Pod, p: string)
    requires p in seen.pods && seen.pods[p].name == p == now.name && IsPodActive(seen.pods[p])
    requires Best(seen, seen.pods[p]) == Best(seen, now)
    requires Best(seen, now).Some? && PassedValidation(Best(seen, now).value, seen.hasGuardrails)
    requires !Covered(seen.pods[p].labels, seen.pdbs) && !Covered(now.labels, seen.pdbs)
    ensures !Misled(op, seen, now)
  {
  }

  /** While nothing it decides on changes, no pass is misled about a guarded Pod. */
  lemma SettledMisleadsNobody(states: seq<State>, steps: seq<Step>, p: string)
    requires Run(states, steps) && Settled(states, p)
    ensures NobodyMisled(states, steps, p)
  {
    forall i | 0 <= i < |steps| && steps[i].Get? && steps[i].op.intent.Drop? && steps[i].op.name == PdbName(p)
      ensures !MisledIn(states, steps[i].op, p)
    {
      var op := steps[i].op;
      assert Grounded(states, i, op);
      SeenAgrees(states, op.on, p);
      AgreeingReadsDoNotMislead(op, Seen(states, op.on), states[op.on.last].world.pods[p], p);
    }
  }

  // ----- Every misled pass opens a gap -----

  lemma RunExtends(states: seq<State>, steps: seq<Step>, step: Step)
    requires Run(states, steps) && Allowed(states[|steps|], step)
    requires WellFormed(View(Apply(states[|steps|], step)))
    requires step.Get? ==> Grounded(states, |steps|, step.op)
    ensures Run(states + [Apply(states[|steps|], step)], steps + [step])
  {
    var next := Apply(states[|steps|], step);
    var states', steps' := states + [next], steps + [step];
    GroundsExtend(states, next, steps, step);
    ChainExtends(states, next, steps, step);
    assert states'[0] == states[0];
    assert forall i | 0 <= i < |states'| :: i < |states| ==> states'[i] == states[i];
  }

  lemma ChainExtends(states: seq<State>, next: State, steps: seq<Step>, step: Step)
    requires Chained(states, steps) && Allowed(states[|steps|], step) && next == Apply(states[|steps|], step)
    ensures Chained(states + [next], steps + [step])
  {
    var states', steps' := states + [next], steps + [step];
    forall i | 0 <= i < |steps'|
      ensures Allowed(states'[i], steps'[i]) && states'[i + 1] == Apply(states'[i], steps'[i])
    {
      if i < |steps| {
        assert steps'[i] == steps[i] && states'[i] == states[i] && states'[i + 1] == states[i + 1];
      }
    }
  }

  lemma GroundsExtend(states: seq<State>, next: State, steps: seq<Step>, step: Step)
    requires |states| == |steps| + 1 && AllGrounded(states, steps)
    requires step.Get? ==> Grounded(states, |steps|, step.op)
    ensures AllGrounded(states + [next], steps + [step])
  {
    forall i | 0 <= i < |steps + [step]| && (steps + [step])[i].Get?
      ensures Grounded(states + [next], i, (steps + [step])[i].op)
    {
      GroundedExtends(states, next, i, (steps + [step])[i].op);
    }
  }

  lemma GroundedExtends(states: seq<State>, next: State, k: nat, op: Op)
    requires k < |states| && Grounded(states, k, op)
    ensures Grounded(states + [next], k, op)
  {
    assert Seen(states + [next], op.on) == Seen(states, op.on);
    assert View((states + [next])[op.on.last]) == View(states[op.on.last]);
  }

  /** The reads of a run that a live class may base a deletion of the active Pod's PDB on, as far as order goes. */
  predicate CouldDrop(states: seq<State>, op: Op, p: string)
    requires states != []
  {
    var now := states[|states| - 1];
    && op.intent.Drop? && op.name == PdbName(p) && !op.wc.deleting
    && InOrder(op.on, |states|) && op.wc in states[op.on.status].world.classes
    && op.name in states[op.on.pdbs].store && ControlledBy(states[op.on.pdbs].store[op.name].pdb, op.wc)
    && p in states[op.on.last].world.pods && IsPodActive(states[op.on.last].world.pods[p])
    && op.read == Lookup(now.store, op.name)
  }

  lemma GroundedIsLocal(states: seq<State>, next: State, steps: seq<Step>, step: Step)
    requires Run(states, steps) && Run(states + [next], steps + [step]) && step.Get?
    ensures Grounded(states, |steps|, step.op)
  {
    var op := step.op;
    assert (steps + [step])[|steps|] == step;
    assert Grounded(states + [next], |steps|, op);
    assert Seen(states + [next], op.on) == Seen(states, op.on);
    assert View((states + [next])[op.on.last]) == View(states[op.on.last]);
  }

  /** Such a call can be made exactly if it is misled. */
  lemma MisledCallIsMade(states: seq<State>, steps: seq<Step>, id: nat, op: Op, p: string)
    requires Run(states, steps) && CouldDrop(states, op, p)
    ensures Run(states + [Apply(states[|steps|], Get(id, op))], steps + [Get(id, op)]) <==> MisledIn(states, op, p)
  {
    var s := states[|steps|];
    var s1 := Apply(s, Get(id, op));
    assert WellFormed(View(s)) && WellFormed(View(states[op.on.last]));
    DroppedExactlyIfMisled(op, Seen(states, op.on), View(states[op.on.last]), p);
    assert View(s1) == View(s);
    if Run(states + [s1], steps + [Get(id, op)]) {
      GroundedIsLocal(states, s1, steps, Get(id, op));
    }
    if MisledIn(states, op, p) {
      RunExtends(states, steps, Get(id, op));
    }
  }

  lemma DropDeletes(s: State, id: nat, op: Op)
    requires VersionsIdentify(s) && op.intent.Drop? && op.read == Lookup(s.store, op.name)
    requires op.name in s.store && ControlledBy(s.store[op.name].pdb, op.wc)
    ensures var s2 := Apply(Apply(s, Get(id, op)), Write(id)); s2.store == s.store - {op.name} && s2.world == s.world
  {
  }

  /** If the class still owns the PDB, the misled call then deletes it, and nothing else. */
  lemma MisledCallDeletes(states: seq<State>, steps: seq<Step>, id: nat, op: Op, p: string)
    requires Run(states, steps) && CouldDrop(states, op, p) && MisledIn(states, op, p)
    requires var s := states[|steps|]; op.name in s.store && ControlledBy(s.store[op.name].pdb, op.wc)
    ensures var s := states[|steps|];
      var s1 := Apply(s, Get(id, op));
      var s2 := Apply(s1, Write(id));
      && Run(states + [s1] + [s2], steps + [Get(id, op)] + [Write(id)])
      && s2.store == s.store - {op.name} && s2.world == s.world
  {
    var s := states[|steps|];
    var s1 := Apply(s, Get(id, op));
    MisledCallIsMade(states, steps, id, op, p);
    RunKeepsVersions(states, steps, |steps|);
    DropDeletes(s, id, op);
    assert WellFormed(View(s));
    assert (states + [s1])[|steps + [Get(id, op)]|] == s1;
    RunExtends(states + [s1], steps + [Get(id, op)], Write(id));
  }

  // ----- Leases -----

  /** The class is as it was, and so is whether there are guardrails, when the pass lists the PDBs. */
  predicate ClassStays(states: seq<State>, op: Op)
    requires InOrder(op.on, |states|)
  {
    && op.wc in states[op.on.pdbs].world.classes
    && states[op.on.pdbs].world.hasGuardrails == states[op.on.guardrails].world.hasGuardrails
  }

  /** No class loses or regains its validation while it is about to open the PDB. */
  predicate OpenersStay(states: seq<State>, steps: seq<Step>, n: string)
    requires Run(states, steps)
  {
    forall i | 0 <= i < |steps| && steps[i].Get? && steps[i].op.intent.Sync? && steps[i].op.name == n ::
      !steps[i].op.intent.isValid ==> ClassStays(states, steps[i].op)
  }

  predicate UndisturbedThroughout(states: seq<State>, p: string, uid: string, expiration: int) {
    forall i | 0 <= i < |states| :: Undisturbed(View(states[i]), p, uid, expiration)
  }

  predicate NoCallPending(s: State, n: string) {
    forall id | id in s.ops :: s.ops[id].name != n
  }

  /** While the instance is leased at the last read, no class decides to write its PDB. */
  lemma LeasedIsNotWritten(op: Op, seen: Cluster, last: Cluster, p: string, uid: string, holder: string, expiration: int)
    requires !op.intent.Drop? && op.name == PdbName(p) && Decides(op, seen, last)
    requires Leasing(last, p, uid, holder, expiration)
    requires p in seen.pods && seen.pods[p].uid == uid
    ensures op.intent.Sync? && !op.intent.isValid
  {
    NameRoundTrip(op.intent.pod.name, op.name);
    NameRoundTrip(p, op.name);
  }

  /** Nor does a class open it, as its owner protects Pods and nobody diverts it. */
  lemma ShieldedIsNotOpened(op: Op, seen: Cluster, last: Cluster, c: Cluster, p: string, uid: string)
    requires op.intent.Sync? && !op.intent.isValid && op.name == PdbName(p)
    requires Shielded(c, p, uid) && NoDiversion(c, p) && op.wc in c.classes
    requires seen.pdbs == c.pdbs && seen.hasGuardrails == c.hasGuardrails
    ensures !Decides(op, seen, last)
  {
    NameRoundTrip(op.intent.pod.name, op.name);
    NameRoundTrip(p, op.name);
    forall m | m in seen.pdbs && PodNameFromPdbName(m) == p
      ensures ControlledBy(seen.pdbs[m], op.wc) ==> op.wc.deleting || PassedValidation(op.wc, seen.hasGuardrails)
    {
      NameRoundTrip(p, m);
    }
  }

  lemma NoWriteDecided(
    states: seq<State>, steps: seq<Step>, p: string, uid: string, holder: string, expiration: int, i: nat)
    requires Run(states, steps) && i < |steps| && steps[i].Get?
    requires UndisturbedThroughout(states, p, uid, expiration)
    requires NobodyMisled(states, steps, p) && OpenersStay(states, steps, PdbName(p))
    requires Leasing(View(states[steps[i].op.on.last]), p, uid, holder, expiration)
    ensures steps[i].op.name != PdbName(p)
  {
    var op := steps[i].op;
    assert Grounded(states, i, op);
    var seen, last := Seen(states, op.on), View(states[op.on.last]);
    assert Undisturbed(View(states[op.on.pods]), p, uid, expiration);
    assert Undisturbed(View(states[op.on.pdbs]), p, uid, expiration);
    if op.name == PdbName(p) {
      if op.intent.Drop? {
        forall j | 0 <= j < |states| ensures p in states[j].world.pods && IsPodActive(states[j].world.pods[p]) {
          assert Undisturbed(View(states[j]), p, uid, expiration);
        }
        NoDropDecided(states, steps, p, i);
      } else {
        LeasedIsNotWritten(op, seen, last, p, uid, holder, expiration);
        ShieldedIsNotOpened(op, seen, last, View(states[op.on.pdbs]), p, uid);
      }
    }
  }

  lemma StepKeepsLeaseStored(s: State, step: Step, p: string, uid: string, holder: string, expiration: int)
    requires VersionsIdentify(s) && Allowed(s, step) && NoCallPending(s, PdbName(p))
    requires step.Get? ==> step.op.name != PdbName(p)
    requires Leasing(View(s), p, uid, holder, expiration) && Apply(s, step).world.now < expiration
    requires OwnerListed(s.world, s.store[PdbName(p)].pdb)
    ensures Leasing(View(Apply(s, step)), p, uid, holder, expiration) && NoCallPending(Apply(s, step), PdbName(p))
  {
    var n := PdbName(p);
    if step.Write? {
      CommitIsAtomic(s, step.id);
    }
    assert Lookup(PdbsOf(Apply(s, step).store), n) == Lookup(PdbsOf(s.store), n);
  }

  /**
   * Between calls, too, an unexpired lease keeps its holder, its expiry and the open budget: in every interleaving of
   * calls, users, Pods and time in which the Pod stays shielded and no pass is misled about it.
   */
  lemma {:induction false} LeaseIsStableInterleaved(
    states: seq<State>, steps: seq<Step>, p: string, uid: string, holder: string, expiration: int, k: nat)
    requires Run(states, steps) && k < |states| && states[0].ops == map[]
    requires UndisturbedThroughout(states, p, uid, expiration) && OwnerStaysListed(states, PdbName(p))
    requires NobodyMisled(states, steps, p) && OpenersStay(states, steps, PdbName(p))
    requires Leasing(View(states[0]), p, uid, holder, expiration)
    ensures forall i | 0 <= i <= k :: Leasing(View(states[i]), p, uid, holder, expiration)
    ensures NoCallPending(states[k], PdbName(p))
  {
    if k > 0 {
      var j, n := k - 1, PdbName(p);
      LeaseIsStableInterleaved(states, steps, p, uid, holder, expiration, j);
      RunKeepsVersions(states, steps, j);
      if steps[j].Get? {
        assert Grounded(states, j, steps[j].op);
        NoWriteDecided(states, steps, p, uid, holder, expiration, j);
      }
      assert Leasing(View(states[j]), p, uid, holder, expiration);
      assert Undisturbed(View(states[k]), p, uid, expiration);
      assert OwnerListed(states[j].world, states[j].store[n].pdb);
      StepKeepsLeaseStored(states[j], steps[j], p, uid, holder, expiration);
    }
  }
}
