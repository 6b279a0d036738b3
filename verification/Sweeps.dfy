/**
 * Reconciling the classes of a quiet namespace one after the other. A pass is reduced to its effect on a single PDB,
 * which is a function of that PDB and of a context that no pass changes.
 */
module Sweeps {
  import opened Wrappers
  import opened Labels
  import opened Types
  import opened Governance
  import opened LeaseTracker
  import opened Pdb
  import opened PdbSpec

  // ----- Sweeps -----

  function ReasonOf(wc: WorkloadClass): Reason {
    if wc.validated.Some? then wc.validated.value.reason else OtherReason
  }

  /** A pass without pending requests and without failures. */
  function QuietPass(c: Cluster, wc: WorkloadClass): Pass {
    Pass(c, wc, ReasonOf(wc), map[], {})
  }

  ghost function After(c: Cluster, wc: WorkloadClass): Cluster {
    var pass := QuietPass(c, wc);
    var names := c.pdbs.Keys + set p | p in c.pods :: PdbName(p);
    c.(pods := map p | p in c.pods && pass.PodAfter(p).Some? :: pass.PodAfter(p).value,
       pdbs := map n | n in names && pass.PdbAfter(n).Some? :: pass.PdbAfter(n).value)
  }

  ghost function Sweep(c: Cluster, order: seq<WorkloadClass>): Cluster {
    if order == [] then c else After(Sweep(c, order[..|order| - 1]), order[|order| - 1])
  }

  lemma AfterIsPass(c: Cluster, wc: WorkloadClass, n: string)
    ensures Lookup(After(c, wc).pdbs, n) == QuietPass(c, wc).PdbAfter(n)
    ensures Lookup(After(c, wc).pods, n) == QuietPass(c, wc).PodAfter(n)
  {
    NameRoundTrip(PodNameFromPdbName(n), n);
    if HasPrefix(n) && PodNameFromPdbName(n) in c.pods {
      assert PdbName(PodNameFromPdbName(n)) == n;
    }
  }

  /** No selector reads the uid label, and no lease is active. */
  ghost predicate Quiet(c: Cluster) {
    && WellFormed(c)
    && (forall wc | wc in c.classes && wc.podSelector.Some? :: Ignores(wc.podSelector.value, POD_UID_LABEL))
    && (forall n | n in c.pdbs && !Managed(c.pdbs[n]) && c.pdbs[n].selector.Some? ::
          Ignores(c.pdbs[n].selector.value, POD_UID_LABEL))
    && (forall p | p in c.pods && PdbName(p) in c.pdbs ::
          ActiveLeaseRemaining(c.pdbs[PdbName(p)], c.pods[p], c.now) <= 0)
  }

  // ----- Diverters -----

  function ControllerOf(classes: seq<WorkloadClass>, pdb: Pdb): Option<WorkloadClass> {
    if classes == [] then None
    else if ControlledBy(pdb, classes[0]) then Some(classes[0])
    else ControllerOf(classes[1..], pdb)
  }

  lemma {:induction false} ControllerIsListed(classes: seq<WorkloadClass>, pdb: Pdb)
    ensures ControllerOf(classes, pdb).Some? ==>
      ControllerOf(classes, pdb).value in classes && ControlledBy(pdb, ControllerOf(classes, pdb).value)
    ensures (exists wc | wc in classes :: ControlledBy(pdb, wc)) ==> ControllerOf(classes, pdb).Some?
  {
    if classes != [] && !ControlledBy(pdb, classes[0]) {
      ControllerIsListed(classes[1..], pdb);
    }
  }

  /** The class opens its PDBs: it is live and does not protect Pods. */
  predicate Opens(wc: WorkloadClass, hasGuardrails: bool) {
    !wc.deleting && !PassedValidation(wc, hasGuardrails)
  }

  /**
   * The class that opens its PDBs and controls one that carries the name of an eligible Pod itself, without the
   * prefix. Opening that PDB writes the prefixed one, whoever owns it.
   */
  function DiverterOf(c: Cluster, p: string): Option<WorkloadClass> {
    if HasPrefix(p) || p !in c.pods || !Eligible(c, c.pods[p]) || p !in c.pdbs then None
    else
      var owner := ControllerOf(c.classes, c.pdbs[p]);
      if owner.Some? && Opens(owner.value, c.hasGuardrails) then owner else None
  }

  lemma DiverterControls(c: Cluster, p: string, wc: WorkloadClass)
    requires WellFormed(c) && wc in c.classes
    ensures DiverterOf(c, p) == Some(wc) <==>
      && !HasPrefix(p) && p in c.pods && Eligible(c, c.pods[p])
      && p in c.pdbs && ControlledBy(c.pdbs[p], wc) && Opens(wc, c.hasGuardrails)
  {
    if p in c.pdbs {
      ControllerIsListed(c.classes, c.pdbs[p]);
    }
  }

  // ----- The effect of a pass on one PDB -----

  /** What a pass reads to decide on one PDB. The Pod carries its uid label, so that visits do not change it. */
  datatype Context = Context(
    hasPrefix: bool, pod: Option<Pod>, eligible: bool, best: Option<WorkloadClass>, enforced: Option<WorkloadClass>,
    hasGuardrails: bool, diverter: Option<WorkloadClass>)

  function ContextOf(c: Cluster, n: string): Context {
    var p := PodNameFromPdbName(n);
    var enforced := Enforced(c.classes, c.enforcedLabel);
    if p in c.pods then
      Context(HasPrefix(n), Some(Patched(c.pods[p])), Eligible(c, c.pods[p]), Best(c, c.pods[p]), enforced, c.hasGuardrails,
              if HasPrefix(n) then DiverterOf(c, p) else None)
    else Context(HasPrefix(n), None, false, None, enforced, c.hasGuardrails, None)
  }

  predicate Acts(k: Context, wc: WorkloadClass) {
    && !wc.deleting
    && (PassedValidation(wc, k.hasGuardrails) && k.enforced.None? && wc.podSelector.Some? ==>
          ValidSelector(wc.podSelector.value))
  }

  predicate OwnedBy(x: Option<Pdb>, wc: WorkloadClass) {
    x.Some? && ControlledBy(x.value, wc)
  }

  /** The Pod is governed by a class that protects it. */
  predicate HasProtector(k: Context) {
    && k.hasPrefix && k.pod.Some? && k.eligible
    && k.best.Some? && PassedValidation(k.best.value, k.hasGuardrails)
  }

  function Effect(k: Context, wc: WorkloadClass, x: Option<Pdb>): Option<Pdb> {
    if !Acts(k, wc) then x
    else if !PassedValidation(wc, k.hasGuardrails) then
      if k.pod.None? || !k.eligible then (if OwnedBy(x, wc) then None else x)
      else if k.hasPrefix && Writable(x) && (OwnedBy(x, wc) || k.diverter == Some(wc)) then
        Some(Synced(Base(x, k.pod.value), k.pod.value, wc, false))
      else x
    else if HasProtector(k) && k.best.value.name == wc.name then
      if Writable(x) then Some(Synced(Base(x, k.pod.value), k.pod.value, wc, true)) else x
    else if OwnedBy(x, wc) then
      if k.pod.Some? && k.eligible && k.best.Some? && k.best.value.name != wc.name
         && PassedValidation(k.best.value, k.hasGuardrails)
      then x else None
    else x
  }

  lemma SyncedByUid(pdb: Pdb, a: Pod, b: Pod, wc: WorkloadClass, isValid: bool)
    requires a.uid == b.uid
    ensures Synced(pdb, a, wc, isValid) == Synced(pdb, b, wc, isValid) && NewPdb(a) == NewPdb(b)
  {
  }

  lemma {:induction false} PatchChangesNothing(c: Cluster, pod: Pod)
    requires Quiet(c)
    ensures Eligible(c, Patched(pod)) == Eligible(c, pod) && Best(c, Patched(pod)) == Best(c, pod)
  {
    if Patched(pod) != pod {
      SelectIgnoresUid(c.classes, pod.labels, pod.uid);
      forall n | n in c.pdbs && !Managed(c.pdbs[n])
        ensures Selects(c.pdbs[n].selector, Patched(pod).labels) == Selects(c.pdbs[n].selector, pod.labels)
      {
        if c.pdbs[n].selector.Some? {
          IgnoredLabel(c.pdbs[n].selector.value, pod.labels, POD_UID_LABEL, pod.uid);
        }
      }
    }
  }

  lemma {:induction false} SelectIgnoresUid(classes: seq<WorkloadClass>, labels: LabelMap, uid: string)
    requires forall wc | wc in classes && wc.podSelector.Some? :: Ignores(wc.podSelector.value, POD_UID_LABEL)
    ensures SelectBest(labels[POD_UID_LABEL := uid], classes) == SelectBest(labels, classes)
  {
    if classes != [] {
      var n := |classes| - 1;
      SelectIgnoresUid(classes[..n], labels, uid);
      if classes[n].podSelector.Some? {
        assert classes[n] in classes;
        IgnoredLabel(classes[n].podSelector.value, labels, POD_UID_LABEL, uid);
      }
      assert Candidate(classes[n], labels[POD_UID_LABEL := uid]) == Candidate(classes[n], labels);
    }
  }

  lemma VisitIsSync(c: Cluster, wc: WorkloadClass, p: string)
    requires Quiet(c) && wc in c.classes && p in c.pods
    ensures var x, pod := Lookup(c.pdbs, PdbName(p)), Patched(c.pods[p]);
      QuietPass(c, wc).VisitOutcome(p).pdb
        == if Writable(x) then Some(Synced(Base(x, pod), pod, wc, true)) else x
  {
    var x := Lookup(c.pdbs, PdbName(p));
    SyncedByUid(Base(x, c.pods[p]), c.pods[p], Patched(c.pods[p]), wc, true);
  }

  lemma OpeningIsEffect(c: Cluster, wc: WorkloadClass, n: string)
    requires Quiet(c) && wc in c.classes && QuietPass(c, wc).Mode().Opening?
    ensures QuietPass(c, wc).PdbAfter(n) == Effect(ContextOf(c, n), wc, Lookup(c.pdbs, n))
  {
    var p, x := PodNameFromPdbName(n), Lookup(c.pdbs, n);
    DiverterControls(c, p, wc);
    if p in c.pods {
      SyncedByUid(Base(x, c.pods[p]), c.pods[p], Patched(c.pods[p]), wc, false);
    }
  }

  lemma GoverningVisitIsEffect(c: Cluster, wc: WorkloadClass, p: string)
    requires Quiet(c) && wc in c.classes && QuietPass(c, wc).Mode().Governing? && QuietPass(c, wc).Visits(p)
    ensures QuietPass(c, wc).VisitOutcome(p).pdb == Effect(ContextOf(c, PdbName(p)), wc, Lookup(c.pdbs, PdbName(p)))
  {
    NameRoundTrip(p, PdbName(p));
    VisitIsSync(c, wc, p);
    BestMatchIsListed(c.pods[p], c.enforcedLabel, c.classes);
    SameName(c.classes, Best(c, c.pods[p]).value, wc);
  }

  lemma GoverningDropIsEffect(c: Cluster, wc: WorkloadClass, n: string)
    requires Quiet(c) && wc in c.classes && QuietPass(c, wc).Mode().Governing? && !QuietPass(c, wc).VisitsName(n)
    ensures QuietPass(c, wc).DropAfter(n) == Effect(ContextOf(c, n), wc, Lookup(c.pdbs, n))
  {
    var p := PodNameFromPdbName(n);
    if p in c.pods {
      PatchChangesNothing(c, c.pods[p]);
    }
  }

  lemma GoverningIsEffect(c: Cluster, wc: WorkloadClass, n: string)
    requires Quiet(c) && wc in c.classes && QuietPass(c, wc).Mode().Governing?
    ensures QuietPass(c, wc).PdbAfter(n) == Effect(ContextOf(c, n), wc, Lookup(c.pdbs, n))
  {
    var p, pass := PodNameFromPdbName(n), QuietPass(c, wc);
    NameRoundTrip(p, n);
    if pass.VisitsName(n) {
      GoverningVisitIsEffect(c, wc, p);
    } else {
      GoverningDropIsEffect(c, wc, n);
    }
  }

  lemma PassIsEffect(c: Cluster, wc: WorkloadClass, n: string)
    requires Quiet(c) && wc in c.classes
    ensures QuietPass(c, wc).PdbAfter(n) == Effect(ContextOf(c, n), wc, Lookup(c.pdbs, n))
  {
    match QuietPass(c, wc).Mode()
    case Opening => OpeningIsEffect(c, wc, n);
    case Governing => GoverningIsEffect(c, wc, n);
    case _ =>
  }

  // ----- A sweep keeps the namespace quiet and the context of every PDB -----

  lemma EffectKeepsForeign(k: Context, wc: WorkloadClass, x: Option<Pdb>)
    requires x.Some? && !Managed(x.value)
    ensures Effect(k, wc, x) == x
  {
  }

  lemma EffectOutcome(k: Context, wc: WorkloadClass, x: Option<Pdb>)
    ensures var y := Effect(k, wc, x);
      || y == x || y.None?
      || (k.hasPrefix && k.pod.Some? && OwnedBy(y, wc) && y.value.holder == "")
  {
  }

  lemma AfterSparesUserPdbs(c: Cluster, wc: WorkloadClass, labels: LabelMap)
    requires Quiet(c) && wc in c.classes
    ensures forall n | n in After(c, wc).pdbs && !Managed(After(c, wc).pdbs[n]) ::
        n in c.pdbs && c.pdbs[n] == After(c, wc).pdbs[n]
    ensures Covered(labels, After(c, wc).pdbs) == Covered(labels, c.pdbs)
  {
    var c' := After(c, wc);
    forall n ensures n in c'.pdbs && !Managed(c'.pdbs[n]) <==> n in c.pdbs && !Managed(c.pdbs[n])
      ensures n in c.pdbs && !Managed(c.pdbs[n]) ==> Lookup(c'.pdbs, n) == Lookup(c.pdbs, n)
    {
      AfterIsPass(c, wc, n);
      PassIsEffect(c, wc, n);
      EffectOutcome(ContextOf(c, n), wc, Lookup(c.pdbs, n));
      if n in c.pdbs && !Managed(c.pdbs[n]) {
        EffectKeepsForeign(ContextOf(c, n), wc, Lookup(c.pdbs, n));
      }
    }
  }

  lemma AfterKeepsPods(c: Cluster, wc: WorkloadClass, p: string)
    requires Quiet(c)
    ensures p in After(c, wc).pods <==> p in c.pods
    ensures p in c.pods ==> After(c, wc).pods[p] in {c.pods[p], Patched(c.pods[p])}
  {
    AfterIsPass(c, wc, p);
  }

  lemma AfterPdbIsQuiet(c: Cluster, wc: WorkloadClass, n: string)
    requires Quiet(c) && wc in c.classes && n in After(c, wc).pdbs
    ensures After(c, wc).pdbs[n].holder == "" || Lookup(c.pdbs, n) == Some(After(c, wc).pdbs[n])
  {
    AfterIsPass(c, wc, n);
    PassIsEffect(c, wc, n);
    EffectOutcome(ContextOf(c, n), wc, Lookup(c.pdbs, n));
  }

  lemma AfterIsQuiet(c: Cluster, wc: WorkloadClass)
    requires Quiet(c) && wc in c.classes
    ensures Quiet(After(c, wc))
  {
    var c' := After(c, wc);
    AfterSparesUserPdbs(c, wc, map[]);
    forall p | p in c'.pods ensures c'.pods[p].name == p {
      AfterKeepsPods(c, wc, p);
    }
    forall p | p in c'.pods && PdbName(p) in c'.pdbs
      ensures ActiveLeaseRemaining(c'.pdbs[PdbName(p)], c'.pods[p], c'.now) <= 0
    {
      AfterPdbIsQuiet(c, wc, PdbName(p));
      AfterKeepsPods(c, wc, p);
    }
  }

  lemma AfterKeepsEligible(c: Cluster, wc: WorkloadClass, p: string)
    requires Quiet(c) && wc in c.classes && p in c.pods
    ensures p in After(c, wc).pods
    ensures Eligible(After(c, wc), After(c, wc).pods[p]) == Eligible(c, c.pods[p])
    ensures Best(After(c, wc), After(c, wc).pods[p]) == Best(c, c.pods[p])
    ensures Patched(After(c, wc).pods[p]) == Patched(c.pods[p])
  {
    AfterKeepsPods(c, wc, p);
    PatchChangesNothing(c, c.pods[p]);
    AfterSparesUserPdbs(c, wc, After(c, wc).pods[p].labels);
  }

  /** A PDB without the prefix is never written, and one of an eligible Pod never deleted by a class that opens PDBs. */
  lemma UnprefixedEffect(k: Context, wc: WorkloadClass, x: Option<Pdb>)
    requires !k.hasPrefix
    ensures Effect(k, wc, x) == x || (Effect(k, wc, x).None? && OwnedBy(x, wc))
    ensures k.pod.Some? && k.eligible && !PassedValidation(wc, k.hasGuardrails) ==> Effect(k, wc, x) == x
  {
  }

  lemma AfterKeepsDiverter(c: Cluster, wc: WorkloadClass, p: string)
    requires Quiet(c) && wc in c.classes
    ensures DiverterOf(After(c, wc), p) == DiverterOf(c, p)
  {
    AfterKeepsPods(c, wc, p);
    if !HasPrefix(p) && p in c.pods && Eligible(c, c.pods[p]) {
      AfterKeepsEligible(c, wc, p);
      AfterIsPass(c, wc, p);
      PassIsEffect(c, wc, p);
      UnprefixedEffect(ContextOf(c, p), wc, Lookup(c.pdbs, p));
      if p in c.pdbs {
        ControllerIsListed(c.classes, c.pdbs[p]);
      }
    } else if p in c.pods {
      AfterKeepsEligible(c, wc, p);
    }
  }

  lemma AfterKeepsContext(c: Cluster, wc: WorkloadClass, n: string)
    requires Quiet(c) && wc in c.classes
    ensures ContextOf(After(c, wc), n) == ContextOf(c, n)
  {
    var p := PodNameFromPdbName(n);
    AfterKeepsPods(c, wc, p);
    AfterKeepsDiverter(c, wc, p);
    if p in c.pods {
      AfterKeepsEligible(c, wc, p);
    }
  }

  // ----- Sweeping one PDB -----

  function Fold(k: Context, order: seq<WorkloadClass>, x: Option<Pdb>): Option<Pdb> {
    if order == [] then x else Effect(k, order[|order| - 1], Fold(k, order[..|order| - 1], x))
  }

  lemma {:induction false} SweepIsFold(c: Cluster, order: seq<WorkloadClass>, n: string)
    requires Quiet(c) && forall wc | wc in order :: wc in c.classes
    ensures Quiet(Sweep(c, order)) && Sweep(c, order).classes == c.classes
    ensures ContextOf(Sweep(c, order), n) == ContextOf(c, n)
    ensures Lookup(Sweep(c, order).pdbs, n) == Fold(ContextOf(c, n), order, Lookup(c.pdbs, n))
  {
    if order != [] {
      var before, wc := Sweep(c, order[..|order| - 1]), order[|order| - 1];
      SweepIsFold(c, order[..|order| - 1], n);
      assert wc in order;
      AfterIsQuiet(before, wc);
      AfterKeepsContext(before, wc, n);
      AfterIsPass(before, wc, n);
      PassIsEffect(before, wc, n);
    }
  }
}
