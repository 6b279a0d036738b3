/**
 * Confluence of the passes: exactly when reconciling every class of a quiet namespace ends in the same PDBs
 * whatever the order, and exactly when doing it again changes nothing.
 */
module Confluence {
  import opened Wrappers
  import opened Labels
  import opened Types
  import opened Governance
  import opened Pdb
  import opened PdbSpec
  import opened Sweeps
  import PdbRuns

  /** The protector of a Pod acts: it is live, and its selector is valid or not needed. */
  predicate ProtectorActs(k: Context) {
    HasProtector(k) ==> Acts(k, k.best.value)
  }

  lemma ContextIsSound(c: Cluster, n: string)
    requires WellFormed(c)
    ensures ProtectorActs(ContextOf(c, n))
    ensures HasProtector(ContextOf(c, n)) ==> ContextOf(c, n).best.value in c.classes
  {
    var p := PodNameFromPdbName(n);
    if p in c.pods {
      BestMatchIsListed(c.pods[p], c.enforcedLabel, c.classes);
    }
  }

  predicate Distinct(a: WorkloadClass, b: WorkloadClass) {
    a != b ==> a.name != b.name && a.uid != b.uid
  }

  /** The protector's effect hides every other class's effect before it and after it. */
  lemma ProtectorAbsorbs(k: Context, wc: WorkloadClass, x: Option<Pdb>)
    requires HasProtector(k) && k.diverter.None? && ProtectorActs(k) && Distinct(wc, k.best.value)
    ensures Effect(k, k.best.value, Effect(k, wc, x)) == Effect(k, k.best.value, x)
    ensures Effect(k, wc, Effect(k, k.best.value, x)) == Effect(k, k.best.value, x)
  {
    var g, pod := k.best.value, k.pod.value;
    SyncedByUid(Base(x, pod), pod, pod, g, true);
    var b := Base(x, pod);
    assert b.labels[POD_UID_LABEL := pod.uid][POD_UID_LABEL := pod.uid] == b.labels[POD_UID_LABEL := pod.uid];
    assert Synced(Synced(b, pod, wc, false), pod, g, true) == Synced(b, pod, g, true);
    assert Synced(Synced(b, pod, g, true), pod, g, true) == Synced(b, pod, g, true);
  }

  lemma {:induction false} ProtectedFold(k: Context, order: seq<WorkloadClass>, x: Option<Pdb>)
    requires HasProtector(k) && k.diverter.None? && ProtectorActs(k)
    requires forall wc | wc in order :: Distinct(wc, k.best.value)
    ensures Effect(k, k.best.value, Fold(k, order, x)) == Effect(k, k.best.value, x)
    ensures k.best.value in order ==> Fold(k, order, x) == Effect(k, k.best.value, x)
  {
    if order != [] {
      var n := |order| - 1;
      assert order == order[..n] + [order[n]];
      ProtectedFold(k, order[..n], x);
      ProtectorAbsorbs(k, order[n], Fold(k, order[..n], x));
      ProtectorAbsorbs(k, order[n], x);
    }
  }

  /** Without a protector only the owner of a PDB affects it, and it settles the PDB at once. */
  lemma OwnerSettles(k: Context, wc: WorkloadClass, x: Option<Pdb>)
    requires !HasProtector(k) && k.diverter.None? && (k.best.Some? ==> Distinct(wc, k.best.value))
    ensures !OwnedBy(x, wc) ==> Effect(k, wc, x) == x
    ensures var y := Effect(k, wc, x); (y.None? || y == x || OwnedBy(y, wc)) && Effect(k, wc, y) == y
  {
    if OwnedBy(x, wc) && k.pod.Some? {
      var pod := k.pod.value;
      assert x.value.labels[POD_UID_LABEL := pod.uid][POD_UID_LABEL := pod.uid] == x.value.labels[POD_UID_LABEL := pod.uid];
      assert Synced(Synced(x.value, pod, wc, false), pod, wc, false) == Synced(x.value, pod, wc, false);
    }
  }

  lemma {:induction false} UnprotectedFold(k: Context, order: seq<WorkloadClass>, x: Option<Pdb>)
    requires !HasProtector(k) && k.diverter.None?
    requires forall wc | wc in order :: k.best.Some? ==> Distinct(wc, k.best.value)
    requires forall a, b | a in order && b in order :: Distinct(a, b)
    ensures (forall wc | wc in order :: !OwnedBy(x, wc)) ==> Fold(k, order, x) == x
    ensures forall wc | wc in order && OwnedBy(x, wc) :: Fold(k, order, x) == Effect(k, wc, x)
  {
    if order != [] {
      var n := |order| - 1;
      assert order == order[..n] + [order[n]];
      UnprotectedFold(k, order[..n], x);
      OwnerSettles(k, order[n], Fold(k, order[..n], x));
      forall wc | wc in order && OwnedBy(x, wc) ensures Fold(k, order, x) == Effect(k, wc, x) {
        OwnerSettles(k, wc, x);
        assert Distinct(order[n], wc);
        if wc in order[..n] {
          assert Fold(k, order[..n], x) == Effect(k, wc, x);
        } else {
          assert forall v | v in order[..n] && OwnedBy(x, v) :: v in order && Distinct(v, wc);
          assert Fold(k, order[..n], x) == x && order[n] == wc;
        }
      }
    }
  }

  // ----- Covering orders -----

  /** Every live class is reconciled at least once, and no others. */
  predicate Covers(c: Cluster, order: seq<WorkloadClass>) {
    && (forall wc | wc in order :: wc in c.classes)
    && (forall wc | wc in c.classes && !wc.deleting :: wc in order)
  }

  /** Every live class is reconciled exactly once. */
  predicate CoversOnce(c: Cluster, order: seq<WorkloadClass>) {
    Covers(c, order) && forall i, j | 0 <= i < j < |order| :: order[i] != order[j]
  }

  function Others(classes: seq<WorkloadClass>, but: set<WorkloadClass>): seq<WorkloadClass> {
    if classes == [] then []
    else
      var last := classes[|classes| - 1];
      Others(classes[..|classes| - 1], but) + (if last in but then [] else [last])
  }

  lemma {:induction false} OthersAre(classes: seq<WorkloadClass>, but: set<WorkloadClass>)
    ensures forall wc :: wc in Others(classes, but) <==> wc in classes && wc !in but
    ensures UniqueNames(classes) ==>
      forall i, j | 0 <= i < j < |Others(classes, but)| :: Others(classes, but)[i] != Others(classes, but)[j]
  {
    if classes != [] {
      var n := |classes| - 1;
      OthersAre(classes[..n], but);
      assert classes == classes[..n] + [classes[n]];
      if UniqueNames(classes) {
        assert forall wc | wc in classes[..n] :: wc != classes[n];
        assert forall i | 0 <= i < |Others(classes[..n], but)| ::
            Others(classes[..n], but)[i] in Others(classes[..n], but);
      }
    }
  }

  /** The other classes, with two classes put first or last. */
  lemma OthersCover(c: Cluster, a: WorkloadClass, b: WorkloadClass, but: set<WorkloadClass>)
    requires WellFormed(c) && a in c.classes && b in c.classes && a != b && but == {a, b}
    ensures var rest := Others(c.classes, but); CoversOnce(c, rest + [a, b]) && CoversOnce(c, [a, b] + rest)
  {
    OthersAre(c.classes, but);
    var rest := Others(c.classes, but);
    assert forall i | 0 <= i < |rest| :: rest[i] in rest;
    assert forall wc | wc in c.classes :: wc in rest || wc in {a, b};
  }

  lemma AllDistinct(c: Cluster, a: WorkloadClass, b: WorkloadClass)
    requires WellFormed(c) && a in c.classes && b in c.classes
    ensures Distinct(a, b)
  {
  }

  lemma UndivertedFold(c: Cluster, n: string, a: seq<WorkloadClass>, b: seq<WorkloadClass>, x: Option<Pdb>)
    requires WellFormed(c) && Covers(c, a) && Covers(c, b) && ContextOf(c, n).diverter.None?
    ensures Fold(ContextOf(c, n), a, x) == Fold(ContextOf(c, n), b, x)
  {
    var k := ContextOf(c, n);
    ContextIsSound(c, n);
    forall v, w | v in c.classes && w in c.classes ensures Distinct(v, w) {
      AllDistinct(c, v, w);
    }
    if HasProtector(k) {
      ProtectedFold(k, a, x);
      ProtectedFold(k, b, x);
    } else {
      BestIsListed(c, n);
      UnprotectedFold(k, a, x);
      UnprotectedFold(k, b, x);
      if wc :| wc in c.classes && OwnedBy(x, wc) {
        DeletingIsInert(k, wc, x);
      }
    }
  }

  lemma BestIsListed(c: Cluster, n: string)
    ensures ContextOf(c, n).best.Some? ==> ContextOf(c, n).best.value in c.classes
  {
    var p := PodNameFromPdbName(n);
    if p in c.pods {
      BestMatchIsListed(c.pods[p], c.enforcedLabel, c.classes);
    }
  }

  lemma DeletingIsInert(k: Context, wc: WorkloadClass, x: Option<Pdb>)
    ensures wc.deleting ==> Effect(k, wc, x) == x
  {
  }

  lemma {:induction false} FoldAppends(k: Context, a: seq<WorkloadClass>, b: seq<WorkloadClass>, x: Option<Pdb>)
    ensures Fold(k, a + b, x) == Fold(k, b, Fold(k, a, x))
  {
    if b == [] {
      assert a + b == a;
    } else {
      assert (a + b)[..|a + b| - 1] == a + b[..|b| - 1];
      FoldAppends(k, a, b[..|b| - 1], x);
    }
  }

  // ----- A diverted PDB -----

  /** Another class than the governing one may take the PDB over, by opening a PDB that carries the Pod's own name. */
  predicate Diverted(k: Context) {
    && k.hasPrefix && k.pod.Some? && k.eligible
    && k.diverter.Some? && Opens(k.diverter.value, k.hasGuardrails)
  }

  /** The class deletes the PDB. */
  predicate Destroys(k: Context, wc: WorkloadClass, x: Option<Pdb>) {
    OwnedBy(x, wc) && Acts(k, wc) && PassedValidation(wc, k.hasGuardrails)
  }

  /** The PDB once the diverter has taken it over. */
  function Taken(k: Context, x: Option<Pdb>): Option<Pdb>
    requires Diverted(k)
  {
    Effect(k, k.diverter.value, x)
  }

  /** Something other than the uid label and the controller would be lost if the PDB were created anew. */
  predicate Decorated(x: Option<Pdb>) {
    x.Some? && (x.value.otherRefs != [] || exists key | key in x.value.labels :: key != POD_UID_LABEL)
  }

  lemma TakenAnew(k: Context, x: Option<Pdb>)
    requires Diverted(k) && Writable(x)
    ensures OwnedBy(Taken(k, x), k.diverter.value) && Taken(k, Taken(k, x)) == Taken(k, x)
    ensures Taken(k, x) == Taken(k, None) <==> !Decorated(x)
  {
    var pod, a := k.pod.value, k.diverter.value;
    var b := Base(x, pod);
    assert b.labels[POD_UID_LABEL := pod.uid][POD_UID_LABEL := pod.uid] == b.labels[POD_UID_LABEL := pod.uid];
    assert Synced(Synced(b, pod, a, false), pod, a, false) == Synced(b, pod, a, false);
    var renewed := map[POD_UID_LABEL := pod.uid];
    assert renewed[POD_UID_LABEL := pod.uid] == renewed;
    assert b.labels[POD_UID_LABEL := pod.uid] == renewed <==> forall key | key in b.labels :: key == POD_UID_LABEL by {
      assert forall key | key in b.labels :: key in b.labels[POD_UID_LABEL := pod.uid];
    }
  }

  /** Whatever a class does first, the diverter ends with the same PDB, unless that class deletes it. */
  lemma TakenAbsorbs(k: Context, wc: WorkloadClass, x: Option<Pdb>)
    requires Diverted(k) && !HasProtector(k) && Writable(x) && Distinct(wc, k.diverter.value)
    ensures Writable(Effect(k, wc, x))
    ensures Taken(k, Effect(k, wc, x)) == Taken(k, if Destroys(k, wc, x) then None else x)
    ensures var y := Effect(k, wc, x);
      y == x || y.None? || (OwnedBy(y, wc) && !PassedValidation(wc, k.hasGuardrails))
  {
    var pod, b := k.pod.value, Base(x, k.pod.value);
    assert b.labels[POD_UID_LABEL := pod.uid][POD_UID_LABEL := pod.uid] == b.labels[POD_UID_LABEL := pod.uid];
    assert Synced(Synced(b, pod, wc, false), pod, k.diverter.value, false) == Synced(b, pod, k.diverter.value, false);
  }

  /** Once taken over, the PDB stays as it is unless the Pod has a protector. */
  lemma {:induction false} TakenStays(k: Context, order: seq<WorkloadClass>, y: Option<Pdb>)
    requires Diverted(k) && !HasProtector(k) && Writable(y)
    requires OwnedBy(y, k.diverter.value) && Taken(k, y) == y
    requires forall wc | wc in order :: Distinct(wc, k.diverter.value)
    ensures Fold(k, order, y) == y
  {
    if order != [] {
      var n := |order| - 1;
      assert order == order[..n] + [order[n]];
      assert order[n] in order && forall wc | wc in order[..n] :: wc in order;
      TakenStays(k, order[..n], y);
      assert Distinct(order[n], k.diverter.value);
    }
  }

  lemma {:induction false} DivertedFold(k: Context, order: seq<WorkloadClass>, x: Option<Pdb>)
    requires Diverted(k) && !HasProtector(k) && Writable(x)
    requires forall v, w | v in order + [k.diverter.value] && w in order + [k.diverter.value] :: Distinct(v, w)
    ensures var y := Fold(k, order, x);
      && Writable(y)
      && (Taken(k, y) == Taken(k, x) || Taken(k, y) == Taken(k, None))
      && ((forall wc | wc in order :: !Destroys(k, wc, x)) ==> Taken(k, y) == Taken(k, x))
      && (k.diverter.value in order ==> y == Taken(k, y))
      && (y == x || y.None? || exists v | v in order :: OwnedBy(y, v) && !PassedValidation(v, k.hasGuardrails))
  {
    if order != [] {
      var n := |order| - 1;
      var wc, y := order[n], Fold(k, order[..n], x);
      assert order == order[..n] + [wc];
      assert forall v | v in order[..n] + [k.diverter.value] :: v in order + [k.diverter.value];
      DivertedFold(k, order[..n], x);
      TakenAbsorbs(k, wc, y);
      TakenAnew(k, y);
      forall v | v in order[..n] && OwnedBy(y, v)
        ensures OwnedBy(y, wc) ==> v == wc
      {
        assert Distinct(v, wc);
      }
      if k.diverter.value in order[..n] && wc != k.diverter.value {
        assert Distinct(wc, k.diverter.value);
        TakenStays(k, [wc], y);
        assert [wc][..0] == [] && Fold(k, [wc], y) == Effect(k, wc, Fold(k, [], y));
      }
    }
  }

  // ----- Contested PDBs -----

  /**
   * Two classes disagree on a PDB: one takes it over by opening the PDB of the Pod's own name, and the other governs
   * the Pod and protects it, or owns the PDB, deletes it, and something would be lost by that.
   */
  predicate Contested(k: Context, classes: seq<WorkloadClass>, x: Option<Pdb>) {
    && Diverted(k) && Writable(x)
    && (HasProtector(k) || (Decorated(x) && exists wc | wc in classes :: Destroys(k, wc, x)))
  }

  lemma DiverterIsSound(c: Cluster, n: string)
    requires WellFormed(c)
    ensures var k := ContextOf(c, n);
      k.diverter.Some? ==> Diverted(k) && k.diverter.value in c.classes && !k.diverter.value.deleting
  {
    var p := PodNameFromPdbName(n);
    if p in c.pdbs {
      ControllerIsListed(c.classes, c.pdbs[p]);
    }
  }

  lemma {:induction false} ForeignFold(k: Context, order: seq<WorkloadClass>, x: Option<Pdb>)
    ensures !Writable(x) ==> Fold(k, order, x) == x
    ensures Writable(x) ==> Writable(Fold(k, order, x))
  {
    if order != [] {
      ForeignFold(k, order[..|order| - 1], x);
      EffectOutcome(k, order[|order| - 1], Fold(k, order[..|order| - 1], x));
    }
  }

  lemma FoldIgnoresOrder(c: Cluster, n: string, a: seq<WorkloadClass>, b: seq<WorkloadClass>, x: Option<Pdb>)
    requires WellFormed(c) && Covers(c, a) && Covers(c, b) && !Contested(ContextOf(c, n), c.classes, x)
    ensures Fold(ContextOf(c, n), a, x) == Fold(ContextOf(c, n), b, x)
  {
    var k := ContextOf(c, n);
    DiverterIsSound(c, n);
    if k.diverter.None? {
      UndivertedFold(c, n, a, b, x);
    } else if !Writable(x) {
      ForeignFold(k, a, x);
      ForeignFold(k, b, x);
    } else {
      TakenAnew(k, x);
      FoldIsTaken(c, n, a, x);
      FoldIsTaken(c, n, b, x);
    }
  }

  /** Without a protector the diverter ends with the PDB: the one that is there, or a new one if it is deleted first. */
  lemma FoldIsTaken(c: Cluster, n: string, order: seq<WorkloadClass>, x: Option<Pdb>)
    requires WellFormed(c) && Covers(c, order)
    requires var k := ContextOf(c, n); k.diverter.Some? && Diverted(k) && !HasProtector(k) && Writable(x)
    ensures var k := ContextOf(c, n);
      var y := Fold(k, order, x);
      && (y == Taken(k, x) || y == Taken(k, None))
      && ((forall wc | wc in c.classes :: !Destroys(k, wc, x)) ==> y == Taken(k, x))
      && Taken(k, y) == y && OwnedBy(y, k.diverter.value) && Writable(y)
  {
    var k := ContextOf(c, n);
    DiverterIsSound(c, n);
    forall v, w | v in c.classes && w in c.classes ensures Distinct(v, w) {
      AllDistinct(c, v, w);
    }
    DivertedFold(k, order, x);
    TakenAnew(k, x);
    TakenAnew(k, None);
  }

  lemma FoldOfTwo(k: Context, a: WorkloadClass, b: WorkloadClass, x: Option<Pdb>)
    ensures Fold(k, [a, b], x) == Effect(k, b, Effect(k, a, x)) && Fold(k, [a], x) == Effect(k, a, x)
  {
    assert [a, b][..1] == [a] && [a][..0] == [];
    assert Fold(k, [a], x) == Effect(k, a, Fold(k, [], x));
  }

  /** With a protector, whichever of the two comes last owns the PDB. */
  lemma LastOneOwns(k: Context, y: Option<Pdb>)
    requires Diverted(k) && HasProtector(k) && ProtectorActs(k) && Writable(y)
    ensures OwnedBy(Effect(k, k.best.value, Effect(k, k.diverter.value, y)), k.best.value)
    ensures OwnedBy(Effect(k, k.diverter.value, Effect(k, k.best.value, y)), k.diverter.value)
  {
    EffectOutcome(k, k.best.value, y);
    EffectOutcome(k, k.diverter.value, y);
  }

  /** For every contested PDB there are two orders, each with every class once, that end differently. */
  lemma ContestDependsOnOrder(c: Cluster, n: string, x: Option<Pdb>) returns (a: seq<WorkloadClass>, b: seq<WorkloadClass>)
    requires WellFormed(c) && Contested(ContextOf(c, n), c.classes, x)
    ensures CoversOnce(c, a) && CoversOnce(c, b) && Fold(ContextOf(c, n), a, x) != Fold(ContextOf(c, n), b, x)
  {
    if HasProtector(ContextOf(c, n)) {
      a, b := ProtectorContest(c, n, x);
    } else {
      a, b := DestroyerContest(c, n, x);
    }
  }

  lemma ProtectorContest(c: Cluster, n: string, x: Option<Pdb>) returns (a: seq<WorkloadClass>, b: seq<WorkloadClass>)
    requires WellFormed(c) && var k := ContextOf(c, n); Diverted(k) && HasProtector(k) && Writable(x)
    ensures CoversOnce(c, a) && CoversOnce(c, b) && Fold(ContextOf(c, n), a, x) != Fold(ContextOf(c, n), b, x)
  {
    var k := ContextOf(c, n);
    DiverterIsSound(c, n);
    ContextIsSound(c, n);
    var d, g := k.diverter.value, k.best.value;
    var rest := Others(c.classes, {d, g});
    OthersCover(c, d, g, {d, g});
    OthersCover(c, g, d, {d, g});
    a, b := rest + [d, g], rest + [g, d];
    ContestedFolds(c, n, x, rest);
  }

  lemma DestroyerContest(c: Cluster, n: string, x: Option<Pdb>) returns (a: seq<WorkloadClass>, b: seq<WorkloadClass>)
    requires WellFormed(c) && Contested(ContextOf(c, n), c.classes, x) && !HasProtector(ContextOf(c, n))
    ensures CoversOnce(c, a) && CoversOnce(c, b) && Fold(ContextOf(c, n), a, x) != Fold(ContextOf(c, n), b, x)
  {
    var k := ContextOf(c, n);
    DiverterIsSound(c, n);
    var w :| w in c.classes && Destroys(k, w, x);
    var d := k.diverter.value;
    var rest := Others(c.classes, {d, w});
    OthersAre(c.classes, {d, w});
    OthersCover(c, d, w, {d, w});
    OthersCover(c, w, d, {d, w});
    a, b := [d, w] + rest, [w, d] + rest;
    DestroyerFolds(c, n, x, w, rest);
    TakenAnew(k, x);
  }

  /** Without a protector, the diverter keeps the PDB if it comes before the class that would delete it. */
  lemma DestroyerFolds(c: Cluster, n: string, x: Option<Pdb>, w: WorkloadClass, rest: seq<WorkloadClass>)
    requires WellFormed(c) && w in c.classes && forall v | v in rest :: v in c.classes
    requires var k := ContextOf(c, n); Diverted(k) && !HasProtector(k) && Writable(x) && Destroys(k, w, x)
    ensures var k := ContextOf(c, n);
      && Fold(k, [k.diverter.value, w] + rest, x) == Taken(k, x)
      && Fold(k, [w, k.diverter.value] + rest, x) == Taken(k, None)
  {
    var k := ContextOf(c, n);
    DiverterIsSound(c, n);
    var d := k.diverter.value;
    forall v | v in c.classes ensures Distinct(v, d) {
      AllDistinct(c, v, d);
    }
    FoldAppends(k, [d, w], rest, x);
    FoldAppends(k, [w, d], rest, x);
    FoldOfTwo(k, d, w, x);
    FoldOfTwo(k, w, d, x);
    TakenAnew(k, x);
    TakenAnew(k, None);
    TakenStays(k, [w] + rest, Taken(k, x));
    FoldAppends(k, [w], rest, Taken(k, x));
    TakenStays(k, [w], Taken(k, x));
    TakenStays(k, rest, Taken(k, x));
    TakenStays(k, rest, Taken(k, None));
    FoldOfTwo(k, w, d, Taken(k, x));
  }

  lemma ContestedFolds(c: Cluster, n: string, x: Option<Pdb>, order: seq<WorkloadClass>)
    requires WellFormed(c) && var k := ContextOf(c, n); Diverted(k) && HasProtector(k) && Writable(x)
    ensures var k := ContextOf(c, n);
      && OwnedBy(Fold(k, order + [k.diverter.value, k.best.value], x), k.best.value)
      && OwnedBy(Fold(k, order + [k.best.value, k.diverter.value], x), k.diverter.value)
      && k.best.value.uid != k.diverter.value.uid
  {
    var k := ContextOf(c, n);
    DiverterIsSound(c, n);
    ContextIsSound(c, n);
    AllDistinct(c, k.best.value, k.diverter.value);
    ForeignFold(k, order, x);
    FoldAppends(k, order, [k.diverter.value, k.best.value], x);
    FoldAppends(k, order, [k.best.value, k.diverter.value], x);
    FoldOfTwo(k, k.diverter.value, k.best.value, Fold(k, order, x));
    FoldOfTwo(k, k.best.value, k.diverter.value, Fold(k, order, x));
    LastOneOwns(k, Fold(k, order, x));
  }

  // ----- Confluence -----

  /** No PDB is contested. */
  predicate Uncontested(c: Cluster) {
    forall p | p in c.pods :: !ContestedPod(c, p)
  }

  predicate ContestedPod(c: Cluster, p: string) {
    Contested(ContextOf(c, PdbName(p)), c.classes, Lookup(c.pdbs, PdbName(p)))
  }

  /** A live class that does not protect Pods controls the PDB that carries the eligible Pod's own name. */
  predicate StrayOwner(c: Cluster, p: string, wc: WorkloadClass) {
    && !HasPrefix(p) && p in c.pods && Eligible(c, c.pods[p])
    && p in c.pdbs && ControlledBy(c.pdbs[p], wc) && Opens(wc, c.hasGuardrails)
  }

  /** A live class that protects Pods, and whose passes do not fail, controls the PDB. */
  predicate ProtectingOwner(c: Cluster, wc: WorkloadClass, x: Option<Pdb>) {
    && OwnedBy(x, wc) && !wc.deleting && PassedValidation(wc, c.hasGuardrails)
    && (Enforced(c.classes, c.enforcedLabel).None? && wc.podSelector.Some? ==> ValidSelector(wc.podSelector.value))
  }

  /** Contested, in the cluster's own terms. */
  lemma ContestedPodMeans(c: Cluster, p: string)
    requires WellFormed(c) && p in c.pods
    ensures var x := Lookup(c.pdbs, PdbName(p));
      ContestedPod(c, p) <==>
        && Writable(x) && (exists wc | wc in c.classes :: StrayOwner(c, p, wc))
        && (PdbRuns.Guarded(c, p) || (Decorated(x) && exists wc | wc in c.classes :: ProtectingOwner(c, wc, x)))
  {
    var n := PdbName(p);
    NameRoundTrip(p, n);
    DiverterIsSound(c, n);
    forall wc | wc in c.classes
      ensures DiverterOf(c, p) == Some(wc) <==> StrayOwner(c, p, wc)
      ensures Destroys(ContextOf(c, n), wc, Lookup(c.pdbs, n)) <==> ProtectingOwner(c, wc, Lookup(c.pdbs, n))
    {
      DiverterControls(c, p, wc);
    }
  }

  lemma UncontestedNames(c: Cluster, n: string)
    requires Uncontested(c)
    ensures !Contested(ContextOf(c, n), c.classes, Lookup(c.pdbs, n))
  {
    NameRoundTrip(PodNameFromPdbName(n), n);
    if Contested(ContextOf(c, n), c.classes, Lookup(c.pdbs, n)) {
      assert ContestedPod(c, PodNameFromPdbName(n));
    }
  }

  /** Any two orders of reconciling the classes of a quiet namespace end in the same PDBs, if none is contested. */
  lemma {:induction false} SweepsAreConfluent(c: Cluster, a: seq<WorkloadClass>, b: seq<WorkloadClass>)
    requires Quiet(c) && Covers(c, a) && Covers(c, b) && Uncontested(c)
    ensures Sweep(c, a).pdbs == Sweep(c, b).pdbs
  {
    forall n ensures Lookup(Sweep(c, a).pdbs, n) == Lookup(Sweep(c, b).pdbs, n) {
      SweepIsFold(c, a, n);
      SweepIsFold(c, b, n);
      UncontestedNames(c, n);
      FoldIgnoresOrder(c, n, a, b, Lookup(c.pdbs, n));
    }
    SameLookups(Sweep(c, a).pdbs, Sweep(c, b).pdbs);
  }

  ghost predicate Confluent(c: Cluster) {
    forall a, b | Covers(c, a) && Covers(c, b) :: Sweep(c, a).pdbs == Sweep(c, b).pdbs
  }

  /** The same for orders that reconcile each live class exactly once. */
  ghost predicate ConfluentOnce(c: Cluster) {
    forall a, b | CoversOnce(c, a) && CoversOnce(c, b) :: Sweep(c, a).pdbs == Sweep(c, b).pdbs
  }

  /** The order never matters, with or without repeating classes, exactly if no PDB is contested. */
  lemma {:induction false} ConfluentExactlyIfUncontested(c: Cluster)
    requires Quiet(c)
    ensures Confluent(c) <==> Uncontested(c)
    ensures ConfluentOnce(c) <==> Uncontested(c)
  {
    if Uncontested(c) {
      forall a, b | Covers(c, a) && Covers(c, b) ensures Sweep(c, a).pdbs == Sweep(c, b).pdbs {
        SweepsAreConfluent(c, a, b);
      }
    } else {
      var p :| p in c.pods && ContestedPod(c, p);
      var n := PdbName(p);
      var a, b := ContestDependsOnOrder(c, n, Lookup(c.pdbs, n));
      SweepIsFold(c, a, n);
      SweepIsFold(c, b, n);
      assert Lookup(Sweep(c, a).pdbs, n) != Lookup(Sweep(c, b).pdbs, n);
    }
  }

  // ----- Idempotence -----

  /** The Pod is guarded, and its PDB can be taken over by a class that only opens PDBs. */
  predicate Disputed(k: Context, x: Option<Pdb>) {
    Diverted(k) && Writable(x) && HasProtector(k)
  }

  predicate Undisputed(c: Cluster) {
    forall p | p in c.pods :: !DisputedPod(c, p)
  }

  predicate DisputedPod(c: Cluster, p: string) {
    Disputed(ContextOf(c, PdbName(p)), Lookup(c.pdbs, PdbName(p)))
  }

  lemma FoldTwice(c: Cluster, n: string, a: seq<WorkloadClass>, b: seq<WorkloadClass>, x: Option<Pdb>)
    requires WellFormed(c) && Covers(c, a) && Covers(c, b) && !Disputed(ContextOf(c, n), x)
    ensures Fold(ContextOf(c, n), b, Fold(ContextOf(c, n), a, x)) == Fold(ContextOf(c, n), a, x)
  {
    var k := ContextOf(c, n);
    DiverterIsSound(c, n);
    if k.diverter.None? {
      FoldAppends(k, a, b, x);
      UndivertedFold(c, n, a, a + b, x);
    } else if !Writable(x) {
      ForeignFold(k, a, x);
      ForeignFold(k, b, x);
    } else {
      FoldIsTaken(c, n, a, x);
      forall v | v in b ensures Distinct(v, k.diverter.value) {
        AllDistinct(c, v, k.diverter.value);
      }
      TakenStays(k, b, Fold(k, a, x));
    }
  }

  lemma SweepTwice(c: Cluster, a: seq<WorkloadClass>, b: seq<WorkloadClass>, n: string)
    requires Quiet(c) && Covers(c, a) && Covers(c, b)
    ensures Lookup(Sweep(c, a).pdbs, n) == Fold(ContextOf(c, n), a, Lookup(c.pdbs, n))
    ensures Lookup(Sweep(Sweep(c, a), b).pdbs, n) == Fold(ContextOf(c, n), b, Lookup(Sweep(c, a).pdbs, n))
  {
    SweepIsFold(c, a, n);
    SweepIsFold(Sweep(c, a), b, n);
  }

  lemma DisputeOutlivesSweeps(c: Cluster, p: string) returns (a: seq<WorkloadClass>, b: seq<WorkloadClass>)
    requires Quiet(c) && p in c.pods && DisputedPod(c, p)
    ensures CoversOnce(c, a) && CoversOnce(c, b)
    ensures Lookup(Sweep(Sweep(c, a), b).pdbs, PdbName(p)) != Lookup(Sweep(c, a).pdbs, PdbName(p))
    ensures OwnedBy(Lookup(Sweep(c, b).pdbs, PdbName(p)), ContextOf(c, PdbName(p)).diverter.value)
    ensures ContextOf(c, PdbName(p)).diverter.value.uid != ContextOf(c, PdbName(p)).best.value.uid
  {
    var n := PdbName(p);
    var k, x := ContextOf(c, n), Lookup(c.pdbs, n);
    DiverterIsSound(c, n);
    ContextIsSound(c, n);
    var d, g := k.diverter.value, k.best.value;
    var rest := Others(c.classes, {d, g});
    OthersCover(c, d, g, {d, g});
    OthersCover(c, g, d, {d, g});
    a, b := rest + [d, g], rest + [g, d];
    ContestedFolds(c, n, x, rest);
    SweepTwice(c, a, b, n);
    SweepTwice(c, b, b, n);
    ForeignFold(k, a, x);
    ContestedFolds(c, n, Fold(k, a, x), rest);
  }

  /** Reconciling every class again, in the same or another order, changes nothing. */
  lemma {:induction false} SweepsAreIdempotent(c: Cluster, a: seq<WorkloadClass>, b: seq<WorkloadClass>)
    requires Quiet(c) && Covers(c, a) && Covers(c, b) && Undisputed(c)
    ensures Sweep(Sweep(c, a), b).pdbs == Sweep(c, a).pdbs
  {
    var c' := Sweep(c, a);
    forall n ensures Lookup(Sweep(c', b).pdbs, n) == Lookup(c'.pdbs, n) {
      SweepIsFold(c, a, n);
      SweepIsFold(c', b, n);
      NameRoundTrip(PodNameFromPdbName(n), n);
      if Disputed(ContextOf(c, n), Lookup(c.pdbs, n)) {
        assert DisputedPod(c, PodNameFromPdbName(n));
      }
      FoldTwice(c, n, a, b, Lookup(c.pdbs, n));
    }
    SameLookups(Sweep(c', b).pdbs, c'.pdbs);
  }

  ghost predicate Idempotent(c: Cluster) {
    forall a, b | Covers(c, a) && Covers(c, b) :: Sweep(Sweep(c, a), b).pdbs == Sweep(c, a).pdbs
  }

  ghost predicate IdempotentOnce(c: Cluster) {
    forall a, b | CoversOnce(c, a) && CoversOnce(c, b) :: Sweep(Sweep(c, a), b).pdbs == Sweep(c, a).pdbs
  }

  /** A second sweep never changes anything exactly if no guarded Pod's PDB is disputed. */
  lemma {:induction false} IdempotentExactlyIfUndisputed(c: Cluster)
    requires Quiet(c)
    ensures Idempotent(c) <==> Undisputed(c)
    ensures IdempotentOnce(c) <==> Undisputed(c)
  {
    if Undisputed(c) {
      forall a, b | Covers(c, a) && Covers(c, b) ensures Sweep(Sweep(c, a), b).pdbs == Sweep(c, a).pdbs {
        SweepsAreIdempotent(c, a, b);
      }
    } else {
      var p :| p in c.pods && DisputedPod(c, p);
      var a, b := DisputeOutlivesSweeps(c, p);
      assert Lookup(Sweep(Sweep(c, a), b).pdbs, PdbName(p)) != Lookup(Sweep(c, a).pdbs, PdbName(p));
    }
  }

  lemma SameLookups(a: map<string, Pdb>, b: map<string, Pdb>)
    requires forall n :: Lookup(a, n) == Lookup(b, n)
    ensures a == b
  {
    forall n ensures n in a <==> n in b {
      assert Lookup(a, n) == Lookup(b, n);
    }
    forall n | n in a ensures a[n] == b[n] {
      assert Lookup(a, n) == Lookup(b, n);
    }
  }

  // ----- Protection after a sweep -----

  /**
   * The guarded Pod has its PDB, owned by its best match, selecting only its uid and open exactly when the class is
   * Ready or Overdue; the name is left alone only where a PDB not managed by a class already has it.
   */
  predicate Protected(c: Cluster, p: string, before: Option<Pdb>, after: Option<Pdb>)
    requires PdbRuns.Guarded(c, p)
  {
    var wc, pod := Best(c, c.pods[p]).value, c.pods[p];
    if !Writable(before) then after == before
    else
      && OwnedBy(after, wc)
      && after.value.selector == Some(UidSelector(pod.uid))
      && (after.value.maxUnavailable.Open? <==> wc.readiness.Ready? || wc.readiness.Overdue?)
      && after.value.holder == ""
  }

  /** Disputed, in the cluster's own terms. */
  lemma DisputedPodMeans(c: Cluster, p: string)
    requires WellFormed(c) && p in c.pods
    ensures DisputedPod(c, p) <==>
      && PdbRuns.Guarded(c, p) && Writable(Lookup(c.pdbs, PdbName(p)))
      && exists wc | wc in c.classes :: StrayOwner(c, p, wc)
  {
    NameRoundTrip(p, PdbName(p));
    DiverterIsSound(c, PdbName(p));
    forall wc | wc in c.classes
      ensures DiverterOf(c, p) == Some(wc) <==> StrayOwner(c, p, wc)
    {
      DiverterControls(c, p, wc);
    }
  }

  lemma FoldProtects(c: Cluster, order: seq<WorkloadClass>, p: string)
    requires WellFormed(c) && Covers(c, order) && PdbRuns.Guarded(c, p) && !DisputedPod(c, p)
    ensures var x := Lookup(c.pdbs, PdbName(p)); Protected(c, p, x, Fold(ContextOf(c, PdbName(p)), order, x))
  {
    var n, pod := PdbName(p), c.pods[p];
    var x := Lookup(c.pdbs, n);
    NameRoundTrip(p, n);
    var k := ContextOf(c, n);
    ContextIsSound(c, n);
    DiverterIsSound(c, n);
    ForeignFold(k, order, x);
    if Writable(x) {
      forall wc | wc in order ensures Distinct(wc, k.best.value) {
        AllDistinct(c, wc, k.best.value);
      }
      ProtectedFold(k, order, x);
    }
  }

  /** Every sweep leaves the guarded Pod protected exactly if its PDB is not disputed. */
  lemma {:induction false} GuardedPodsAreProtected(c: Cluster, p: string)
    requires Quiet(c) && PdbRuns.Guarded(c, p)
    ensures (forall order | Covers(c, order) ::
               Protected(c, p, Lookup(c.pdbs, PdbName(p)), Lookup(Sweep(c, order).pdbs, PdbName(p))))
      <==> !DisputedPod(c, p)
  {
    var n := PdbName(p);
    if DisputedPod(c, p) {
      NameRoundTrip(p, n);
      var a, b := DisputeOutlivesSweeps(c, p);
      assert !Protected(c, p, Lookup(c.pdbs, n), Lookup(Sweep(c, b).pdbs, n));
    } else {
      forall order | Covers(c, order)
        ensures Protected(c, p, Lookup(c.pdbs, n), Lookup(Sweep(c, order).pdbs, n))
      {
        SweepIsFold(c, order, n);
        FoldProtects(c, order, p);
      }
    }
  }

  /** With no PDB disputed, a sweep protects every guarded Pod. */
  lemma SweepProtectsEveryGuardedPod(c: Cluster, order: seq<WorkloadClass>, p: string)
    requires Quiet(c) && Covers(c, order) && PdbRuns.Guarded(c, p) && !DisputedPod(c, p)
    ensures Protected(c, p, Lookup(c.pdbs, PdbName(p)), Lookup(Sweep(c, order).pdbs, PdbName(p)))
  {
    GuardedPodsAreProtected(c, p);
  }

  // ----- A stray PDB makes the order matter -----

  /** A class that does not protect Pods owns a PDB that is named like the Pod itself, without the prefix. */
  const STRAY: Cluster := PdbRuns.EXAMPLE.(pdbs :=
    map["foo" := NewPdb(PdbRuns.EXAMPLE_POD).(controller := ByWorkloadClass("a"))])

  lemma StrayIsDisputed()
    ensures WellFormed(STRAY) && PdbRuns.Guarded(STRAY, "foo") && DisputedPod(STRAY, "foo")
    ensures ContextOf(STRAY, PdbName("foo")).best == Some(PdbRuns.EXAMPLE_B)
    ensures ContextOf(STRAY, PdbName("foo")).diverter == Some(PdbRuns.EXAMPLE_A)
  {
    var a, pod := PdbRuns.EXAMPLE_A, PdbRuns.EXAMPLE_POD;
    PdbRuns.ExampleBest();
    assert STRAY.pods["foo"] == pod && a in STRAY.classes;
    assert Best(STRAY, pod) == Best(PdbRuns.EXAMPLE, pod) && Eligible(STRAY, pod);
    assert !HasPrefix("foo") && StrayOwner(STRAY, "foo", a);
    NameRoundTrip("foo", PdbName("foo"));
    DiverterControls(STRAY, "foo", a);
    DisputedPodMeans(STRAY, "foo");
  }

  lemma StrayIsQuiet()
    ensures Quiet(STRAY)
  {
    StrayIsDisputed();
  }

  /** There the class that was reconciled last owns the Pod's PDB, although no lease is around. */
  lemma StrayPdbBreaksConfluence()
    ensures var a, b := PdbRuns.EXAMPLE_A, PdbRuns.EXAMPLE_B;
      && Quiet(STRAY) && Covers(STRAY, [a, b]) && Covers(STRAY, [b, a])
      && OwnedBy(Lookup(Sweep(STRAY, [a, b]).pdbs, PdbName("foo")), b)
      && OwnedBy(Lookup(Sweep(STRAY, [b, a]).pdbs, PdbName("foo")), a)
  {
    var a, b, n := PdbRuns.EXAMPLE_A, PdbRuns.EXAMPLE_B, PdbName("foo");
    StrayIsDisputed();
    StrayIsQuiet();
    ContestedFolds(STRAY, n, Lookup(STRAY.pdbs, n), []);
    assert [] + [a, b] == [a, b] && [] + [b, a] == [b, a];
    SweepTwice(STRAY, [a, b], [a, b], n);
    SweepTwice(STRAY, [b, a], [a, b], n);
  }
}
