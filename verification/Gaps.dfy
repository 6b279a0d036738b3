/** Two runs of single calls in which the PDB of a Pod is deleted that is guarded in every state. */
module Gaps {
  import opened Wrappers
  import opened Labels
  import opened Types
  import opened Governance
  import opened Pdb
  import opened PdbSpec
  import PdbRuns
  import opened Interleaving

  // ----- The worlds -----

  function TeamSelector(team: string): Option<LabelSelector> {
    Some(LabelSelector(map["team" := team], []))
  }

  /** Class a protects team a, class b what its selector selects; the Pod "foo" is of the team. */
  function TeamWorld(team: string, b: Option<LabelSelector>): Cluster {
    Cluster(map["foo" := PdbRuns.EXAMPLE_POD.(labels := map["team" := team])], [TeamA(), TeamB(b)], None, true, map[], 0)
  }

  function TeamA(): WorkloadClass { PdbRuns.ExampleClass("a", TeamSelector("a"), ValidationPassed) }

  function TeamB(b: Option<LabelSelector>): WorkloadClass { PdbRuns.ExampleClass("b", b, ValidationPassed) }

  const OWNED_BY_A: Pdb := NewPdb(PdbRuns.EXAMPLE_POD).(controller := ByWorkloadClass("a"))
  const USER_PDB: Pdb := Pdb(map[], NoController, [], TeamSelector("x"), Closed, PolicyUnset, "", None)
  const EVERYTHING: Option<LabelSelector> := Some(LabelSelector(map[], []))
  const STORE: map<string, Stored> := map[PdbName("foo") := Stored(OWNED_BY_A, 0)]

  /** The best match of the Pod in these worlds, by a selector of class b that does or does not select it. */
  lemma TeamBest(c: Cluster, team: string, b: Option<LabelSelector>)
    requires b in {TeamSelector("b"), EVERYTHING}
    requires c.classes == [TeamA(), TeamB(b)] && c.enforcedLabel.None?
    ensures var pod := PdbRuns.EXAMPLE_POD.(labels := map["team" := team]);
      Best(c, pod) == if team == "a" then Some(TeamA())
                      else if b == EVERYTHING || team == "b" then Some(TeamB(b)) else None
  {
    var labels := map["team" := team];
    var classes := [TeamA(), TeamB(b)];
    assert "team" in TeamSelector("a").value.matchLabels && "team" in TeamSelector("b").value.matchLabels;
    assert Candidate(TeamA(), labels) == (team == "a");
    assert Candidate(TeamB(b), labels) == (b == EVERYTHING || team == "b");
    assert classes[..1] == [TeamA()] && [TeamA()][..0] == [];
    assert SelectBest(labels, [TeamA()]) == if team == "a" then Some(TeamA()) else None;
    assert SelectBest(labels, classes) == SelectBest(labels, classes[..1] + [TeamB(b)]);
  }

  predicate TeamState(s: State, team: string, b: Option<LabelSelector>, userPdb: bool) {
    && s.world == TeamWorld(team, b) && s.ops == map[]
    && s.store.Keys == (if userPdb then {PdbName("foo"), "u"} else {PdbName("foo")})
    && s.store[PdbName("foo")].pdb == OWNED_BY_A && (userPdb ==> s.store["u"].pdb == USER_PDB)
  }

  lemma TeamGuarded(s: State, team: string, b: Option<LabelSelector>, userPdb: bool)
    requires TeamState(s, team, b, userPdb) && b in {TeamSelector("b"), EVERYTHING}
    requires team in {"a", "b"} || (b == EVERYTHING && team in {"x", "y"})
    ensures WellFormed(View(s))
    ensures Covered(map["team" := team], View(s).pdbs) <==> userPdb && team == "x"
    ensures !(userPdb && team == "x") ==> PdbRuns.Guarded(View(s), "foo")
    ensures Best(View(s), View(s).pods["foo"]) == Some(if team == "a" then TeamA() else TeamB(b))
  {
    TeamBest(View(s), team, b);
    var pdbs := View(s).pdbs;
    assert "u" != PdbName("foo") && Managed(pdbs[PdbName("foo")]);
    assert "team" in TeamSelector("x").value.matchLabels;
    if userPdb {
      assert "u" in pdbs && !Managed(pdbs["u"]);
    }
  }

  /** A run without any call yet, and its states. */
  predicate Quiescent(states: seq<State>, steps: seq<Step>) {
    Run(states, steps) && forall i | 0 <= i < |states| :: states[i].ops == map[]
  }

  /** The deletion by class a, once the PDBs, the classes and the Pods were read at the start and the Pod at the end. */
  function DropByA(states: seq<State>): Op
    requires states != []
  {
    Op(TeamA(), PdbName("foo"), Lookup(states[|states| - 1].store, PdbName("foo")), Drop,
       Reads(0, 0, 0, 0, 0, 0, |states| - 1))
  }

  lemma TeamDrop(states: seq<State>, steps: seq<Step>, from: string, to: string, b: Option<LabelSelector>, userPdb: bool)
    requires Quiescent(states, steps) && |steps| > 0 && b in {TeamSelector("b"), EVERYTHING}
    requires TeamState(states[0], from, b, userPdb) && TeamState(states[|steps|], to, b, false)
    requires from != "a" && (from in {"b"} || (b == EVERYTHING && from in {"x", "y"}))
    requires to in {"a", "b"} || (b == EVERYTHING && to in {"x", "y"})
    ensures CouldDrop(states, DropByA(states), "foo")
    ensures MisledIn(states, DropByA(states), "foo") <==> to == "a" || (userPdb && to == "x")
  {
    var op := DropByA(states);
    TeamGuarded(states[0], from, b, userPdb);
    TeamGuarded(states[|steps|], to, b, false);
    var seen := Seen(states, op.on);
    assert seen.pdbs == View(states[0]).pdbs;
    TeamBest(seen, from, b);
    TeamBest(seen, to, b);
    TeamCovered(states[0], to, b, userPdb, from);
  }

  lemma TeamCovered(s: State, team: string, b: Option<LabelSelector>, userPdb: bool, other: string)
    requires TeamState(s, other, b, userPdb)
    ensures Covered(map["team" := team], View(s).pdbs) <==> userPdb && team == "x"
  {
    var pdbs := View(s).pdbs;
    assert "u" != PdbName("foo") && Managed(pdbs[PdbName("foo")]);
    assert "team" in TeamSelector("x").value.matchLabels;
    if userPdb {
      assert "u" in pdbs && !Managed(pdbs["u"]);
    }
  }

  /** The PDB is gone at the end of the run, although its Pod was guarded in every state of it. */
  ghost predicate Gap(states: seq<State>, steps: seq<Step>) {
    && Run(states, steps) && PdbName("foo") in states[0].store && PdbName("foo") !in states[|steps|].store
    && forall i | 0 <= i < |states| :: PdbRuns.Guarded(View(states[i]), "foo")
  }

  lemma StillGuarded(s: State, s': State)
    requires WellFormed(View(s)) && PdbRuns.Guarded(View(s), "foo") && s'.world == s.world
    requires s'.store == s.store || s'.store == s.store - {PdbName("foo")}
    requires PdbName("foo") in s.store && Managed(s.store[PdbName("foo")].pdb)
    ensures PdbRuns.Guarded(View(s'), "foo")
    ensures Best(View(s'), View(s').pods["foo"]) == Best(View(s), View(s).pods["foo"])
  {
    var pod := s.world.pods["foo"];
    assert forall n | n in View(s').pdbs :: n in View(s).pdbs && View(s').pdbs[n] == View(s).pdbs[n];
    assert !Covered(pod.labels, View(s').pdbs);
    assert Best(View(s'), pod) == Best(View(s), pod);
  }

  function BestIn(s: State): Option<WorkloadClass>
    requires "foo" in s.world.pods
  {
    Best(View(s), s.world.pods["foo"])
  }

  predicate AlwaysBest(states: seq<State>, best: Option<WorkloadClass>) {
    forall i | 0 <= i < |states| :: "foo" in states[i].world.pods && BestIn(states[i]) == best
  }

  lemma SameBestAfter(states: seq<State>, s1: State, s2: State, best: Option<WorkloadClass>)
    requires AlwaysBest(states, best) && AlwaysBest([s1, s2], best)
    ensures AlwaysBest(states + [s1] + [s2], best)
  {
    var ss := states + [s1] + [s2];
    assert [s1, s2][0] == s1 && [s1, s2][1] == s2;
    forall i | 0 <= i < |ss| ensures "foo" in ss[i].world.pods && BestIn(ss[i]) == best {
      assert i < |states| ==> ss[i] == states[i];
    }
  }

  /** A run up to the moment where class a has read all but the PDB it is about to delete. */
  ghost predicate OnTheBrink(states: seq<State>, steps: seq<Step>) {
    && Run(states, steps) && CouldDrop(states, DropByA(states), "foo") && MisledIn(states, DropByA(states), "foo")
    && (forall i | 0 <= i < |states| :: PdbRuns.Guarded(View(states[i]), "foo"))
    && PdbName("foo") in states[0].store
    && PdbName("foo") in states[|steps|].store && states[|steps|].store[PdbName("foo")].pdb == OWNED_BY_A
  }

  lemma GapFrom(states: seq<State>, steps: seq<Step>) returns (s1: State, s2: State, ts: seq<Step>)
    requires OnTheBrink(states, steps)
    ensures Run(states + [s1] + [s2], ts) && |ts| == |steps| + 2 && PdbName("foo") !in s2.store
    ensures PdbRuns.Guarded(View(s1), "foo") && PdbRuns.Guarded(View(s2), "foo")
    ensures s1.world == s2.world == states[|steps|].world && "foo" in s1.world.pods
    ensures BestIn(s1) == BestIn(s2) == BestIn(states[|steps|])
  {
    var s, op := states[|steps|], DropByA(states);
    s1 := Apply(s, Get(0, op));
    s2 := Apply(s1, Write(0));
    ts := steps + [Get(0, op)] + [Write(0)];
    MisledCallDeletes(states, steps, 0, op, "foo");
    assert WellFormed(View(s)) && PdbRuns.Guarded(View(s), "foo");
    StillGuarded(s, s1);
    StillGuarded(s, s2);
  }

  lemma GapIsThere(states: seq<State>, s1: State, s2: State, ts: seq<Step>)
    requires Run(states + [s1] + [s2], ts) && states != [] && |ts| == |states| + 1
    requires PdbName("foo") in states[0].store && PdbName("foo") !in s2.store
    requires forall i | 0 <= i < |states| :: PdbRuns.Guarded(View(states[i]), "foo")
    requires PdbRuns.Guarded(View(s1), "foo") && PdbRuns.Guarded(View(s2), "foo")
    ensures Gap(states + [s1] + [s2], ts)
  {
    var ss := states + [s1] + [s2];
    assert ss[0] == states[0] && ss[|ts|] == s2;
    forall i | 0 <= i < |ss| ensures PdbRuns.Guarded(View(ss[i]), "foo") {
      assert i < |states| ==> ss[i] == states[i];
    }
  }

  /** From the brink, the call and its write complete the gap; the Pod's best match stays what it was. */
  lemma GapCompletes(states: seq<State>, steps: seq<Step>, best: Option<WorkloadClass>)
    returns (ss: seq<State>, ts: seq<Step>)
    requires OnTheBrink(states, steps)
    ensures Gap(ss, ts) && (AlwaysBest(states, best) ==> AlwaysBest(ss, best))
  {
    var s1, s2, all := GapFrom(states, steps);
    GapIsThere(states, s1, s2, all);
    ss, ts := states + [s1] + [s2], all;
    if AlwaysBest(states, best) {
      assert BestIn(states[|steps|]) == best;
      assert AlwaysBest([s1, s2], best);
      SameBestAfter(states, s1, s2, best);
    }
  }

  // ----- Relabelling -----

  const BEFORE: State := State(TeamWorld("b", TeamSelector("b")), STORE, 1, map[])
  const RELABELLED: State := BEFORE.(world := TeamWorld("a", TeamSelector("b")))

  lemma RelabellingRun()
    ensures Quiescent([BEFORE, RELABELLED], [Change(RELABELLED.world)])
    ensures TeamState(BEFORE, "b", TeamSelector("b"), false) && TeamState(RELABELLED, "a", TeamSelector("b"), false)
  {
    TeamGuarded(BEFORE, "b", TeamSelector("b"), false);
    TeamGuarded(RELABELLED, "a", TeamSelector("b"), false);
    assert Run([BEFORE], []);
    RunExtends([BEFORE], [], Change(RELABELLED.world));
    assert [BEFORE] + [RELABELLED] == [BEFORE, RELABELLED];
    assert [] + [Change(RELABELLED.world)] == [Change(RELABELLED.world)];
  }

  lemma RelabellingMisleads()
    ensures OnTheBrink([BEFORE, RELABELLED], [Change(RELABELLED.world)])
  {
    RelabellingRun();
    TeamGuarded(BEFORE, "b", TeamSelector("b"), false);
    TeamGuarded(RELABELLED, "a", TeamSelector("b"), false);
    TeamDrop([BEFORE, RELABELLED], [Change(RELABELLED.world)], "b", "a", TeamSelector("b"), false);
  }

  /** The Pod moves from team b to team a after class a listed the Pods: it is a's own now, but was not listed so. */
  lemma RelabellingOpensGap() returns (states: seq<State>, steps: seq<Step>)
    ensures Gap(states, steps)
  {
    RelabellingMisleads();
    states, steps := GapCompletes([BEFORE, RELABELLED], [Change(RELABELLED.world)], None);
  }

  // ----- Stale coverage -----

  const LISTED: State := State(TeamWorld("y", EVERYTHING), STORE["u" := Stored(USER_PDB, 1)], 2, map[])
  const REMOVED: State := LISTED.(store := STORE, next := 3)
  const JOINED: State := REMOVED.(world := TeamWorld("x", EVERYTHING))
  const STALE_STEPS: seq<Step> := [UserPdb("u", None), Change(JOINED.world)]

  lemma StaleStates()
    ensures TeamState(LISTED, "y", EVERYTHING, true) && TeamState(REMOVED, "y", EVERYTHING, false)
    ensures TeamState(JOINED, "x", EVERYTHING, false)
    ensures Allowed(LISTED, UserPdb("u", None)) && Apply(LISTED, UserPdb("u", None)) == REMOVED
    ensures VersionsIdentify(LISTED)
  {
    assert "u" != PdbName("foo");
    assert STORE["u" := Stored(USER_PDB, 1)] - {"u"} == STORE;
  }

  lemma StaleGuarded(s: State)
    requires s in {LISTED, REMOVED, JOINED}
    ensures WellFormed(View(s)) && PdbRuns.Guarded(View(s), "foo")
    ensures Best(View(s), View(s).pods["foo"]) == Some(TeamB(EVERYTHING))
  {
    StaleStates();
    if s == LISTED {
      TeamGuarded(LISTED, "y", EVERYTHING, true);
    } else if s == REMOVED {
      TeamGuarded(REMOVED, "y", EVERYTHING, false);
    } else {
      TeamGuarded(JOINED, "x", EVERYTHING, false);
    }
  }

  lemma StaleRun()
    ensures Quiescent([LISTED, REMOVED, JOINED], STALE_STEPS)
  {
    StaleStates();
    StaleGuarded(LISTED);
    StaleGuarded(REMOVED);
    StaleGuarded(JOINED);
    assert Run([LISTED], []);
    RunExtends([LISTED], [], UserPdb("u", None));
    assert [LISTED] + [REMOVED] == [LISTED, REMOVED] && [] + [UserPdb("u", None)] == [UserPdb("u", None)];
    RunExtends([LISTED, REMOVED], [UserPdb("u", None)], Change(JOINED.world));
    assert [LISTED, REMOVED] + [JOINED] == [LISTED, REMOVED, JOINED];
    assert [UserPdb("u", None)] + [Change(JOINED.world)] == STALE_STEPS;
  }

  lemma StaleMisleads()
    ensures OnTheBrink([LISTED, REMOVED, JOINED], STALE_STEPS)
  {
    StaleRun();
    StaleStates();
    StaleGuarded(LISTED);
    StaleGuarded(REMOVED);
    StaleGuarded(JOINED);
    TeamDrop([LISTED, REMOVED, JOINED], STALE_STEPS, "y", "x", EVERYTHING, true);
  }

  lemma StaleBest()
    ensures AlwaysBest([LISTED, REMOVED, JOINED], Some(TeamB(EVERYTHING)))
  {
    StaleGuarded(LISTED);
    StaleGuarded(REMOVED);
    StaleGuarded(JOINED);
  }

  /**
   * A user PDB for team x is deleted after class a listed it, and only then the Pod joins team x. No user PDB ever
   * covers it and its best match is class b all the time, but class a sees it covered.
   */
  lemma StaleCoverageOpensGap() returns (states: seq<State>, steps: seq<Step>)
    ensures Gap(states, steps)
    ensures AlwaysBest(states, Some(TeamB(EVERYTHING)))
  {
    StaleMisleads();
    StaleBest();
    states, steps := GapCompletes([LISTED, REMOVED, JOINED], STALE_STEPS, Some(TeamB(EVERYTHING)));
  }
}
