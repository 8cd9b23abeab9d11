/** A source replaced between a simulation and the job that applies it: the fingerprint matches, the prediction
    fails. */
module SourceReplacement {
  import opened Prelude
  import opened Survivorship
  import opened Store
  import opened Steps
  import opened Grounding
  import opened MergeSplit
  import opened PolicyCompiler
  import opened Wiring
  import opened Activation
  import opened Scenarios

  // ---- two suppliers pooled in one entity ----

  /** A canonical definition without attributes, keys and comparisons; survivorship is the default. */
  const PLAIN := Definition(
    Some("Entity"), Some("coexistence"), [], Some([]), [],
    Matching([], [], Some(Thresholds(1.01, 1.01)), None, None, [], Some("weighted_score"), Some(0.01), {}),
    Some(DefaultSurvivorship()), [], [], None, None, {})

  lemma PlainCompiles(lib: Library)
    ensures Compile(lib, Plain(PLAIN)) == Ok(Compiled(PLAIN, "runtime-1"))
  {
    assert CompileMatching(PLAIN.matching) == Ok(PLAIN.matching);
    assert CompileIdentifiers([], Declared(PLAIN)) == [];
  }

  lemma PlainRules(lib: Library, values: Values)
    ensures var rules := RulesOf(lib, PLAIN); rules.keys(values) == [] && !rules.invalid(values)
  {
  }

  /** Two sightings without common keys, and a merge of the two entities. */
  const POOLING := [
    ObserveStep(X, Sighting("1", A), None), ObserveStep(Y, Sighting("1", B), None),
    ProposeMergeStep([1, 3], "alice"), MergeStep(4, true, "bob")]

  const FX := Facts(0, "crm", A, map[], 0)
  const FY := Facts(2, "erp", B, map[], 0)

  /** Both suppliers contribute to entity 1. */
  ghost predicate Pooled(s: Store, rules: Rules) {
    && s.sources == SOURCES && s.policies == map["supplier" := rules]
    && s.objects.Keys == {X, Y} && In(s, X, 1) && In(s, Y, 1) && IsCurrent(s, X) && IsCurrent(s, Y)
    && CurrentRecord(s, X).facts == FX && CurrentRecord(s, Y).facts == FY
    && Live(s, 1) && s.entities[1].domain == "supplier"
  }

  /** Both suppliers are seen, each in its own entity. */
  ghost predicate Seen(s: Store, rules: Rules) {
    && s.sources == SOURCES && s.policies == map["supplier" := rules] && s.next == 4 && s.merges == map[]
    && s.objects == map[X := Row(1, RX), Y := Row(3, RY)]
    && s.entities == map[1 := Entity("supplier", Candidate, 1), 3 := Entity("supplier", Candidate, 1)]
    && IsCurrent(s, X) && IsCurrent(s, Y) && CurrentRecord(s, X).facts == FX && CurrentRecord(s, Y).facts == FY
  }

  ghost predicate SeenX(s: Store, rules: Rules) {
    && s.sources == SOURCES && s.policies == map["supplier" := rules] && s.next == 2 && s.merges == map[] &&
        s.clock == 0
    && s.objects == map[X := Row(1, RX)] && s.entities == map[1 := Entity("supplier", Candidate, 1)]
    && s.records.Keys == {RX} && s.records[RX].facts == FX && s.records[RX].state == Valid
  }

  lemma AddsX(s: Store, rules: Rules)
    requires Added(Start(rules), s, X, Sighting("1", A))
    ensures SeenX(s, rules)
  {
  }

  lemma AddsY(s: Store, t: Store, rules: Rules)
    requires SeenX(s, rules) && Added(s, t, Y, Sighting("1", B))
    ensures Seen(t, rules)
  {
  }

  ghost predicate Unkeyed(rules: Rules) {
    forall values :: rules.keys(values) == [] && !rules.invalid(values)
  }

  lemma SeesFirst(rules: Rules)
    requires Unkeyed(rules)
    ensures SeenX(Next(Start(rules), ObserveStep(X, Sighting("1", A), None)), rules)
  {
    AddsApart(Start(rules), X, Sighting("1", A));
    AddsX(Next(Start(rules), ObserveStep(X, Sighting("1", A), None)), rules);
  }

  lemma SeesSecond(s: Store, rules: Rules)
    requires Unkeyed(rules) && SeenX(s, rules)
    ensures Seen(Next(s, ObserveStep(Y, Sighting("1", B), None)), rules)
  {
    AddsApart(s, Y, Sighting("1", B));
    AddsY(s, Next(s, ObserveStep(Y, Sighting("1", B), None)), rules);
  }

  lemma PoolsBoth(rules: Rules)
    requires Unkeyed(rules)
    ensures Pooled(Run(Start(rules), POOLING), rules)
  {
    SeesFirst(rules);
    SeesSecond(Next(Start(rules), POOLING[0]), rules);
    var s := Next(Next(Start(rules), POOLING[0]), POOLING[1]);
    RunFour(Start(rules), POOLING);
    ProposeMergeCommits(s, 1, 3, "alice");
    var t := MergeProposed(s, 1, 3, "alice");
    DecideMergeCommits(t, 4, 1, 3, "bob");
    MergedMembers(t, 4, 1, 3);
    PoolIsMerged(t, rules);
  }

  lemma PoolIsMerged(t: Store, rules: Rules)
    requires MergeReady(t, 4, 1, 3) && t.sources == SOURCES && t.policies == map["supplier" := rules]
    requires t.objects == map[X := Row(1, RX), Y := Row(3, RY)] && t.entities[1].domain == "supplier"
    requires IsCurrent(t, X) && IsCurrent(t, Y) && CurrentRecord(t, X).facts == FX && CurrentRecord(t, Y).facts == FY
    ensures Pooled(MergeDone(t, 4, 1, 3), rules)
  {
    MergedMembers(t, 4, 1, 3);
  }

  lemma PooledFacts(s: Store, rules: Rules)
    requires Pooled(s, rules)
    ensures FactsOf(s, 1) == {FX, FY} && 1 in LiveIn(s, "supplier")
  {
    assert Contributors(s, 1) == {X, Y};
  }

  /** The first supplier wins under the priorities of the start, the second once the first is third in line. */
  lemma PriorityDecides()
    ensures !SameWinners(SurvivorshipOf(PLAIN), SOURCES, SOURCES["crm" := 3], {FX, FY})
  {
    var p := SurvivorshipOf(PLAIN);
    assert Options({FX, FY}, "id") == {FX, FY};
    assert Unbeaten(p, SOURCES, "id", {FX, FY}, FX);
    assert Unbeaten(p, SOURCES["crm" := 3], "id", {FX, FY}, FY);
    assert !SameWinner(p, SOURCES, SOURCES["crm" := 3], {FX, FY}, "id");
  }

  // ---- the desk ----

  const DOCUMENT := map["supplier" := Plain(PLAIN)]
  const JOB := RemasterJob("supplier", PLAIN)

  /** A new desk whose domain has the plain definition. */
  ghost function EmptyOffice(lib: Library): Desk {
    Desk(Start(RulesOf(lib, PLAIN)), DOCUMENT, [], [], [], [])
  }

  lemma EmptyOfficeIsSound(lib: Library)
    ensures Sound(lib, EmptyOffice(lib))
  {
    PlainCompiles(lib);
    EmptyGrounded(SOURCES, map["supplier" := RulesOf(lib, PLAIN)]);
  }

  lemma {:induction false} MasterTrace(lib: Library, d: Desk, steps: seq<Step>)
    requires forall i :: 0 <= i < |steps| ==> !steps[i].ActivateStep?
    ensures Trace(lib, d, MasterSteps(steps)) == d.(db := Run(d.db, steps))
    decreases |steps|
  {
    if steps != [] {
      assert MasterSteps(steps)[1..] == MasterSteps(steps[1..]);
      MasterTrace(lib, NextDesk(lib, d, Master(steps[0])), steps[1..]);
    }
  }

  function MasterSteps(steps: seq<Step>): seq<DeskStep> {
    seq(|steps|, i requires 0 <= i < |steps| => Master(steps[i]))
  }

  /** The suppliers are pooled, and the plain definition is proposed again. */
  ghost function Office(lib: Library): Desk {
    NextDesk(lib, Trace(lib, EmptyOffice(lib), MasterSteps(POOLING)), CreateConfig(DOCUMENT))
  }

  lemma Files(lib: Library, d: Desk)
    requires d.definitions == DOCUMENT && d.configs == []
    ensures NextDesk(lib, d, CreateConfig(DOCUMENT)) == d.(configs := [Config(Drafted, DOCUMENT)])
  {
    PlainCompiles(lib);
  }

  lemma PlainIsUnkeyed(lib: Library)
    ensures Unkeyed(RulesOf(lib, PLAIN))
  {
    forall values ensures RulesOf(lib, PLAIN).keys(values) == [] && !RulesOf(lib, PLAIN).invalid(values) {
      PlainRules(lib, values);
    }
  }

  lemma PoolingKeepsPolicies()
    ensures forall i :: 0 <= i < |POOLING| ==> !POOLING[i].ActivateStep?
  {
  }

  lemma TracePools(lib: Library, d: Desk, rules: Rules)
    requires d.db == Start(rules) && Unkeyed(rules)
    ensures var t := Trace(lib, d, MasterSteps(POOLING)); Pooled(t.db, rules) && t == d.(db := t.db)
  {
    PoolsBoth(rules);
    PoolingKeepsPolicies();
    MasterTrace(lib, d, POOLING);
  }

  lemma OfficeIsSound(lib: Library)
    ensures Sound(lib, Office(lib))
  {
    var d := Trace(lib, EmptyOffice(lib), MasterSteps(POOLING));
    EmptyOfficeIsSound(lib);
    TraceSound(lib, EmptyOffice(lib), MasterSteps(POOLING));
    NextSound(lib, d, CreateConfig(DOCUMENT));
  }

  lemma OfficeHolds(lib: Library)
    ensures var d := Office(lib);
      && Pooled(d.db, RulesOf(lib, PLAIN)) && d.definitions == DOCUMENT && d.configs == [Config(Drafted, DOCUMENT)]
      && d.simulations == [] && d.tasks == []
  {
    PlainIsUnkeyed(lib);
    TracePools(lib, EmptyOffice(lib), RulesOf(lib, PLAIN));
    Files(lib, Trace(lib, EmptyOffice(lib), MasterSteps(POOLING)));
  }

  /** After the simulation the definition is proposed, and then the first source moves to third place. */
  const BETWEEN := [Propose(0, 0, "alice"), ReplaceSource("crm", 3)]

  /** The approval is accepted and the job commits, but the entity does not end with the predicted values. */
  lemma ReplacedSourceBreaksPrediction(lib: Library)
    ensures var d := Office(lib);
      && Rollout(lib, d, 0, BETWEEN, 0, "bob", [JOB], [], "supplier") && 1 in LiveIn(d.db, "supplier")
      && var d4 := JobStart(lib, d, 0, BETWEEN, 0, "bob", [JOB], [], "supplier");
         && RunRemaster(lib, d4, JOB).Commit?
         && !AsPredicted(lib, d, 0, "supplier", 1, Latest(RunRemaster(lib, d4, JOB).db.db, 1))
  {
    var d := Office(lib);
    OfficeIsSound(lib);
    OfficeHolds(lib);
    PooledFacts(d.db, RulesOf(lib, PLAIN));
    PlainCompiles(lib);
    OfficeRollsOut(lib, d);
    PriorityDecides();
    PredictionHoldsIff(lib, d, 0, BETWEEN, 0, "bob", [JOB], [], "supplier", 1);
  }

  lemma DocumentCompiles(lib: Library)
    ensures Compiles(lib, DOCUMENT, DOCUMENT)
  {
    PlainCompiles(lib);
  }

  lemma Simulates(lib: Library, d: Desk)
    requires d.definitions == DOCUMENT && d.configs == [Config(Drafted, DOCUMENT)] && d.simulations == []
    ensures Compiles(lib, d.definitions, d.configs[0].document)
    ensures SimulateConfig(lib, d, 0) == Commit(d.(simulations := [Simulated(lib, d, 0)]))
  {
    DocumentCompiles(lib);
    assert d.simulations + [Simulated(lib, d, 0)] == [Simulated(lib, d, 0)];
  }

  lemma Proposes(lib: Library, d: Desk)
    requires d.configs == [Config(Drafted, DOCUMENT)] && |d.simulations| == 1 && d.tasks == []
    requires d.simulations[0].config == 0 && d.simulations[0].snapshot == SnapshotOf(d)
    ensures NextDesk(lib, d, Propose(0, 0, "alice")) == d.(tasks := [ConfigTask(Open, "alice", 0, 0, DOCUMENT)])
  {
  }

  lemma Replaces(lib: Library, d: Desk)
    requires d.db.sources == SOURCES
    ensures NextDesk(lib, d, ReplaceSource("crm", 3)) == WithSources(d, SOURCES["crm" := 3])
  {
  }

  lemma PlainJobs(lib: Library)
    ensures Compile(lib, DOCUMENT["supplier"]).Ok? && JobsOf(lib, DOCUMENT, [JOB])
  {
    PlainCompiles(lib);
  }

  lemma Decides(lib: Library, d: Desk)
    requires d.definitions == DOCUMENT && d.configs == [Config(Drafted, DOCUMENT)] && |d.simulations| == 1
    requires d.simulations[0].config == 0 && d.simulations[0].snapshot == SnapshotOf(d)
    requires d.tasks == [ConfigTask(Open, "alice", 0, 0, DOCUMENT)]
    ensures DecideConfig(lib, d, 0, true, "bob", [JOB]).Commit?
    ensures DecideConfig(lib, d, 0, true, "bob", [JOB]).db.db.sources == d.db.sources
  {
    PlainJobs(lib);
    PlainIsKnown(lib, d);
    assert DecideConfig(lib, d, 0, true, "bob", [JOB]) == Commit(Activated(lib, d, 0, 0, [JOB]));
  }

  lemma PlainIsKnown(lib: Library, d: Desk)
    requires d.definitions == DOCUMENT
    ensures Compiles(lib, d.definitions, DOCUMENT)
  {
    PlainCompiles(lib);
  }

  lemma TwoSteps(lib: Library, d: Desk, steps: seq<DeskStep>)
    requires |steps| == 2
    ensures Trace(lib, d, steps) == NextDesk(lib, NextDesk(lib, d, steps[0]), steps[1])
  {
    assert steps[1..][0] == steps[1] && steps[1..][1..] == [];
    assert Trace(lib, NextDesk(lib, d, steps[0]), steps[1..])
      == Trace(lib, NextDesk(lib, NextDesk(lib, d, steps[0]), steps[1]), []);
  }

  lemma OfficeRollsOut(lib: Library, d: Desk)
    requires Sound(lib, d) && d.definitions == DOCUMENT && d.configs == [Config(Drafted, DOCUMENT)]
    requires d.simulations == [] && d.tasks == [] && d.db.sources == SOURCES
    ensures Rollout(lib, d, 0, BETWEEN, 0, "bob", [JOB], [], "supplier")
    ensures JobStart(lib, d, 0, BETWEEN, 0, "bob", [JOB], [], "supplier").db.sources == SOURCES["crm" := 3]
  {
    Simulates(lib, d);
    var d1 := SimulateConfig(lib, d, 0).db;
    TwoSteps(lib, d1, BETWEEN);
    Proposes(lib, d1);
    Replaces(lib, NextDesk(lib, d1, BETWEEN[0]));
    Decides(lib, Trace(lib, d1, BETWEEN));
  }
}
