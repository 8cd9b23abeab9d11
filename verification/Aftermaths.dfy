/** Runs from an empty store in which merges and links leave a guarantee. */
module Aftermaths {
  import opened Prelude
  import opened Survivorship
  import opened Store
  import opened Steps
  import opened Effects
  import opened Grounding
  import opened Contradictions
  import opened MergeSplit
  import opened Limits
  import opened Refilling
  import opened Scenarios

  // ---- lone suppliers ----

  const Z := ObjectKey("crm", "supplier", "2")
  const RZ := RecordKey(Z, "1")

  /** Rules that index nothing, so that every object gets an entity of its own. */
  function NoKey(compare: (Values, Values) -> Verdict): Rules {
    Rules(values => values, values => false, values => [], compare, Policy(map[], None))
  }

  /** Two suppliers with different identifiers. */
  const PAIR := [ObserveStep(X, Sighting("1", A), None), ObserveStep(Y, Sighting("1", B), None)]

  ghost predicate OneSeen(s: Store, rules: Rules) {
    && s.sources == SOURCES && s.policies == map["supplier" := rules] && s.merges == map[] && s.next == 2
    && s.objects == map[X := Row(1, RX)] && s.entities == map[1 := Entity("supplier", Candidate, 1)]
    && s.records.Keys == {RX} && s.records[RX].state == Valid && s.records[RX].normalized == A
    && s.versions.Keys == {1} && FirstDraft(s, 1)
  }

  ghost predicate TwoSeen(s: Store, rules: Rules) {
    && s.sources == SOURCES && s.policies == map["supplier" := rules] && s.merges == map[] && s.next == 4
    && s.objects == map[X := Row(1, RX), Y := Row(3, RY)]
    && s.entities == map[1 := Entity("supplier", Candidate, 1), 3 := Entity("supplier", Candidate, 1)]
    && s.records.Keys == {RX, RY} && s.records[RX].state == Valid && s.records[RX].normalized == A
    && s.records[RY].state == Valid && s.records[RY].normalized == B
    && s.versions.Keys == {1, 3} && FirstDraft(s, 1) && FirstDraft(s, 3)
  }

  lemma FirstSeen(s: Store, t: Store, rules: Rules)
    requires s == Start(rules) && rules.normalize(A) == A
    requires Added(s, t, X, Sighting("1", A)) && Drafted(s, t, 1)
    ensures OneSeen(t, rules)
  {
  }

  lemma SecondSeen(s: Store, t: Store, rules: Rules)
    requires OneSeen(s, rules) && rules.normalize(B) == B
    requires Added(s, t, Y, Sighting("1", B)) && Drafted(s, t, 3)
    ensures TwoSeen(t, rules)
  {
  }

  lemma SeesFirst(compare: (Values, Values) -> Verdict)
    ensures OneSeen(Next(Start(NoKey(compare)), PAIR[0]), NoKey(compare))
  {
    var s := Start(NoKey(compare));
    AddsApart(s, X, Sighting("1", A));
    DraftsApart(s, X, Sighting("1", A));
    FirstSeen(s, Next(s, ObserveStep(X, Sighting("1", A), None)), NoKey(compare));
  }

  lemma SeesSecond(s: Store, compare: (Values, Values) -> Verdict)
    requires OneSeen(s, NoKey(compare))
    ensures TwoSeen(Next(s, PAIR[1]), NoKey(compare))
  {
    AddsApart(s, Y, Sighting("1", B));
    DraftsApart(s, Y, Sighting("1", B));
    SecondSeen(s, Next(s, ObserveStep(Y, Sighting("1", B), None)), NoKey(compare));
  }

  lemma SeesPair(compare: (Values, Values) -> Verdict)
    ensures TwoSeen(Run(Start(NoKey(compare)), PAIR), NoKey(compare))
  {
    RunTwo(Start(NoKey(compare)), PAIR);
    SeesFirst(compare);
    SeesSecond(Next(Start(NoKey(compare)), PAIR[0]), compare);
  }

  lemma OneStep(s: Store, step: Step)
    ensures Run(s, [step]) == Next(s, step)
  {
    assert Run(Next(s, step), [step][1..]) == Next(s, step);
  }

  // ---- a merge that brings a contradiction together ----

  const PROPOSED := PAIR + [ProposeMergeStep([1, 3], "alice")]

  lemma PairProposed(compare: (Values, Values) -> Verdict)
    ensures var s := Run(Start(NoKey(compare)), PAIR);
      && TwoSeen(s, NoKey(compare)) && Run(Start(NoKey(compare)), PROPOSED) == MergeProposed(s, 1, 3, "alice")
      && MergeReady(MergeProposed(s, 1, 3, "alice"), 4, 1, 3)
  {
    var s := Run(Start(NoKey(compare)), PAIR);
    SeesPair(compare);
    RunJoin(Start(NoKey(compare)), PAIR, [ProposeMergeStep([1, 3], "alice")]);
    ProposeMergeCommits(s, 1, 3, "alice");
    OneStep(s, ProposeMergeStep([1, 3], "alice"));
  }

  /** Two suppliers whose identifiers contradict; an approved merge puts both into one entity. */
  lemma MergeBreaksPeace()
    ensures var s := Run(Start(NoKey(SameId)), PROPOSED);
      && Grounded(s) && AllSymmetric(s.policies) && Peace(s) && Attempt(s, MergeStep(4, true, "bob")).Commit?
      && !Peace(Next(s, MergeStep(4, true, "bob")))
  {
    EmptyGrounded(SOURCES, map["supplier" := NoKey(SameId)]);
    RunGrounded(Start(NoKey(SameId)), PROPOSED);
    PairProposed(SameId);
    var s := MergeProposed(Run(Start(NoKey(SameId)), PAIR), 1, 3, "alice");
    PairIsPeaceful(s);
    PairClashes(s);
  }

  lemma PairClashes(s: Store)
    requires MergeReady(s, 4, 1, 3) && s.merges[4].proposedBy == "alice"
    requires s.policies == map["supplier" := NoKey(SameId)] && s.objects == map[X := Row(1, RX), Y := Row(3, RY)]
    requires s.records.Keys == {RX, RY} && s.records[RX].state == Valid && s.records[RX].normalized == A
    requires s.records[RY].state == Valid && s.records[RY].normalized == B
    ensures Attempt(s, MergeStep(4, true, "bob")).Commit? && !Peace(Next(s, MergeStep(4, true, "bob")))
  {
    DecideMergeCommits(s, 4, 1, 3, "bob");
    PairMerges(s, MergeDone(s, 4, 1, 3));
  }

  lemma PairIsPeaceful(s: Store)
    requires s.policies == map["supplier" := NoKey(SameId)] && s.objects == map[X := Row(1, RX), Y := Row(3, RY)]
    ensures AllSymmetric(s.policies) && Peace(s)
  {
    assert Symmetric(NoKey(SameId));
  }

  lemma MergeKeepsRules(s: Store, id: nat, a: nat, b: nat)
    requires MergeReady(s, id, a, b)
    ensures MergeDone(s, id, a, b).policies == s.policies
  {
  }

  lemma TogetherClashes(t: Store)
    requires t.policies == map["supplier" := NoKey(SameId)] && t.objects == map[X := Row(1, RX), Y := Row(1, RY)]
    requires t.records.Keys == {RX, RY} && t.records[RX].state == Valid && t.records[RX].normalized == A
    requires t.records[RY].state == Valid && t.records[RY].normalized == B
    ensures !Peace(t)
  {
    assert Clash(t, X, Y);
  }

  lemma PairTogether(s: Store, t: Store)
    requires MergeReady(s, 4, 1, 3) && t == MergeDone(s, 4, 1, 3)
    requires s.objects == map[X := Row(1, RX), Y := Row(3, RY)]
    ensures t.objects == map[X := Row(1, RX), Y := Row(1, RY)] && t.records == s.records
  {
    MergedMembers(s, 4, 1, 3);
  }

  lemma PairMerges(s: Store, t: Store)
    requires MergeReady(s, 4, 1, 3) && t == MergeDone(s, 4, 1, 3)
    requires s.policies == map["supplier" := NoKey(SameId)] && s.objects == map[X := Row(1, RX), Y := Row(3, RY)]
    requires s.records.Keys == {RX, RY} && s.records[RX].state == Valid && s.records[RX].normalized == A
    requires s.records[RY].state == Valid && s.records[RY].normalized == B
    ensures !Peace(t)
  {
    PairTogether(s, t);
    MergeKeepsRules(s, 4, 1, 3);
    TogetherClashes(t);
  }

  // ---- a merged entity that comes back ----

  const MERGED := PROPOSED + [MergeStep(4, true, "bob")]

  /** The draft made before the merge is approved after it, and the merged entity is approved again. */
  lemma MergedEntityComesBack()
    ensures var s := Run(Start(NoKey(SameId)), MERGED);
      && 3 in s.entities && s.entities[3].status == Merged && !Peopled(s, 3)
      && Attempt(s, MasterStep(3, 0, true)).Commit?
      && 3 in Next(s, MasterStep(3, 0, true)).entities && Next(s, MasterStep(3, 0, true)).entities[3].status == Approved
  {
    PairProposed(SameId);
    var s := MergeProposed(Run(Start(NoKey(SameId)), PAIR), 1, 3, "alice");
    RunJoin(Start(NoKey(SameId)), PROPOSED, [MergeStep(4, true, "bob")]);
    OneStep(s, MergeStep(4, true, "bob"));
    PairComesBack(s);
  }

  lemma PairComesBack(s: Store)
    requires MergeReady(s, 4, 1, 3) && s.merges[4].proposedBy == "alice"
    requires FirstDraft(s, 3) && s.entities[3].version == 1
    requires s.objects == map[X := Row(1, RX), Y := Row(3, RY)]
    ensures var t := Next(s, MergeStep(4, true, "bob"));
      && 3 in t.entities && t.entities[3].status == Merged && !Peopled(t, 3)
      && Attempt(t, MasterStep(3, 0, true)).Commit?
      && 3 in Next(t, MasterStep(3, 0, true)).entities && Next(t, MasterStep(3, 0, true)).entities[3].status == Approved
  {
    DecideMergeCommits(s, 4, 1, 3, "bob");
    AbsorbedDraftStaysApprovable(s, 4, 1, 3, 0);
    PairTogether(s, MergeDone(s, 4, 1, 3));
    NobodyIn3(MergeDone(s, 4, 1, 3));
  }

  lemma NobodyIn3(t: Store)
    requires t.objects == map[X := Row(1, RX), Y := Row(1, RY)]
    ensures !Peopled(t, 3)
  {
  }

  // ---- a merge into an entity that was absorbed meanwhile ----

  /** A third supplier; a merge of the second into the first and one of the first into the third are proposed, and the
      latter is approved. */
  const TRIO := PAIR + [ObserveStep(Z, Sighting("1", A), None)]
  const CHAIN := [
    ProposeMergeStep([1, 3], "alice"), ProposeMergeStep([5, 1], "alice"), MergeStep(7, true, "bob")]

  ghost predicate ThreeSeen(s: Store) {
    && s.objects == map[X := Row(1, RX), Y := Row(3, RY), Z := Row(5, RZ)] && s.merges == map[] && s.next == 6
    && s.entities == map[1 := Entity("supplier", Candidate, 1), 3 := Entity("supplier", Candidate, 1),
                         5 := Entity("supplier", Candidate, 1)]
  }

  lemma ThirdSeen(s: Store, t: Store, rules: Rules)
    requires TwoSeen(s, rules) && Added(s, t, Z, Sighting("1", A))
    ensures ThreeSeen(t)
  {
  }

  lemma SeesTrio()
    ensures ThreeSeen(Run(Start(NoKey(SameId)), TRIO))
  {
    var s := Run(Start(NoKey(SameId)), PAIR);
    SeesPair(SameId);
    RunJoin(Start(NoKey(SameId)), PAIR, [ObserveStep(Z, Sighting("1", A), None)]);
    OneStep(s, ObserveStep(Z, Sighting("1", A), None));
    ZApart(s, NoKey(SameId));
  }

  lemma ZApart(s: Store, rules: Rules)
    requires TwoSeen(s, rules) && rules.keys(rules.normalize(A)) == [] && !rules.invalid(A)
    ensures ThreeSeen(Next(s, ObserveStep(Z, Sighting("1", A), None)))
  {
    AddsApart(s, Z, Sighting("1", A));
    ThirdSeen(s, Next(s, ObserveStep(Z, Sighting("1", A), None)), rules);
  }

  /** Both merges wait; the first is bound to the versions of entities 1 and 3. */
  ghost predicate Crossed(s: Store) {
    && s.objects.Keys == {X, Y, Z} && In(s, X, 1) && In(s, Y, 3) && In(s, Z, 5) && MergeReady(s, 7, 5, 1)
    && s.merges[7].proposedBy == "alice" && Waits(s)
  }

  /** The merge of entity 3 into entity 1 waits, and both entities have their first version. */
  ghost predicate Waits(s: Store) {
    && 6 in s.merges && s.merges[6] == MergeTask(Open, "alice", 1, [3], map[1 := 1, 3 := 1])
    && 1 in s.entities && s.entities[1].version == 1 && Live(s, 3) && s.entities[3].version == 1
  }

  lemma FirstProposal(s: Store)
    requires ThreeSeen(s)
    ensures var t := MergeProposed(s, 1, 3, "alice");
      t.next == 7 && t.entities == s.entities && t.objects == s.objects
      && t.merges == map[6 := MergeTask(Open, "alice", 1, [3], map[1 := 1, 3 := 1])]
  {
    var t := MergeProposed(s, 1, 3, "alice");
    assert t.merges[6].bound == map[1 := 1, 3 := 1];
    assert t.merges == map[6 := MergeTask(Open, "alice", 1, [3], t.merges[6].bound)];
  }

  lemma SecondProposal(s: Store)
    requires s.next == 7 && s.merges == map[6 := MergeTask(Open, "alice", 1, [3], map[1 := 1, 3 := 1])]
    requires s.objects == map[X := Row(1, RX), Y := Row(3, RY), Z := Row(5, RZ)]
    requires s.entities == map[1 := Entity("supplier", Candidate, 1), 3 := Entity("supplier", Candidate, 1),
                               5 := Entity("supplier", Candidate, 1)]
    ensures Crossed(MergeProposed(s, 5, 1, "alice"))
  {
    var t := MergeProposed(s, 5, 1, "alice");
    assert t.merges[7] == MergeTask(Open, "alice", 5, [1], map e | e in [5, 1] :: s.entities[e].version);
    assert MergeReady(t, 7, 5, 1);
  }

  lemma Proposes(s: Store)
    requires ThreeSeen(s)
    ensures Crossed(Next(Next(s, CHAIN[0]), CHAIN[1]))
  {
    var s1 := MergeProposed(s, 1, 3, "alice");
    ProposeMergeCommits(s, 1, 3, "alice");
    FirstProposal(s);
    ProposeMergeCommits(s1, 5, 1, "alice");
    SecondProposal(s1);
  }

  /** The first entity is merged and empty, and its merge still waits. */
  ghost predicate Overtaken(t: Store) {
    && t.objects.Keys == {X, Y, Z} && In(t, X, 5) && In(t, Y, 3) && In(t, Z, 5)
    && Waits(t) && t.entities[1].status == Merged
  }

  lemma Overtakes(s: Store)
    requires Crossed(s)
    ensures Overtaken(Next(s, CHAIN[2]))
  {
    DecideMergeCommits(s, 7, 5, 1, "bob");
    TrioMoves(s, MergeDone(s, 7, 5, 1));
    WaitsStill(s, MergeDone(s, 7, 5, 1));
  }

  lemma TrioMoves(s: Store, t: Store)
    requires MergeReady(s, 7, 5, 1) && t == MergeDone(s, 7, 5, 1)
    requires s.objects.Keys == {X, Y, Z} && In(s, X, 1) && In(s, Y, 3) && In(s, Z, 5)
    ensures t.objects.Keys == {X, Y, Z} && In(t, X, 5) && In(t, Y, 3) && In(t, Z, 5)
  {
    MergedMembers(s, 7, 5, 1);
  }

  lemma WaitsStill(s: Store, t: Store)
    requires MergeReady(s, 7, 5, 1) && Waits(s) && t == MergeDone(s, 7, 5, 1)
    ensures Waits(t) && t.entities[1].status == Merged
  {
    MergeDoneRows(s, 7, 5, 1);
  }

  /** The rows of a merge that are not memberships. */
  lemma MergeDoneRows(s: Store, id: nat, a: nat, b: nat)
    requires MergeReady(s, id, a, b)
    ensures var t := MergeDone(s, id, a, b);
      && t.merges == s.merges[id := s.merges[id].(status := Accepted)]
      && t.entities == s.entities[b := s.entities[b].(status := Merged)][a :=
           s.entities[a].(version := s.entities[a].version + 1)]
  {
  }

  /** The waiting merge is approved: it commits, and its members end in the merged entity. */
  lemma MergeFillsAbsorbed()
    ensures var s := Run(Start(NoKey(SameId)), TRIO + CHAIN);
      && Grounded(s) && 1 in s.entities && s.entities[1].status == Merged && !Peopled(s, 1)
      && Refills(s, MergeStep(6, true, "bob"), 1)
      && In(Next(s, MergeStep(6, true, "bob")), Y, 1)
      && 1 in Next(s, MergeStep(6, true, "bob")).entities
      && Next(s, MergeStep(6, true, "bob")).entities[1].status == Merged
  {
    EmptyGrounded(SOURCES, map["supplier" := NoKey(SameId)]);
    RunGrounded(Start(NoKey(SameId)), TRIO + CHAIN);
    var s := Run(Start(NoKey(SameId)), TRIO);
    SeesTrio();
    RunJoin(Start(NoKey(SameId)), TRIO, CHAIN);
    RunThree(s, CHAIN);
    Proposes(s);
    Overtakes(Next(Next(s, CHAIN[0]), CHAIN[1]));
    OvertakenFills(Run(s, CHAIN));
  }

  lemma MayRefill(s: Store)
    requires Overtaken(s)
    ensures MergeHolds(s, 6, "bob") && !Peopled(s, 1) && Refills(s, MergeStep(6, true, "bob"), 1)
  {
    assert In(s, Y, 3) && Peopled(s, 3);
    assert 3 in s.merges[6].absorbed;
  }

  lemma OvertakenFills(s: Store)
    requires Grounded(s) && Overtaken(s)
    ensures !Peopled(s, 1) && Refills(s, MergeStep(6, true, "bob"), 1)
    ensures var t := Next(s, MergeStep(6, true, "bob"));
      In(t, Y, 1) && 1 in t.entities && t.entities[1].status == Merged
  {
    MayRefill(s);
    MergedEntityRefills(s, MergeStep(6, true, "bob"), 1);
    OnlyYEnters(s);
  }

  lemma OnlyYEnters(s: Store)
    requires Overtaken(s) && MergeHolds(s, 6, "bob")
    ensures In(Next(s, MergeStep(6, true, "bob")), Y, 1)
  {
    MergeCommitsIff(s, 6, "bob");
    DecideMergeCases(s, 6, true, "bob");
    YEnters(s, Attempt(s, MergeStep(6, true, "bob")));
  }

  lemma YEnters(s: Store, r: Reply<Store>)
    requires Overtaken(s) && MergeOutcome(s, 6, true, r) && r.Commit?
    ensures In(r.db, Y, 1)
  {
    ApplyMergeGathers(s, s.merges[6]);
    assert In(s, Y, [3][0]) && Swept(s, [3], Y);
  }
}
