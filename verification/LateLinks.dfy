/** Runs from an empty store in which a link decided late leaves a guarantee. */
module LateLinks {
  import opened Prelude
  import opened Survivorship
  import opened Store
  import opened Steps
  import opened Effects
  import opened Grounding
  import opened MergeSplit
  import opened Drafts
  import opened Approvals
  import opened Limits
  import opened Refilling
  import opened Scenarios

  // ---- a match under review ----

  /** The first supplier is in entity 1, the second in entity 3, and the match of the two waits for a decision. */
  ghost predicate Asked(s: Store, compare: (Values, Values) -> Verdict) {
    && s.sources == SOURCES && s.policies == map["supplier" := OneKey(compare)]
    && s.objects == map[X := Row(1, RX), Y := Row(3, RY)] && Shows(s, RX, A) && Shows(s, RY, A)
    && s.records.Keys == {RX, RY}
    && s.entities == map[1 := Entity("supplier", Candidate, 1), 3 := Entity("supplier", Candidate, 1)]
    && s.cannot == {} && s.matches == map[3 := MatchTask(Open, 1, Y, X, RY, RX, 1, 1)] && s.merges == map[]
    && s.next == 4
  }

  ghost predicate Shows(s: Store, rid: RecordKey, values: Values) {
    && rid in s.records && s.records[rid].state == Valid && s.records[rid].normalized == values
    && s.records[rid].facts.original == values
  }

  const REVIEWED := [ObserveStep(X, Sighting("1", A), None), ObserveStep(Y, Sighting("1", A), Some(X))]

  lemma YWritten(s: Store, compare: (Values, Values) -> Verdict, a: Item)
    requires HoldsX(s, OneKey(compare), a) && a == Sighting("1", A)
    ensures var t := Received(s, Y, a);
      && t.objects == map[X := Row(1, RX), Y := Row(0, RY).(entity := None)] && t.records.Keys == {RX, RY}
      && Shows(t, RX, A) && Shows(t, RY, A) && t.entities == s.entities && t.sources == SOURCES
      && t.policies == map["supplier" := OneKey(compare)] && t.next == 3
      && t.cannot == {} && t.matches == map[] && t.merges == map[] && t.versions == s.versions
  {
    UnseenReceived(s, Y, a);
  }

  lemma YTask(s: Store)
    requires s.objects == map[X := Row(1, RX), Y := Row(0, RY).(entity := None)] && Shows(s, RX, A)
    requires s.entities == map[1 := Entity("supplier", Candidate, 1)]
    ensures IsCurrent(s, X) && s.objects[X].entity == Some(1)
    ensures TaskFor(s, Y, RY, X) == MatchTask(Open, 1, Y, X, RY, RX, 1, 1)
  {
  }

  lemma YAsks(s: Store, compare: (Values, Values) -> Verdict)
    requires s.objects == map[X := Row(1, RX), Y := Row(0, RY).(entity := None)] && s.records.Keys == {RX, RY}
    requires Shows(s, RX, A) && Shows(s, RY, A) && s.entities == map[1 := Entity("supplier", Candidate, 1)]
    requires s.sources == SOURCES && s.policies == map["supplier" := OneKey(compare)] && s.next == 3
    requires s.cannot == {} && s.matches == map[] && s.merges == map[]
    ensures IsCurrent(s, X) && s.objects[X].entity == Some(1) && Asked(Reviewing(s, Y, RY, X), compare)
  {
    YTask(s);
    ReviewingRows(s, Y, RY, X);
    AskedRows(s, Reviewing(s, Y, RY, X), compare);
  }

  lemma AskedRows(s: Store, t: Store, compare: (Values, Values) -> Verdict)
    requires s.objects == map[X := Row(1, RX), Y := Row(0, RY).(entity := None)] && s.records.Keys == {RX, RY}
    requires Shows(s, RX, A) && Shows(s, RY, A) && s.entities == map[1 := Entity("supplier", Candidate, 1)]
    requires s.sources == SOURCES && s.policies == map["supplier" := OneKey(compare)] && s.next == 3
    requires s.cannot == {} && s.matches == map[] && s.merges == map[]
    requires t == s.(objects := s.objects[Y := s.objects[Y].(entity := Some(3))],
                     entities := s.entities[3 := Entity("supplier", Candidate, 1)],
                     matches := s.matches[3 := MatchTask(Open, 1, Y, X, RY, RX, 1, 1)],
                     history := t.history, versions := t.versions, next := 4)
    ensures Asked(t, compare)
  {
  }

  lemma ReviewingDrafts(s: Store, k: ObjectKey, rid: RecordKey, c: ObjectKey)
    requires k in s.objects && s.next !in s.versions
    requires IsCurrent(s, c) && s.objects[c].entity.Some? && s.objects[c].entity.value in s.entities
    ensures FirstDraft(Reviewing(s, k, rid, c), s.next)
  {
  }

  lemma YAsked(s: Store, compare: (Values, Values) -> Verdict, a: Item)
    requires HoldsX(s, OneKey(compare), a) && a == Sighting("1", A) && 3 !in s.versions
    requires compare(A, A).decision == Review && !compare(A, A).contradicted
    ensures var t := Next(s, ObserveStep(Y, a, Some(X))); Asked(t, compare) && FirstDraft(t, 3)
  {
    YReviews(s, compare, a);
    YWritten(s, compare, a);
    YAsks(Received(s, Y, a), compare);
    ReviewingDrafts(Received(s, Y, a), Y, RY, X);
  }

  lemma ReviewAsked(compare: (Values, Values) -> Verdict)
    requires compare(A, A).decision == Review && !compare(A, A).contradicted
    ensures var s := Run(Start(OneKey(compare)), REVIEWED); Asked(s, compare) && FirstDraft(s, 3)
  {
    var s := Start(OneKey(compare));
    RunTwo(s, REVIEWED);
    SeesX(compare, Sighting("1", A));
    XDrafts(compare, Sighting("1", A));
    YAsked(Next(s, REVIEWED[0]), compare, Sighting("1", A));
  }

  lemma AskedHolds(s: Store, compare: (Values, Values) -> Verdict)
    requires Asked(s, compare) && !compare(A, A).contradicted
    ensures LinkHolds(s, 3) && LinkReady(s, 3, 1)
  {
  }

  // ---- a link leaves an approval behind ----

  lemma OfferedIsMastered(p: Policy, sources: map<string, int>, facts: set<Facts>, f: Facts, field: string)
    requires f in facts && Offers(f, field)
    ensures MasterValues(p, sources, facts) != map[]
  {
    assert f in Options(facts, field);
    assert field in MasterValues(p, sources, facts);
  }

  /** The latest draft of an entity with a contribution that offers a value holds one. */
  lemma DraftHasAValue(s: Store, e: nat, k: ObjectKey, field: string)
    requires Fresh(s, e) && e in s.entities && s.entities[e].domain in s.policies
    requires IsCurrent(s, k) && In(s, k, e) && Offers(CurrentRecord(s, k).facts, field)
    ensures VersionsOf(s, e) != [] && VersionsOf(s, e)[|VersionsOf(s, e)| - 1].values != map[]
  {
    assert k in Contributors(s, e);
    assert CurrentRecord(s, k).facts in FactsOf(s, e);
    OfferedIsMastered(s.policies[s.entities[e].domain].survivorship, s.sources, FactsOf(s, e),
                      CurrentRecord(s, k).facts, field);
  }

  lemma AskedOffers(s: Store, compare: (Values, Values) -> Verdict)
    requires Asked(s, compare)
    ensures 3 in s.entities && s.entities[3].domain in s.policies && s.entities[3].version == 1
    ensures IsCurrent(s, Y) && In(s, Y, 3) && Offers(CurrentRecord(s, Y).facts, "id")
  {
  }

  lemma AskedDraft(s: Store, compare: (Values, Values) -> Verdict)
    requires FreshBut(s, {}) && Asked(s, compare) && FirstDraft(s, 3)
    ensures s.entities[3].version == 1 && s.versions[3][0].values != map[]
  {
    AskedOffers(s, compare);
    assert Fresh(s, 3);
    DraftHasAValue(s, 3, Y, "id");
  }

  lemma AskedLinks(s: Store, compare: (Values, Values) -> Verdict)
    requires Asked(s, compare) && !compare(A, A).contradicted
    ensures LinkGuards(s, 3) && s.matches[3].target == 1 && Attempt(s, MatchStep(3, true)) == Commit(Linking(s, 3))
  {
    AskedHolds(s, compare);
    LinkCommitsIff(s, 3);
    DecideMatchCases(s, 3, true);
  }

  /** The link commits and empties the entity, and the approval opened before it still publishes what the entity
      held. */
  lemma LinkLeavesApproval()
    ensures var s := Run(Start(OneKey(Doubtful)), REVIEWED);
      var linked := Next(s, MatchStep(3, true));
      var r := Attempt(linked, MasterStep(3, 0, true));
      && Attempt(s, MatchStep(3, true)).Commit? && 3 in linked.entities && linked.entities[3].status == Merged
      && FreshValues(linked, 3) == map[] && FirstDraft(s, 3) && s.versions[3][0].values != map[]
      && r.Commit? && r.db.outbox == linked.outbox + [MasterApproved(3, 1, s.versions[3][0].values)]
      && 3 in r.db.entities && r.db.entities[3].status == Approved
  {
    var policies := map["supplier" := OneKey(Doubtful)];
    EmptyGrounded(SOURCES, policies);
    EmptyFresh(SOURCES, policies);
    RunFresh(Start(OneKey(Doubtful)), REVIEWED);
    ReviewAsked(Doubtful);
    AskedLeavesApproval(Run(Start(OneKey(Doubtful)), REVIEWED));
  }

  lemma AskedLeavesApproval(s: Store)
    requires Grounded(s) && AllOneOpen(s) && FreshBut(s, {}) && Asked(s, Doubtful) && FirstDraft(s, 3)
    ensures var linked := Next(s, MatchStep(3, true));
      var r := Attempt(linked, MasterStep(3, 0, true));
      && Attempt(s, MatchStep(3, true)).Commit? && 3 in linked.entities && linked.entities[3].status == Merged
      && FreshValues(linked, 3) == map[] && s.versions[3][0].values != map[]
      && r.Commit? && r.db.outbox == linked.outbox + [MasterApproved(3, 1, s.versions[3][0].values)]
      && 3 in r.db.entities && r.db.entities[3].status == Approved
  {
    AskedLinks(s, Doubtful);
    AskedDraft(s, Doubtful);
    LeavesApproval(s, Linking(s, 3));
  }

  lemma LeavesApproval(s: Store, linked: Store)
    requires Grounded(s) && AllOneOpen(s) && FirstDraft(s, 3) && s.versions[3][0].values != map[]
    requires LinkGuards(s, 3) && s.matches[3].target == 1 && s.entities[3].version == 1 && linked == Linking(s, 3)
    ensures var r := Attempt(linked, MasterStep(3, 0, true));
      && 3 in linked.entities && linked.entities[3].status == Merged && FreshValues(linked, 3) == map[]
      && r.Commit? && r.db.outbox == linked.outbox + [MasterApproved(3, 1, s.versions[3][0].values)]
      && 3 in r.db.entities && r.db.entities[3].status == Approved
  {
    LinkLeavesStaleApproval(s, 3, 0);
  }

  // ---- a link into an entity that was absorbed meanwhile ----

  /** Equal records are for review, others are not linked. */
  function SameOnly(x: Values, y: Values): Verdict {
    if x == y then Verdict(0.5, Review, false) else Verdict(0.0, NoLink, false)
  }

  const V := ObjectKey("crm", "supplier", "2")
  const RV := RecordKey(V, "1")

  lemma {:induction false} Fewer<T>(a: set<T>, b: set<T>)
    requires a <= b
    ensures |a| <= |b|
  {
    if a != {} {
      var x :| x in a;
      Fewer(a - {x}, b - {x});
    }
  }

  lemma VHasNoPartner(s: Store)
    requires s.objects == map[X := Row(1, RX), Y := Row(3, RY), V := Row(0, RV).(entity := None)]
    requires Shows(s, RX, A) && Shows(s, RY, A)
    ensures |CandidateRows(s, RV, ["k"])| <= CANDIDATE_LIMIT
    ensures IsBest(s, OneKey(SameOnly), V, B, Candidates(s, RV, ["k"]), None)
  {
    var rows := CandidateRows(s, RV, ["k"]);
    forall row | row in rows ensures row in {(X, "k"), (Y, "k")} { }
    Fewer(rows, {(X, "k"), (Y, "k")});
    forall c | c in Candidates(s, RV, ["k"]) ensures !Eligible(s, OneKey(SameOnly), V, B, c) {
      assert A["id"] != B["id"];
    }
  }

  lemma VWritten(s: Store)
    requires Asked(s, SameOnly)
    ensures Unseen(s, V, Sighting("1", B))
    ensures var t := Received(s, V, Sighting("1", B));
      && t.objects == map[X := Row(1, RX), Y := Row(3, RY), V := Row(0, RV).(entity := None)]
      && Shows(t, RX, A) && Shows(t, RY, A) && Shows(t, RV, B) && t.policies == s.policies && t.next == 5
      && t.entities == s.entities && t.matches == s.matches && t.merges == s.merges && t.cannot == {}
  {
    UnseenReceived(s, V, Sighting("1", B));
  }

  /** The third supplier is alone in entity 5; the rest is as before. */
  ghost predicate ThirdAlone(s: Store) {
    && s.objects == map[X := Row(1, RX), Y := Row(3, RY), V := Row(5, RV)] && Shows(s, RX, A) && Shows(s, RY, A)
    && s.policies == map["supplier" := OneKey(SameOnly)] && s.cannot == {} && s.merges == map[] && s.next == 6
    && s.entities == map[1 := Entity("supplier", Candidate, 1), 3 := Entity("supplier", Candidate, 1),
                         5 := Entity("supplier", Candidate, 1)]
    && s.matches == map[3 := MatchTask(Open, 1, Y, X, RY, RX, 1, 1)]
  }

  lemma VStandsAlone(s: Store)
    requires Asked(s, SameOnly)
    ensures Next(s, ObserveStep(V, Sighting("1", B), None)) == Creating(Received(s, V, Sighting("1", B)), V)
  {
    VWritten(s);
    VHasNoPartner(Received(s, V, Sighting("1", B)));
    UnseenNext(s, V, Sighting("1", B), None, Creating(Received(s, V, Sighting("1", B)), V));
  }

  lemma VCreated(s: Store)
    requires s.objects == map[X := Row(1, RX), Y := Row(3, RY), V := Row(0, RV).(entity := None)]
    requires Shows(s, RX, A) && Shows(s, RY, A)
    requires s.policies == map["supplier" := OneKey(SameOnly)] && s.cannot == {} && s.merges == map[] && s.next == 5
    requires s.entities == map[1 := Entity("supplier", Candidate, 1), 3 := Entity("supplier", Candidate, 1)]
    requires s.matches == map[3 := MatchTask(Open, 1, Y, X, RY, RX, 1, 1)]
    ensures ThirdAlone(Creating(s, V))
  {
    CreatingRows(s, V);
  }

  lemma VSettles(s: Store)
    requires Asked(s, SameOnly)
    ensures ThirdAlone(Next(s, ObserveStep(V, Sighting("1", B), None)))
  {
    VStandsAlone(s);
    VWritten(s);
    VCreated(Received(s, V, Sighting("1", B)));
  }

  const ABSORBED := [
    ObserveStep(V, Sighting("1", B), None), ProposeMergeStep([5, 1], "alice"), MergeStep(6, true, "bob")]

  lemma AbsorptionProposed(s: Store)
    requires ThirdAlone(s)
    ensures var t := MergeProposed(s, 5, 1, "alice");
      MergeReady(t, 6, 5, 1) && t.merges[6].proposedBy == "alice" && LinkReady(t, 3, 1) && In(t, Y, 3)
  {
    var t := MergeProposed(s, 5, 1, "alice");
    assert t.merges[6] == MergeTask(Open, "alice", 5, [1], map e | e in [5, 1] :: s.entities[e].version);
  }

  /** The match names entity 1 as its target; a merge absorbs it; the link is decided afterwards and puts its member
      into the merged entity. */
  lemma LinkFillsAbsorbed()
    ensures var s := Run(Start(OneKey(SameOnly)), REVIEWED + ABSORBED);
      && 1 in s.entities && s.entities[1].status == Merged && Attempt(s, MatchStep(3, true)).Commit?
      && In(Next(s, MatchStep(3, true)), Y, 1) && 1 in Next(s, MatchStep(3, true)).entities
      && Next(s, MatchStep(3, true)).entities[1].status == Merged
  {
    var s := Run(Start(OneKey(SameOnly)), REVIEWED);
    ReviewAsked(SameOnly);
    RunJoin(Start(OneKey(SameOnly)), REVIEWED, ABSORBED);
    RunThree(s, ABSORBED);
    VSettles(s);
    var t := Next(s, ABSORBED[0]);
    Absorbs(t);
    AbsorbedFills(MergeProposed(t, 5, 1, "alice"), Run(s, ABSORBED));
  }

  lemma Absorbs(s: Store)
    requires ThirdAlone(s)
    ensures var t := MergeProposed(s, 5, 1, "alice");
      && MergeReady(t, 6, 5, 1) && LinkReady(t, 3, 1) && In(t, Y, 3)
      && Next(Next(s, ABSORBED[1]), ABSORBED[2]) == MergeDone(t, 6, 5, 1)
  {
    ProposeMergeCommits(s, 5, 1, "alice");
    AbsorptionProposed(s);
    DecideMergeCommits(MergeProposed(s, 5, 1, "alice"), 6, 5, 1, "bob");
  }

  lemma AbsorbedFills(t: Store, u: Store)
    requires MergeReady(t, 6, 5, 1) && LinkReady(t, 3, 1) && In(t, Y, 3) && u == MergeDone(t, 6, 5, 1)
    ensures 1 in u.entities && u.entities[1].status == Merged && Attempt(u, MatchStep(3, true)).Commit?
    ensures var v := Next(u, MatchStep(3, true)); In(v, Y, 1) && 1 in v.entities && v.entities[1].status == Merged
  {
    LinkIntoAbsorbedCommits(t, 6, 5, 1, 3, Y);
    AbsorbedIsMerged(t, 6, 5, 1);
    MatchCommits(u, 3, DecideMatch(u, 3, true));
  }

  lemma MatchCommits(s: Store, e: nat, r: Reply<Store>)
    requires r == DecideMatch(s, e, true) && r.Commit?
    ensures Attempt(s, MatchStep(e, true)) == r && Next(s, MatchStep(e, true)) == r.db
  {
  }

  lemma AbsorbedIsMerged(s: Store, id: nat, a: nat, b: nat)
    requires MergeReady(s, id, a, b)
    ensures b in MergeDone(s, id, a, b).entities && MergeDone(s, id, a, b).entities[b].status == Merged
  {
  }
}
