/** Runs from an empty store that leave the guarantees: what each exact condition shuts out does happen. */
module Scenarios {
  import opened Prelude
  import opened Survivorship
  import opened Store
  import opened Steps
  import opened Effects
  import opened Grounding
  import opened Separation
  import opened Contradictions
  import opened MergeSplit
  import opened Limits

  // ---- first sightings ----

  /** A full observation without order marks. */
  function Sighting(version: string, values: Values): Item {
    Item(version, values, map[], None, None, false, false)
  }

  function Row(e: nat, rid: RecordKey): SourceObject {
    SourceObject(Some(e), Some(rid), Some(rid), None, None, false)
  }

  function RecordFor(s: Store, k: ObjectKey, item: Item): SourceRecord
    requires k.domain in s.policies
  {
    SourceRecord(Facts(s.next, k.source, item.values, item.verification, s.clock),
                 s.policies[k.domain].normalize(item.values), Valid, item)
  }

  /** The observation of an object never seen before can be resolved. */
  ghost predicate Unseen(s: Store, k: ObjectKey, item: Item) {
    && item == Sighting(item.version, item.values) && k.source in s.sources && k.domain in s.policies
    && k !in s.objects && RecordKey(k, item.version) !in s.records && !s.policies[k.domain].invalid(item.values)
  }

  lemma UnseenReceived(s: Store, k: ObjectKey, item: Item)
    requires Unseen(s, k, item)
    ensures var rid := RecordKey(k, item.version);
      Received(s, k, item) == s.(
        objects := s.objects[k := Row(0, rid).(entity := None)], records := s.records[rid := RecordFor(s, k, item)],
        blocks := s.blocks + BlocksOf(s.policies[k.domain], rid, RecordFor(s, k, item).normalized), next := s.next + 1)
  {
  }

  lemma UnseenResolves(s: Store, k: ObjectKey, item: Item, pick: Option<ObjectKey>)
    requires Unseen(s, k, item)
    ensures Attempt(s, ObserveStep(k, item, pick)) ==
      Resolved(Received(s, k, item), k, RecordKey(k, item.version), pick)
  {
  }

  lemma UnseenNext(s: Store, k: ObjectKey, item: Item, pick: Option<ObjectKey>, t: Store)
    requires Unseen(s, k, item)
    requires Resolved(Received(s, k, item), k, RecordKey(k, item.version), pick) == Commit(t)
    ensures Next(s, ObserveStep(k, item, pick)) == t
  {
    UnseenResolves(s, k, item, pick);
  }

  /** Without candidates the object gets an entity of its own. */
  lemma ObservedAlone(s: Store, k: ObjectKey, item: Item)
    requires Unseen(s, k, item)
    requires var keys := s.policies[k.domain].keys(RecordFor(s, k, item).normalized);
      CandidateRows(Received(s, k, item), RecordKey(k, item.version), keys) == {}
    ensures Attempt(s, ObserveStep(k, item, None)) == Commit(Creating(Received(s, k, item), k))
  {
    UnseenReceived(s, k, item);
    UnseenResolves(s, k, item, None);
  }

  lemma SeesApart(s: Store, k: ObjectKey, item: Item)
    requires Unseen(s, k, item) && s.policies[k.domain].keys(RecordFor(s, k, item).normalized) == []
    ensures Next(s, ObserveStep(k, item, None)) == Creating(Received(s, k, item), k)
  {
    assert CandidateRows(Received(s, k, item), RecordKey(k, item.version), []) == {};
    ObservedAlone(s, k, item);
  }

  /** The first version of an entity, waiting for approval. */
  predicate FirstDraft(s: Store, e: nat) {
    && e in s.versions && |s.versions[e]| == 1
    && s.versions[e][0].review == Open && s.versions[e][0].bound == 1 && !s.versions[e][0].approved
  }

  /** One more lone object, in an entity of its own. */
  ghost predicate Added(s: Store, t: Store, k: ObjectKey, item: Item) {
    && k.domain in s.policies
    && t.sources == s.sources && t.policies == s.policies && t.merges == s.merges && t.clock == s.clock
    && t.objects == s.objects[k := Row(s.next + 1, RecordKey(k, item.version))]
    && t.records == s.records[RecordKey(k, item.version) := RecordFor(s, k, item)]
    && t.entities == s.entities[s.next + 1 := Entity(k.domain, Candidate, 1)] && t.next == s.next + 2
    && t.matches == s.matches
  }

  /** Its draft is the first; the other drafts stay. */
  ghost predicate Drafted(s: Store, t: Store, e: nat) {
    FirstDraft(t, e) && t.versions.Keys == s.versions.Keys + {e} &&
    forall f :: f in s.versions && f != e ==> t.versions[f] == s.versions[f]
  }

  lemma CreatedApart(s: Store, s1: Store, k: ObjectKey, item: Item)
    requires k.domain in s.policies && s1.next == s.next + 1
    requires s1.objects == s.objects[k := Row(0, RecordKey(k, item.version)).(entity := None)]
    requires s1.records == s.records[RecordKey(k, item.version) := RecordFor(s, k, item)] && s1.entities == s.entities
    requires s1.sources == s.sources && s1.policies == s.policies && s1.merges == s.merges && s1.clock == s.clock
    requires s1.matches == s.matches
    ensures Added(s, Creating(s1, k), k, item)
  {
    CreatingRows(s1, k);
  }

  lemma AddsApart(s: Store, k: ObjectKey, item: Item)
    requires Unseen(s, k, item) && s.policies[k.domain].keys(RecordFor(s, k, item).normalized) == []
    ensures Added(s, Next(s, ObserveStep(k, item, None)), k, item)
  {
    SeesApart(s, k, item);
    UnseenReceived(s, k, item);
    CreatedApart(s, Received(s, k, item), k, item);
  }

  lemma CreatingDrafts(s: Store, k: ObjectKey)
    requires k in s.objects && s.next !in s.versions
    ensures Drafted(s, Creating(s, k), s.next)
  {
  }

  lemma DraftsApart(s: Store, k: ObjectKey, item: Item)
    requires Unseen(s, k, item) && s.policies[k.domain].keys(RecordFor(s, k, item).normalized) == []
    requires s.next + 1 !in s.versions
    ensures Drafted(s, Next(s, ObserveStep(k, item, None)), s.next + 1)
  {
    SeesApart(s, k, item);
    UnseenReceived(s, k, item);
    CreatingDrafts(Received(s, k, item), k);
  }

  lemma {:induction false} RunJoin(s: Store, a: seq<Step>, b: seq<Step>)
    ensures Run(s, a + b) == Run(Run(s, a), b)
    decreases |a|
  {
    if a == [] {
      assert a + b == b;
    } else {
      assert (a + b)[1..] == a[1..] + b;
      RunJoin(Next(s, a[0]), a[1..], b);
    }
  }

  // ---- two suppliers that share a key ----

  const X := ObjectKey("crm", "supplier", "1")
  const Y := ObjectKey("erp", "supplier", "1")
  const RX := RecordKey(X, "1")
  const RY := RecordKey(Y, "1")
  const SOURCES := map["crm" := 1, "erp" := 2]

  /** Rules that index every record under one key. */
  function OneKey(compare: (Values, Values) -> Verdict): Rules {
    Rules(values => values, values => false, values => ["k"], compare, Policy(map[], None))
  }

  function Start(rules: Rules): Store {
    Empty(SOURCES, map["supplier" := rules])
  }

  /** The store after the sighting of the first supplier. */
  ghost predicate HoldsX(s: Store, rules: Rules, a: Item) {
    s == Start(rules).(
      objects := map[X := Row(1, RX)], records := map[RX := RecordFor(Start(rules), X, a)], blocks := {Block(RX, "k")},
      entities := map[1 := Entity("supplier", Candidate, 1)], history := s.history, versions := s.versions, next := 2)
  }

  lemma SeesX(compare: (Values, Values) -> Verdict, a: Item)
    requires a == Sighting("1", a.values)
    ensures HoldsX(Next(Start(OneKey(compare)), ObserveStep(X, a, None)), OneKey(compare), a)
  {
    var s := Start(OneKey(compare));
    UnseenReceived(s, X, a);
    var s1 := Received(s, X, a);
    XReceived(s, OneKey(compare), a, s1);
    assert CandidateRows(s1, RX, ["k"]) == {};
    ObservedAlone(s, X, a);
    XCreated(s, OneKey(compare), a, s1);
  }

  lemma XReceived(s: Store, rules: Rules, a: Item, s1: Store)
    requires s == Start(rules) && rules.keys(rules.normalize(a.values)) == ["k"]
    requires s1 == s.(objects := s.objects[X := Row(0, RX).(entity := None)],
        records := s.records[RX := RecordFor(s, X, a)],
      blocks := s.blocks + BlocksOf(rules, RX, RecordFor(s, X, a).normalized), next := s.next + 1)
    ensures s1.objects == map[X := Row(0, RX).(entity := None)] && s1.blocks == {Block(RX, "k")}
    ensures s1 == s.(objects := s1.objects, records := map[RX := RecordFor(s, X, a)], blocks := s1.blocks, next := 1)
  {
    assert s1.blocks == {Block(RX, "k")};
  }

  lemma XCreated(s: Store, rules: Rules, a: Item, s1: Store)
    requires s == Start(rules)
    requires s1.objects == map[X := Row(0, RX).(entity := None)] && s1.blocks == {Block(RX, "k")}
    requires s1 == s.(objects := s1.objects, records := map[RX := RecordFor(s, X, a)], blocks := s1.blocks, next := 1)
    ensures HoldsX(Creating(s1, X), rules, a)
  {
    CreatingRows(s1, X);
  }

  lemma XDrafts(compare: (Values, Values) -> Verdict, a: Item)
    requires a == Sighting("1", a.values)
    ensures Next(Start(OneKey(compare)), ObserveStep(X, a, None)).versions.Keys == {1}
  {
    var s := Start(OneKey(compare));
    var s1 := Received(s, X, a);
    UnseenReceived(s, X, a);
    XReceived(s, OneKey(compare), a, s1);
    assert CandidateRows(s1, RX, ["k"]) == {};
    ObservedAlone(s, X, a);
    CreatingDrafts(s1, X);
  }

  /** The second supplier has the first as its only candidate. */
  lemma CandidateIsX(s: Store, compare: (Values, Values) -> Verdict, a: Item, b: Item)
    requires HoldsX(s, OneKey(compare), a) && b == Sighting("1", b.values)
    ensures CandidateRows(Received(s, Y, b), RY, ["k"]) == {(X, "k")}
    ensures Candidates(Received(s, Y, b), RY, ["k"]) == {X}
  {
    var s1 := Received(s, Y, b);
    assert Joined(s1, RY, ["k"], X, Block(RX, "k"));
    assert (X, "k") in CandidateRows(s1, RY, ["k"]);
    forall row | row in CandidateRows(s1, RY, ["k"]) ensures row == (X, "k") { }
    forall c | c in Candidates(s1, RY, ["k"]) ensures c == X { }
  }

  lemma BestIsX(s: Store, compare: (Values, Values) -> Verdict, a: Item, b: Item)
    requires HoldsX(s, OneKey(compare), a) && b == Sighting("1", b.values)
    requires compare(b.values, a.values).decision in {AutoLink, Review} && !compare(b.values, a.values).contradicted
    ensures IsBest(Received(s, Y, b), OneKey(compare), Y, b.values, {X}, Some(X))
  {
    var s1 := Received(s, Y, b);
    assert CurrentRecord(s1, X).normalized == a.values;
    assert Contributors(s1, 1) == {X};
    assert Eligible(s1, OneKey(compare), Y, b.values, X);
  }

  lemma BothVisible(s: Store, compare: (Values, Values) -> Verdict, a: Item, b: Item)
    requires HoldsX(s, OneKey(compare), a) && b == Sighting("1", b.values)
    ensures var t := Received(s, Y, b);
      && Y in t.objects && "supplier" in t.policies && t.policies["supplier"] == OneKey(compare)
      && RY in t.records && t.records[RY].normalized == b.values && 1 in t.entities
      && IsCurrent(t, X) && CurrentRecord(t, X).normalized == a.values && t.objects[X].entity == Some(1)
  {
    UnseenReceived(s, Y, b);
  }

  lemma ResolvesToX(s: Store, compare: (Values, Values) -> Verdict, a: Values, b: Values)
    requires Y in s.objects && "supplier" in s.policies && s.policies["supplier"] == OneKey(compare)
    requires RY in s.records && s.records[RY].normalized == b
    requires CandidateRows(s, RY, ["k"]) == {(X, "k")} && Candidates(s, RY, ["k"]) == {X}
    requires IsBest(s, OneKey(compare), Y, b, {X}, Some(X))
    requires IsCurrent(s, X) && CurrentRecord(s, X).normalized == a && s.objects[X].entity == Some(1) && 1 in s.entities
    ensures Resolved(s, Y, RY, Some(X)) ==
      Commit(if compare(b, a).decision == AutoLink then Joining(s, Y, 1) else Reviewing(s, Y, RY, X))
  {
    assert VerdictOn(s, OneKey(compare), b, X) == compare(b, a);
  }

  /** It joins the first supplier, or goes to review, as the comparison decides. */
  lemma SeesY(s: Store, compare: (Values, Values) -> Verdict, a: Item, b: Item)
    requires HoldsX(s, OneKey(compare), a) && b == Sighting("1", b.values)
    requires compare(b.values, a.values).decision in {AutoLink, Review} && !compare(b.values, a.values).contradicted
    ensures IsCurrent(Received(s, Y, b), X) && Received(s, Y, b).objects[X].entity == Some(1) && 1 in s.entities
    ensures Resolved(Received(s, Y, b), Y, RY, Some(X)) ==
      Commit(if compare(b.values, a.values).decision == AutoLink then Joining(Received(s, Y, b), Y, 1)
             else Reviewing(Received(s, Y, b), Y, RY, X))
  {
    CandidateIsX(s, compare, a, b);
    BestIsX(s, compare, a, b);
    BothVisible(s, compare, a, b);
    ResolvesToX(Received(s, Y, b), compare, a.values, b.values);
  }

  lemma YReceived(s: Store, compare: (Values, Values) -> Verdict, a: Item)
    requires HoldsX(s, OneKey(compare), a) && a == Sighting("1", a.values)
    ensures var t := Received(s, Y, a);
      && t.objects == map[X := Row(1, RX), Y := Row(0, RY).(entity := None)] && t.records.Keys == {RX, RY}
      && t.records[RX].state == Valid && t.records[RX].normalized == a.values
      && t.records[RY].state == Valid && t.records[RY].normalized == a.values
      && t.entities == s.entities && t.sources == SOURCES && t.policies == s.policies && t.next == 3
      && t.cannot == {} && t.matches == map[] && t.merges == map[]
  {
    UnseenReceived(s, Y, a);
  }

  // ---- an update that contradicts ----

  /** Different identifiers contradict; everything else links. */
  function SameId(x: Values, y: Values): Verdict {
    if "id" in x && "id" in y && x["id"] != y["id"] then Verdict(0.0, NoLink, true) else Verdict(1.0, AutoLink, false)
  }

  const A := map["id" := Text("A")]
  const B := map["id" := Text("B")]
  const JOINED := [ObserveStep(X, Sighting("1", A), None), ObserveStep(Y, Sighting("1", A), Some(X))]

  lemma RunTwo(s: Store, steps: seq<Step>)
    requires |steps| == 2
    ensures Run(s, steps) == Next(Next(s, steps[0]), steps[1])
  {
    assert steps[1..][0] == steps[1] && steps[1..][1..] == [];
    assert Run(Next(s, steps[0]), steps[1..]) == Run(Next(Next(s, steps[0]), steps[1]), []);
  }

  /** Both suppliers are in one entity and show the first identifier. */
  ghost predicate OneEntity(s: Store) {
    && s.objects == map[X := Row(1, RX), Y := Row(1, RY)] && 1 in s.entities && s.sources == SOURCES
    && s.policies == map["supplier" := OneKey(SameId)] && s.records.Keys == {RX, RY}
    && s.records[RX].state == Valid && s.records[RX].normalized == A
    && s.records[RY].state == Valid && s.records[RY].normalized == A
  }

  lemma YJoins(s: Store, a: Item)
    requires HoldsX(s, OneKey(SameId), a) && a == Sighting("1", A)
    ensures Next(s, ObserveStep(Y, a, Some(X))) == Joining(Received(s, Y, a), Y, 1)
  {
    SeesY(s, SameId, a, a);
    UnseenNext(s, Y, a, Some(X), Joining(Received(s, Y, a), Y, 1));
  }

  lemma YInOneEntity(s: Store, a: Item)
    requires HoldsX(s, OneKey(SameId), a) && a == Sighting("1", A)
    ensures OneEntity(Next(s, ObserveStep(Y, a, Some(X))))
  {
    YJoins(s, a);
    YReceived(s, SameId, a);
    YJoined(Received(s, Y, a));
  }

  lemma YJoined(s: Store)
    requires s.objects == map[X := Row(1, RX), Y := Row(0, RY).(entity := None)] && 1 in s.entities &&
        s.sources == SOURCES
    requires s.policies == map["supplier" := OneKey(SameId)] && s.records.Keys == {RX, RY}
    requires s.records[RX].state == Valid && s.records[RX].normalized == A
    requires s.records[RY].state == Valid && s.records[RY].normalized == A
    ensures OneEntity(Joining(s, Y, 1))
  {
    JoiningRows(s, Y, 1);
  }

  lemma JoinedState()
    ensures OneEntity(Run(Start(OneKey(SameId)), JOINED))
  {
    var a := Sighting("1", A);
    RunTwo(Start(OneKey(SameId)), JOINED);
    SeesX(SameId, a);
    YInOneEntity(Next(Start(OneKey(SameId)), JOINED[0]), a);
  }

  /** Two suppliers with one identifier are joined; an update of the second then gives it another identifier. The
      service commits it, and the entity holds a contradiction. */
  lemma UpdateBreaksPeace()
    ensures var s := Run(Start(OneKey(SameId)), JOINED);
      && Grounded(s) && AllSymmetric(s.policies) && Peace(s)
      && InPlace(s, Y, Sighting("2", B)) && Observe(s, Y, Sighting("2", B), None).Commit?
      && !Peace(Next(s, ObserveStep(Y, Sighting("2", B), None)))
  {
    EmptyGrounded(SOURCES, map["supplier" := OneKey(SameId)]);
    RunGrounded(Start(OneKey(SameId)), JOINED);
    JoinedState();
    YUpdateBreaksPeace(Run(Start(OneKey(SameId)), JOINED), Sighting("2", B));
  }

  lemma YUpdateBreaksPeace(s: Store, item: Item)
    requires Grounded(s) && OneEntity(s) && item == Sighting("2", B)
    ensures AllSymmetric(s.policies) && Peace(s) && InPlace(s, Y, item) && Observe(s, Y, item, None).Commit?
    ensures !Peace(Next(s, ObserveStep(Y, item, None)))
  {
    JoinedIsPeaceful(s);
    YUpdateClashes(s, item);
    UpdateKeepsPeaceIff(s, Y, item, None);
  }

  lemma YUpdateClashes(s: Store, item: Item)
    requires OneEntity(s) && item == Sighting("2", B)
    ensures InPlace(s, Y, item) && Observe(s, Y, item, None).Commit? && UpdateClashes(s, Y, item, X)
  {
    assert X in Contributors(s, 1);
  }

  lemma JoinedIsPeaceful(s: Store)
    requires OneEntity(s)
    ensures AllSymmetric(s.policies) && Peace(s)
  {
    assert Symmetric(OneKey(SameId));
  }

  // ---- a merge across a cannot-link row ----

  /** Everything is for review. */
  function Doubtful(x: Values, y: Values): Verdict {
    Verdict(0.5, Review, false)
  }

  /** Two suppliers are kept separate; then a merge of their entities is proposed. */
  const CONTESTED := [
    ObserveStep(X, Sighting("1", A), None), ObserveStep(Y, Sighting("1", A), Some(X)), MatchStep(3, false),
    ProposeMergeStep([1, 3], "alice")]

  ghost predicate KeptApart(s: Store) {
    && s.objects.Keys == {X, Y} && In(s, X, 1) && In(s, Y, 3)
    && s.entities == map[1 := Entity("supplier", Candidate, 1), 3 := Entity("supplier", Candidate, 1)]
    && s.merges == map[]
  }

  ghost predicate Doubted(s: Store) {
    && KeptApart(s) && s.cannot == {} && s.next == 4
    && s.matches.Keys == {3} && s.matches[3].status == Open && s.matches[3].bound == 1
    && s.matches[3].left == Y && s.matches[3].right == X
  }

  lemma YReviews(s: Store, compare: (Values, Values) -> Verdict, a: Item)
    requires HoldsX(s, OneKey(compare), a) && a == Sighting("1", A)
    requires compare(A, A).decision == Review && !compare(A, A).contradicted
    ensures IsCurrent(Received(s, Y, a), X) && Received(s, Y, a).objects[X].entity == Some(1) && 1 in s.entities
    ensures Next(s, ObserveStep(Y, a, Some(X))) == Reviewing(Received(s, Y, a), Y, RY, X)
  {
    SeesY(s, compare, a, a);
    UnseenNext(s, Y, a, Some(X), Reviewing(Received(s, Y, a), Y, RY, X));
  }

  lemma YReviewed(s: Store, a: Item)
    requires HoldsX(s, OneKey(Doubtful), a) && a == Sighting("1", A)
    ensures Doubted(Next(s, ObserveStep(Y, a, Some(X))))
  {
    YReviews(s, Doubtful, a);
    YReceived(s, Doubtful, a);
    YReviewing(Received(s, Y, a));
  }

  lemma YReviewing(s: Store)
    requires s.objects == map[X := Row(1, RX), Y := Row(0, RY).(entity := None)] && IsCurrent(s, X)
    requires s.entities == map[1 := Entity("supplier", Candidate, 1)] && s.next == 3
    requires s.cannot == {} && s.matches == map[] && s.merges == map[]
    ensures Doubted(Reviewing(s, Y, RY, X))
  {
    ReviewingRows(s, Y, RY, X);
  }

  lemma YKeptApart(s: Store)
    requires Doubted(s)
    ensures var t := Next(s, MatchStep(3, false)); KeptApart(t) && t.cannot == {Pair(X, Y)} && t.next == 4
  {
    assert Pair(Y, X) == Pair(X, Y);
  }

  /** The two suppliers are kept separate, and a merge of their entities waits for approval. */
  ghost predicate Contested(s: Store) {
    && s.objects.Keys == {X, Y} && In(s, X, 1) && In(s, Y, 3) && s.cannot == {Pair(X, Y)}
    && MergeReady(s, 4, 1, 3) && s.merges[4].proposedBy == "alice"
  }

  lemma MergeContested(s: Store)
    requires KeptApart(s) && s.cannot == {Pair(X, Y)} && s.next == 4
    ensures Contested(Next(s, ProposeMergeStep([1, 3], "alice")))
  {
    ProposeMergeCommits(s, 1, 3, "alice");
  }

  lemma ContestedState()
    ensures Contested(Run(Start(OneKey(Doubtful)), CONTESTED))
  {
    var s, a := Start(OneKey(Doubtful)), Sighting("1", A);
    RunFour(s, CONTESTED);
    SeesX(Doubtful, a);
    var s1 := Next(s, CONTESTED[0]);
    YReviewed(s1, a);
    var s2 := Next(s1, CONTESTED[1]);
    YKeptApart(s2);
    MergeContested(Next(s2, CONTESTED[2]));
  }

  lemma RunFour(s: Store, steps: seq<Step>)
    requires |steps| == 4
    ensures Run(s, steps) == Next(Next(Next(Next(s, steps[0]), steps[1]), steps[2]), steps[3])
  {
    var t := Next(Next(s, steps[0]), steps[1]);
    RunTwo(t, steps[2..]);
    assert steps[1..][0] == steps[1] && steps[1..][1..] == steps[2..];
    assert Run(Next(s, steps[0]), steps[1..]) == Run(t, steps[2..]);
  }

  /** A second person approves the merge; it commits across the cannot-link row. */
  lemma ContestedMergeBreaksApart()
    ensures var s := Run(Start(OneKey(Doubtful)), CONTESTED);
      && Grounded(s) && Apart(s) && Attempt(s, MergeStep(4, true, "bob")).Commit?
      && !Apart(Next(s, MergeStep(4, true, "bob")))
  {
    EmptyGrounded(SOURCES, map["supplier" := OneKey(Doubtful)]);
    RunGrounded(Start(OneKey(Doubtful)), CONTESTED);
    ContestedState();
    ContestedBreaks(Run(Start(OneKey(Doubtful)), CONTESTED));
  }

  lemma ContestedBreaks(s: Store)
    requires Contested(s)
    ensures Apart(s) && Attempt(s, MergeStep(4, true, "bob")).Commit? && !Apart(Next(s, MergeStep(4, true, "bob")))
  {
    forall a, b | Pair(a, b) in s.cannot
      ensures Placed(s, a) && Placed(s, b) && s.objects[a].entity != s.objects[b].entity
    {
      assert a in Pair(X, Y) && b in Pair(X, Y) && X in Pair(a, b) && Y in Pair(a, b);
    }
    DecideMergeCommits(s, 4, 1, 3, "bob");
    MergeOverridesCannotLink(s, 4, 1, 3, X, Y, "bob");
  }

  lemma RunThree(s: Store, steps: seq<Step>)
    requires |steps| == 3
    ensures Run(s, steps) == Next(Next(Next(s, steps[0]), steps[1]), steps[2])
  {
    assert steps[1..][0] == steps[1] && steps[1..][1] == steps[2];
    RunTwo(Next(s, steps[0]), steps[1..]);
  }
}
