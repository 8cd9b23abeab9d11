/** What the administrative steps leave alone. */
module Effects {
  import opened Prelude
  import opened Store
  import opened Steps

  /** Only proposals, identifiers and the clock differ. */
  ghost predicate Aside(s: Store, t: Store) {
    s.next <= t.next && t == s.(merges := t.merges, splits := t.splits, next := t.next, clock := t.clock)
  }

  lemma ProposeMergeAside(s: Store, ids: seq<nat>, actor: string)
    ensures Aside(s, After(s, ProposeMerge(s, ids, actor)))
  {
    var r := ProposeMerge(s, ids, actor);
    if r.Commit? { assert Aside(s, r.db); } else { assert r.Abort?; }
  }

  lemma ProposeSplitAside(s: Store, e: nat, rids: seq<RecordKey>, order: seq<ObjectKey>, actor: string)
    ensures Aside(s, After(s, ProposeSplit(s, e, rids, order, actor)))
  {
    var r := ProposeSplit(s, e, rids, order, actor);
    if r.Commit? { assert Aside(s, r.db); } else { assert r.Abort?; }
  }

  lemma RefusedMergeAside(s: Store, id: nat, actor: string)
    ensures Aside(s, After(s, DecideMerge(s, id, false, actor)))
  {
    var r := DecideMerge(s, id, false, actor);
    if id in s.merges {
      var a, b := CloseMerge(s, id, Stale), CloseMerge(s, id, Rejected);
      assert Aside(s, a) && Aside(s, b);
      assert r.Abort? || r.db == a || r.db == b;
    }
  }

  /** Steps that touch neither memberships nor records nor drafts. */
  predicate Administrative(step: Step) {
    || step.Tick? || step.ProposeMergeStep? || step.ProposeSplitStep?
    || (step.MergeStep? && !step.approve)
  }

  lemma AdministrativeAside(s: Store, step: Step)
    requires Administrative(step)
    ensures Aside(s, Next(s, step))
  {
    match step
    case Tick(elapsed) =>
    case ProposeMergeStep(ids, actor) => ProposeMergeAside(s, ids, actor);
    case ProposeSplitStep(e, rids, order, actor) => ProposeSplitAside(s, e, rids, order, actor);
    case MergeStep(id, approve, actor) => RefusedMergeAside(s, id, actor);
  }

  // ---- the outcomes of each decision ----

  function Rejecting(s: Store, e: nat): Store
    requires e in s.matches
  {
    CloseMatch(s.(cannot := s.cannot + {Pair(s.matches[e].left, s.matches[e].right)}), e, Rejected)
  }

  ghost function Linking(s: Store, e: nat): Store
    requires e in s.matches && e in s.entities && s.matches[e].target in s.entities
  {
    CloseMatch(LinkInto(s, e, s.matches[e].target), e, Accepted)
  }

  /** What the guards of a committed link guarantee. */
  ghost predicate LinkGuards(s: Store, e: nat) {
    && e in s.matches && s.matches[e].status == Open
    && e in s.entities && s.entities[e].version == s.matches[e].bound
    && s.matches[e].target in s.entities && s.entities[s.matches[e].target].version == s.matches[e].boundTarget
    && s.entities[e].domain == s.entities[s.matches[e].target].domain
    && !CannotLink(s, s.matches[e].left, s.matches[e].right)
  }

  /** How a decision on a duplicate_match task can end. */
  ghost predicate MatchOutcome(s: Store, e: nat, link: bool, r: Reply<Store>) {
    || r.Abort?
    || (e in s.matches && s.matches[e].status == Open &&
        (|| r == CommitThenRaise(CloseMatch(s, e, Stale), "stale_approval")
         || (LinkGuards(s, e) && link && r == Commit(Linking(s, e)))
         || (!BoundStale(s, e, s.matches[e].bound) && !link && r == Commit(Rejecting(s, e)))))
  }

  lemma DecideMatchCases(s: Store, e: nat, link: bool)
    ensures MatchOutcome(s, e, link, DecideMatch(s, e, link))
  {
  }

  ghost predicate MasterOutcome(s: Store, e: nat, v: nat, approve: bool, r: Reply<Store>) {
    || r.Abort?
    || (e in s.versions && v < |s.versions[e]| && s.versions[e][v].review == Open &&
        (|| r == CommitThenRaise(SetVersion(s, e, v, s.versions[e][v].(review := Stale)), "stale_approval")
         || (!approve && r == Commit(SetVersion(s, e, v, s.versions[e][v].(review := Rejected))))
         || (approve && e in s.entities && s.versions[e][v].bound == s.entities[e].version
             && !s.versions[e][v].approved && r == Commit(ApproveMaster(s, e, v)))))
  }

  lemma DecideMasterCases(s: Store, e: nat, v: nat, approve: bool)
    ensures MasterOutcome(s, e, v, approve, DecideMaster(s, e, v, approve))
  {
  }

  ghost predicate MergeOutcome(s: Store, id: nat, approve: bool, r: Reply<Store>) {
    || r.Abort?
    || (id in s.merges && s.merges[id].status == Open &&
        (|| r == CommitThenRaise(CloseMerge(s, id, Stale), "stale_approval")
         || (!approve && r == Commit(CloseMerge(s, id, Rejected)))
         || (approve && ApplyMerge(s, s.merges[id]).Commit?
             && r == Commit(CloseMerge(ApplyMerge(s, s.merges[id]).db, id, Accepted)))))
  }

  lemma DecideMergeCases(s: Store, id: nat, approve: bool, actor: string)
    ensures MergeOutcome(s, id, approve, DecideMerge(s, id, approve, actor))
  {
  }

  ghost predicate SplitOutcome(s: Store, id: nat, approve: bool, r: Reply<Store>) {
    || r.Abort?
    || (id in s.splits && s.splits[id].status == Open &&
        (|| r == CommitThenRaise(CloseSplit(s, id, Stale), "stale_approval")
         || (!approve && r == Commit(CloseSplit(s, id, Rejected)))
         || (approve && s.splits[id].entity in s.entities && SplitHolds(s, id) && r == Commit(Splitting(s, id)))))
  }

  lemma DecideSplitCases(s: Store, id: nat, approve: bool, actor: string)
    ensures SplitOutcome(s, id, approve, DecideSplit(s, id, approve, actor))
  {
  }

  predicate SplitHolds(s: Store, id: nat)
    requires id in s.splits
  {
    var t := s.splits[id];
    && !BoundStale(s, t.entity, t.bound)
    && |StillMembers(s, t.entity, t.objects)| == |t.objects|
  }

  ghost function Splitting(s: Store, id: nat): Store
    requires id in s.splits && s.splits[id].entity in s.entities
  {
    var t := s.splits[id];
    CloseSplit(SplitOff(s, t.entity, StillMembers(s, t.entity, t.objects)), id, Accepted)
  }

  // ---- the outcomes of an observation ----

  /** A freshly accepted observation is the current record of an object without an entity. */
  ghost predicate JustReceived(s: Store, k: ObjectKey, rid: RecordKey) {
    && k in s.objects && s.objects[k].entity.None? && k.domain in s.policies
    && rid.owner == k && rid in s.records && s.records[rid].state == Valid
    && s.objects[k].current == Some(rid) && !s.objects[k].retired
  }

  function Known(s: Store, k: ObjectKey): Store {
    s.(objects := s.objects[k := ObjectOr(s, k)])
  }

  /** How a new observation changes the store after its record is written. */
  ghost predicate Placing(s1: Store, k: ObjectKey, rid: RecordKey, pick: Option<ObjectKey>, t: Store) {
    && JustReceived(s1, k, rid)
    && (|| t == Creating(s1, k)
        || (pick.Some? && BestCandidate(s1, k, rid, pick.value)
            && (t == Joining(s1, k, s1.objects[pick.value].entity.value)
                || t == Reviewing(s1, k, rid, pick.value))))
  }

  /** The picked candidate: current, placed in an existing entity, of the same domain, eligible. */
  ghost predicate BestCandidate(s: Store, k: ObjectKey, rid: RecordKey, c: ObjectKey)
    requires JustReceived(s, k, rid)
  {
    && IsCurrent(s, c) && s.objects[c].entity.Some? && s.objects[c].entity.value in s.entities
    && c.domain == k.domain && s.objects[c].current != Some(rid)
    && Eligible(s, s.policies[k.domain], k, s.records[rid].normalized, c)
  }

  /** How the transaction goes on once the record and the object row are written. */
  ghost predicate Settles(s1: Store, k: ObjectKey, rid: RecordKey, pick: Option<ObjectKey>, t: Store) {
    || t == s1
    || (k in s1.objects && s1.objects[k].entity.Some? && s1.objects[k].entity.value in s1.entities
        && t == Refreshed(s1, s1.objects[k].entity.value))
    || Placing(s1, k, rid, pick, t)
  }

  /** The row is left undrafted only when the object has no entity or the observation is not accepted. */
  ghost predicate FirstSight(s: Store, k: ObjectKey, item: Item, pick: Option<ObjectKey>, t: Store) {
    && k.domain in s.policies && k.source in s.sources && RecordKey(k, item.version) !in s.records
    && Settles(Received(s, k, item), k, RecordKey(k, item.version), pick, t)
    && (t == Received(s, k, item) && Accepts(s, k, item) ==>
          ObjectOr(s, k).entity.None? || ObjectOr(s, k).entity.value !in s.entities)
  }

  ghost predicate ObserveOutcome(s: Store, k: ObjectKey, item: Item, pick: Option<ObjectKey>, r: Reply<Store>) {
    || r.Abort?
    || (RecordKey(k, item.version) in s.records && r == Commit(Known(s, k)))
    || (r.Commit? && FirstSight(s, k, item, pick, r.db))
  }

  /** The observation becomes the object's state: it is newer and not quarantined. */
  predicate Accepts(s: Store, k: ObjectKey, item: Item)
    requires k.domain in s.policies
  {
    RecordOf(s, k, item).state != Quarantine && Supersedes(ObjectOr(s, k), item)
  }

  lemma ResolvedCases(s: Store, k: ObjectKey, rid: RecordKey, pick: Option<ObjectKey>)
    requires JustReceived(s, k, rid)
    ensures var r := Resolved(s, k, rid, pick); r.Abort? || (r.Commit? && Placing(s, k, rid, pick, r.db))
  {
    if pick.Some? && pick.value in Candidates(s, rid, s.policies[k.domain].keys(s.records[rid].normalized)) {
      assert IsCurrent(s, pick.value) && pick.value.domain == k.domain && s.objects[pick.value].current != Some(rid);
    }
  }

  lemma ObserveNew(s: Store, k: ObjectKey, item: Item, pick: Option<ObjectKey>)
    requires k.source in s.sources && k.domain in s.policies && RecordKey(k, item.version) !in s.records
    ensures var r := Observe(s, k, item, pick); r.Abort? || (r.Commit? && FirstSight(s, k, item, pick, r.db))
  {
    var s1 := Received(s, k, item);
    if JustReceived(s1, k, RecordKey(k, item.version)) { ResolvedCases(s1, k, RecordKey(k, item.version), pick); }
  }

  lemma ObserveCases(s: Store, k: ObjectKey, item: Item, pick: Option<ObjectKey>)
    ensures ObserveOutcome(s, k, item, pick, Observe(s, k, item, pick))
  {
    if k.source in s.sources && k.domain in s.policies && RecordKey(k, item.version) !in s.records {
      ObserveNew(s, k, item, pick);
    }
  }

  // ---- the rows of a placed object ----

  lemma CreatingRows(s: Store, k: ObjectKey)
    requires k in s.objects && s.objects[k].entity.None?
    ensures var t := Creating(s, k);
      t == s.(objects := s.objects[k := s.objects[k].(entity := Some(s.next))],
              entities := s.entities[s.next := Entity(k.domain, Candidate, 1)],
              history := t.history, versions := t.versions, next := s.next + 1)
  {
    assert Creating(s, k).objects == s.objects[k := s.objects[k].(entity := Some(s.next))];
  }

  lemma JoiningRows(s: Store, k: ObjectKey, e: nat)
    requires k in s.objects && s.objects[k].entity.None? && e in s.entities
    ensures var t := Joining(s, k, e);
      t == s.(objects := s.objects[k := s.objects[k].(entity := Some(e))],
              entities := s.entities[e := s.entities[e].(version := s.entities[e].version + 1)],
              history := t.history, versions := t.versions)
  {
    assert Joining(s, k, e).objects == s.objects[k := s.objects[k].(entity := Some(e))];
  }

  lemma ReviewingRows(s: Store, k: ObjectKey, rid: RecordKey, c: ObjectKey)
    requires k in s.objects && s.objects[k].entity.None?
    requires IsCurrent(s, c) && s.objects[c].entity.Some? && s.objects[c].entity.value in s.entities
    ensures var t := Reviewing(s, k, rid, c);
      t == s.(objects := s.objects[k := s.objects[k].(entity := Some(s.next))],
              entities := s.entities[s.next := Entity(k.domain, Candidate, 1)],
              matches := s.matches[s.next := TaskFor(s, k, rid, c)],
              history := t.history, versions := t.versions, next := s.next + 1)
  {
    assert Reviewing(s, k, rid, c).objects == s.objects[k := s.objects[k].(entity := Some(s.next))];
  }
}
