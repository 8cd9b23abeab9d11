/** Referential facts that hold in every run: memberships name existing entities of the
    object's domain, current records exist and belong to their object, identifiers are fresh. */
module Grounding {
  import opened Prelude
  import opened Survivorship
  import opened Store
  import opened Steps
  import opened Effects

  ghost predicate Placed(s: Store, k: ObjectKey) {
    k in s.objects && s.objects[k].entity.Some?
  }

  ghost predicate Allocated(s: Store) {
    && (forall e :: e in s.entities ==> e < s.next)
    && (forall k :: Placed(s, k) ==> s.objects[k].entity.value in s.entities)
  }

  /** The object's entity is in the object's domain, and that domain has a policy. */
  ghost predicate AtHome(s: Store, k: ObjectKey)
    requires Placed(s, k)
  {
    && k.domain in s.policies
    && s.objects[k].entity.value in s.entities
    && s.entities[s.objects[k].entity.value].domain == k.domain
  }

  ghost predicate DomainsAgree(s: Store) {
    && (forall k :: Placed(s, k) ==> AtHome(s, k))
    && (forall e :: e in s.entities ==> s.entities[e].domain in s.policies)
  }

  /** A current record is valid, belongs to its object, and the object is not retired. */
  ghost predicate Owned(s: Store) {
    forall k :: k in s.objects && s.objects[k].current.Some? ==>
        IsCurrent(s, k) && s.objects[k].current.value.owner == k
  }

  ghost predicate UidsUnique(s: Store) {
    && (forall r :: r in s.records ==> s.records[r].facts.uid < s.next)
    && (forall q, r :: q in s.records && r in s.records && s.records[q].facts.uid == s.records[r].facts.uid ==> q == r)
  }

  /** A merge task names existing entities of one domain. */
  ghost predicate MergesSound(s: Store) {
    forall id, b :: id in s.merges && b in [s.merges[id].primary] + s.merges[id].absorbed ==>
      && s.merges[id].primary in s.entities && b in s.entities
      && s.entities[b].domain == s.entities[s.merges[id].primary].domain
  }

  ghost predicate Grounded(s: Store) {
    Allocated(s) && DomainsAgree(s) && Owned(s) && UidsUnique(s) && MergesSound(s)
  }

  /** Records are untouched and objects differ in membership only. */
  ghost predicate SameContent(s: Store, t: Store) {
    && t.policies == s.policies && t.sources == s.sources && t.records == s.records
    && t.objects.Keys == s.objects.Keys
    && (forall k :: k in s.objects ==> t.objects[k] == s.objects[k].(entity := t.objects[k].entity))
  }

  /** Entities only get added, and objects move only to entities of their domain. */
  ghost predicate Reassigns(s: Store, t: Store) {
    && SameContent(s, t) && t.merges == s.merges
    && s.next <= t.next && s.entities.Keys <= t.entities.Keys
    && (forall e :: e in s.entities ==> t.entities[e].domain == s.entities[e].domain)
    && (forall e :: e in t.entities ==> e < t.next && t.entities[e].domain in s.policies)
    && (forall k :: Placed(t, k) && !(Placed(s, k) && t.objects[k].entity == s.objects[k].entity) ==> AtHome(t, k))
  }

  /** Contributions of an entity come from distinct records. */
  lemma FactsHaveDistinctUids(s: Store, e: nat)
    requires UidsUnique(s)
    ensures DistinctUids(FactsOf(s, e))
  {
    forall f, g | f in FactsOf(s, e) && g in FactsOf(s, e) && f.uid == g.uid ensures f == g {
      var j :| j in Contributors(s, e) && CurrentRecord(s, j).facts == f;
      var k :| k in Contributors(s, e) && CurrentRecord(s, k).facts == g;
    }
  }

  lemma ReassignsGrounded(s: Store, t: Store)
    requires Grounded(s) && Reassigns(s, t)
    ensures Grounded(t)
  {
    assert DomainsAgree(t) by {
      forall k | Placed(t, k) ensures AtHome(t, k) {
        if Placed(s, k) && t.objects[k].entity == s.objects[k].entity { assert AtHome(s, k); }
      }
    }
    assert Allocated(t) by {
      forall k | Placed(t, k) ensures t.objects[k].entity.value in t.entities { assert AtHome(t, k); }
    }
  }

  lemma ReassignsTrans(s: Store, t: Store, u: Store)
    requires Reassigns(s, t) && Reassigns(t, u)
    ensures Reassigns(s, u)
  {
    forall k | Placed(u, k) && !(Placed(s, k) && u.objects[k].entity == s.objects[k].entity) ensures AtHome(u, k) {
      if Placed(t, k) && u.objects[k].entity == t.objects[k].entity { assert AtHome(t, k); }
    }
  }

  // ---- the small updates ----

  lemma BumpReassigns(s: Store, e: nat)
    requires Grounded(s) && e in s.entities
    ensures Reassigns(s, Bump(s, e))
  {
  }

  lemma StatusReassigns(s: Store, e: nat, status: EntityStatus)
    requires Grounded(s) && e in s.entities
    ensures Reassigns(s, SetStatus(s, e, status))
  {
  }

  lemma DraftReassigns(s: Store, e: nat, values: Values)
    requires Grounded(s) && e in s.entities
    ensures Reassigns(s, WithDraft(s, e, values))
  {
  }

  lemma NewEntityReassigns(s: Store, domain: string)
    requires Grounded(s) && domain in s.policies
    ensures Reassigns(s, NewEntity(s, domain))
  {
  }

  lemma MoveReassigns(s: Store, ks: set<ObjectKey>, e: nat)
    requires Grounded(s) && ks <= s.objects.Keys && e in s.entities
    requires forall k :: k in ks ==> k.domain == s.entities[e].domain
    ensures Reassigns(s, Move(s, ks, e))
  {
    var t := Move(s, ks, e);
    forall k | Placed(t, k) && !(Placed(s, k) && t.objects[k].entity == s.objects[k].entity) ensures AtHome(t, k) {
      assert k in ks;
    }
  }

  // ---- the transactions ----

  lemma RefreshedReassigns(s: Store, e: nat)
    requires Grounded(s) && e in s.entities
    ensures Reassigns(s, Refreshed(s, e)) && Grounded(Refreshed(s, e))
  {
    var s1 := Bump(s, e);
    BumpReassigns(s, e);
    ReassignsGrounded(s, s1);
    DraftReassigns(s1, e, FreshValues(s1, e));
    ReassignsTrans(s, s1, Refreshed(s, e));
    ReassignsGrounded(s, Refreshed(s, e));
  }

  lemma JoiningReassigns(s: Store, k: ObjectKey, e: nat)
    requires Grounded(s) && k in s.objects && e in s.entities && s.entities[e].domain == k.domain
    ensures Reassigns(s, Joining(s, k, e)) && Grounded(Joining(s, k, e))
  {
    var s1 := Bump(s, e);
    BumpReassigns(s, e);
    ReassignsGrounded(s, s1);
    MovedAndDrafted(s, s1, k, e);
  }

  /** `k` moves to `e` and `e` is drafted. */
  lemma MovedAndDrafted(s: Store, s1: Store, k: ObjectKey, e: nat)
    requires Grounded(s1) && Reassigns(s, s1) && Grounded(s)
    requires k in s1.objects && e in s1.entities && s1.entities[e].domain == k.domain
    ensures var t := Draft(Move(s1, {k}, e), e); Reassigns(s, t) && Grounded(t)
  {
    var s2 := Move(s1, {k}, e);
    MoveReassigns(s1, {k}, e);
    ReassignsGrounded(s1, s2);
    var t := Draft(s2, e);
    DraftReassigns(s2, e, FreshValues(s2, e));
    ReassignsTrans(s1, s2, t);
    ReassignsTrans(s, s1, t);
    ReassignsGrounded(s, t);
  }

  lemma CreatingReassigns(s: Store, k: ObjectKey)
    requires Grounded(s) && k in s.objects && k.domain in s.policies
    ensures Reassigns(s, Creating(s, k)) && Grounded(Creating(s, k))
  {
    var s1 := NewEntity(s, k.domain);
    NewEntityReassigns(s, k.domain);
    ReassignsGrounded(s, s1);
    MovedAndDrafted(s, s1, k, s.next);
  }

  lemma ReviewingReassigns(s: Store, k: ObjectKey, rid: RecordKey, c: ObjectKey)
    requires Grounded(s) && k in s.objects && k.domain in s.policies
    requires IsCurrent(s, c) && s.objects[c].entity.Some? && s.objects[c].entity.value in s.entities
    ensures Reassigns(s, Reviewing(s, k, rid, c)) && Grounded(Reviewing(s, k, rid, c))
  {
    var s2 := NewEntity(s, k.domain).(matches := s.matches[s.next := TaskFor(s, k, rid, c)]);
    NewTaskReassigns(s, k.domain, s2.matches);
    ReassignsGrounded(s, s2);
    MovedAndDrafted(s, s2, k, s.next);
  }

  lemma NewTaskReassigns(s: Store, domain: string, matches: map<nat, MatchTask>)
    requires Grounded(s) && domain in s.policies
    ensures Reassigns(s, NewEntity(s, domain).(matches := matches))
  {
    NewEntityReassigns(s, domain);
  }

  lemma LinkIntoReassigns(s: Store, e: nat, target: nat)
    requires Grounded(s) && e in s.entities && target in s.entities
    requires s.entities[e].domain == s.entities[target].domain
    ensures Reassigns(s, LinkInto(s, e, target)) && Grounded(LinkInto(s, e, target))
  {
    var s1 := Move(s, MembersOf(s, e), target);
    MembersDomain(s, e);
    MoveReassigns(s, MembersOf(s, e), target);
    ReassignsGrounded(s, s1);
    var s2 := SetStatus(s1, e, Merged);
    StatusReassigns(s1, e, Merged);
    ReassignsGrounded(s1, s2);
    ReassignsTrans(s, s1, s2);
    RefreshedReassigns(s2, target);
    ReassignsTrans(s, s2, Refreshed(s2, target));
  }

  lemma MembersDomain(s: Store, e: nat)
    requires Grounded(s) && e in s.entities
    ensures forall k :: k in MembersOf(s, e) ==> k.domain == s.entities[e].domain
  {
    forall k | k in MembersOf(s, e) ensures k.domain == s.entities[e].domain { assert Placed(s, k) && AtHome(s, k); }
  }

  lemma SplitMoveReassigns(s: Store, e: nat, ks: set<ObjectKey>)
    requires Grounded(s) && e in s.entities && ks <= s.objects.Keys && (forall k :: k in ks ==> In(s, k, e))
    ensures var t := Move(NewEntity(s, s.entities[e].domain), ks, s.next); Reassigns(s, t) && Grounded(t)
  {
    var s1 := NewEntity(s, s.entities[e].domain);
    NewEntityReassigns(s, s.entities[e].domain);
    ReassignsGrounded(s, s1);
    MembersDomain(s, e);
    assert ks <= MembersOf(s, e);
    var s2 := Move(s1, ks, s.next);
    MoveReassigns(s1, ks, s.next);
    ReassignsTrans(s, s1, s2);
    ReassignsGrounded(s, s2);
  }

  lemma SplitOffReassigns(s: Store, e: nat, ks: set<ObjectKey>)
    requires Grounded(s) && e in s.entities && ks <= s.objects.Keys && (forall k :: k in ks ==> In(s, k, e))
    ensures Reassigns(s, SplitOff(s, e, ks)) && Grounded(SplitOff(s, e, ks))
  {
    var s2 := Move(NewEntity(s, s.entities[e].domain), ks, s.next);
    SplitMoveReassigns(s, e, ks);
    RefreshedReassigns(s2, e);
    var s3 := Refreshed(s2, e);
    var s4 := Draft(s3, s.next);
    DraftReassigns(s3, s.next, FreshValues(s3, s.next));
    ReassignsTrans(s, s2, s3);
    ReassignsTrans(s, s3, s4);
    var event := IdentitySplit(e, s3.entities[e].version, s.next);
    assert SplitOff(s, e, ks) == Emit(s4, event);
    EmitReassigns(s, s4, event);
    ReassignsGrounded(s, Emit(s4, event));
  }

  lemma EmitReassigns(s: Store, t: Store, event: Event)
    requires Reassigns(s, t)
    ensures Reassigns(s, Emit(t, event))
  {
    var u := Emit(t, event);
    forall k | Placed(u, k) && !(Placed(s, k) && u.objects[k].entity == s.objects[k].entity) ensures AtHome(u, k) {
      assert AtHome(t, k);
    }
  }

  lemma {:induction false} AbsorbReassigns(s: Store, primary: nat, absorbed: seq<nat>, bound: map<nat, nat>)
    requires Grounded(s) && primary in s.entities && Absorb(s, primary, absorbed, bound).Commit?
    requires forall b :: b in absorbed && b in s.entities ==> s.entities[b].domain == s.entities[primary].domain
    ensures Reassigns(s, Absorb(s, primary, absorbed, bound).db)
    decreases |absorbed|
  {
    if absorbed == [] {
      assert Reassigns(s, s);
    } else {
      var b := absorbed[0];
      var s1 := Move(s, MembersOf(s, b), primary);
      MembersDomain(s, b);
      MoveReassigns(s, MembersOf(s, b), primary);
      ReassignsGrounded(s, s1);
      var s2 := SetStatus(s1, b, Merged);
      StatusReassigns(s1, b, Merged);
      ReassignsGrounded(s1, s2);
      ReassignsTrans(s, s1, s2);
      AbsorbReassigns(s2, primary, absorbed[1..], bound);
      ReassignsTrans(s, s2, Absorb(s, primary, absorbed, bound).db);
    }
  }

  lemma ApplyMergeReassigns(s: Store, id: nat)
    requires Grounded(s) && id in s.merges && ApplyMerge(s, s.merges[id]).Commit?
    ensures Reassigns(s, ApplyMerge(s, s.merges[id]).db) && Grounded(ApplyMerge(s, s.merges[id]).db)
  {
    var t := s.merges[id];
    forall b | b in t.absorbed && b in s.entities ensures s.entities[b].domain == s.entities[t.primary].domain {
      assert b in [t.primary] + t.absorbed;
    }
    var s1 := Absorb(s, t.primary, t.absorbed, t.bound).db;
    AbsorbReassigns(s, t.primary, t.absorbed, t.bound);
    ReassignsGrounded(s, s1);
    RefreshedReassigns(s1, t.primary);
    var s2 := Refreshed(s1, t.primary);
    ReassignsTrans(s, s1, s2);
    EmitReassigns(s, s2, IdentityMerged(t.primary, |VersionsOf(s2, t.primary)|, t.absorbed));
    ReassignsGrounded(s, ApplyMerge(s, t).db);
  }

  // ---- observation ----

  lemma ReceivedAtHome(s: Store, k: ObjectKey, item: Item)
    requires Allocated(s) && DomainsAgree(s) && k.domain in s.policies
    ensures Allocated(Received(s, k, item)) && DomainsAgree(Received(s, k, item))
  {
    var t := Received(s, k, item);
    assert forall j :: Placed(t, j) <==> Placed(s, j);
    assert forall j :: Placed(t, j) ==> t.objects[j].entity == s.objects[j].entity;
    assert DomainsAgree(t) by {
      forall j | Placed(t, j) ensures AtHome(t, j) { assert AtHome(s, j); }
    }
  }

  lemma ReceivedOwned(s: Store, k: ObjectKey, item: Item)
    requires Owned(s) && k.domain in s.policies && RecordKey(k, item.version) !in s.records
    ensures Owned(Received(s, k, item))
  {
    var t := Received(s, k, item);
    forall j | j in t.objects && t.objects[j].current.Some?
      ensures IsCurrent(t, j) && t.objects[j].current.value.owner == j
    {
      if j != k { assert IsCurrent(s, j); }
    }
  }

  lemma ReceivedUids(s: Store, k: ObjectKey, item: Item)
    requires UidsUnique(s) && k.domain in s.policies && RecordKey(k, item.version) !in s.records
    ensures UidsUnique(Received(s, k, item))
  {
    var t := Received(s, k, item);
    assert forall r :: r in t.records && r != RecordKey(k, item.version) ==>
        r in s.records && t.records[r] == s.records[r];
  }

  lemma ReceivedGrounded(s: Store, k: ObjectKey, item: Item)
    requires Grounded(s) && k.domain in s.policies && RecordKey(k, item.version) !in s.records
    ensures Grounded(Received(s, k, item))
  {
    ReceivedAtHome(s, k, item);
    ReceivedOwned(s, k, item);
    ReceivedUids(s, k, item);
    assert MergesSound(Received(s, k, item));
  }

  lemma PlacingReassigns(s: Store, k: ObjectKey, rid: RecordKey, pick: Option<ObjectKey>, t: Store)
    requires Grounded(s) && Placing(s, k, rid, pick, t)
    ensures Reassigns(s, t) && Grounded(t)
  {
    if t == Creating(s, k) {
      CreatingReassigns(s, k);
    } else {
      var e := s.objects[pick.value].entity.value;
      assert Placed(s, pick.value) && AtHome(s, pick.value);
      if t == Joining(s, k, e) { JoiningReassigns(s, k, e); } else { ReviewingReassigns(s, k, rid, pick.value); }
    }
  }

  lemma KnownGrounded(s: Store, k: ObjectKey)
    requires Grounded(s)
    ensures Grounded(Known(s, k))
  {
    var t := Known(s, k);
    assert forall j :: Placed(t, j) <==> Placed(s, j);
    forall j | Placed(t, j) ensures AtHome(t, j) { assert AtHome(s, j); }
  }

  lemma SettlesReassigns(s1: Store, k: ObjectKey, rid: RecordKey, pick: Option<ObjectKey>, t: Store)
    requires Grounded(s1) && Settles(s1, k, rid, pick, t)
    ensures Reassigns(s1, t) && Grounded(t)
  {
    if t == s1 {
    } else if Placing(s1, k, rid, pick, t) {
      PlacingReassigns(s1, k, rid, pick, t);
    } else {
      RefreshedReassigns(s1, s1.objects[k].entity.value);
    }
  }

  lemma ObserveGrounded(s: Store, k: ObjectKey, item: Item, pick: Option<ObjectKey>, r: Reply<Store>)
    requires Grounded(s) && ObserveOutcome(s, k, item, pick, r)
    ensures Grounded(After(s, r))
  {
    if r.Abort? {
    } else if RecordKey(k, item.version) in s.records {
      KnownGrounded(s, k);
    } else {
      ReceivedGrounded(s, k, item);
      SettlesReassigns(Received(s, k, item), k, RecordKey(k, item.version), pick, r.db);
    }
  }

  // ---- every step ----

  /** Objects, records, entities and identifiers as before, and every merge task still sound. */
  lemma AsideGrounded(s: Store, t: Store)
    requires Grounded(s) && MergesSound(t) && s.next <= t.next
    requires t.objects == s.objects && t.records == s.records && t.entities == s.entities
    requires t.policies.Keys == s.policies.Keys
    ensures Grounded(t)
  {
    assert forall k :: Placed(t, k) <==> Placed(s, k);
    forall k | Placed(t, k) ensures AtHome(t, k) { assert AtHome(s, k); }
  }

  lemma LinkingGrounded(s: Store, e: nat)
    requires Grounded(s) && LinkGuards(s, e)
    ensures Grounded(Linking(s, e))
  {
    LinkIntoReassigns(s, e, s.matches[e].target);
    AsideGrounded(LinkInto(s, e, s.matches[e].target), Linking(s, e));
  }

  lemma MatchGrounded(s: Store, e: nat, link: bool, r: Reply<Store>)
    requires Grounded(s) && MatchOutcome(s, e, link, r)
    ensures Grounded(After(s, r))
  {
    if r.Abort? {
    } else if r.CommitThenRaise? {
      AsideGrounded(s, CloseMatch(s, e, Stale));
    } else if link {
      LinkingGrounded(s, e);
    } else {
      AsideGrounded(s, Rejecting(s, e));
    }
  }

  lemma ApproveMasterReassigns(s: Store, e: nat, v: nat)
    requires Grounded(s) && e in s.versions && v < |s.versions[e]| && e in s.entities
    ensures Reassigns(s, ApproveMaster(s, e, v)) && Grounded(ApproveMaster(s, e, v))
  {
    ReassignsGrounded(s, ApproveMaster(s, e, v));
  }

  lemma MasterGrounded(s: Store, e: nat, v: nat, approve: bool, r: Reply<Store>)
    requires Grounded(s) && MasterOutcome(s, e, v, approve, r)
    ensures Grounded(After(s, r))
  {
    if r.Abort? {
    } else if approve && r.Commit? {
      ApproveMasterReassigns(s, e, v);
    } else {
      AsideGrounded(s, r.db);
    }
  }

  lemma ProposeMergeGrounded(s: Store, ids: seq<nat>, actor: string)
    requires Grounded(s)
    ensures Grounded(After(s, ProposeMerge(s, ids, actor)))
  {
    var r := ProposeMerge(s, ids, actor);
    if r.Commit? {
      var t := r.db;
      assert [ids[0]] + ids[1..] == ids;
      forall id, b | id in t.merges && b in [t.merges[id].primary] + t.merges[id].absorbed
        ensures t.merges[id].primary in t.entities && b in t.entities
        ensures t.entities[b].domain == t.entities[t.merges[id].primary].domain
      {
        if id == s.next { assert b in ids && ids[0] in ids; }
      }
      AsideGrounded(s, t);
    }
  }

  lemma CloseMergeGrounded(s: Store, id: nat, status: TaskStatus)
    requires Grounded(s) && id in s.merges
    ensures Grounded(CloseMerge(s, id, status))
  {
    AsideGrounded(s, CloseMerge(s, id, status));
  }

  lemma MergeGrounded(s: Store, id: nat, approve: bool, r: Reply<Store>)
    requires Grounded(s) && MergeOutcome(s, id, approve, r)
    ensures Grounded(After(s, r))
  {
    if r.Abort? {
    } else if r.CommitThenRaise? {
      CloseMergeGrounded(s, id, Stale);
    } else if approve {
      ApplyMergeReassigns(s, id);
      CloseMergeGrounded(ApplyMerge(s, s.merges[id]).db, id, Accepted);
    } else {
      CloseMergeGrounded(s, id, Rejected);
    }
  }

  lemma SplittingGrounded(s: Store, id: nat)
    requires Grounded(s) && id in s.splits && s.splits[id].entity in s.entities
    ensures Grounded(Splitting(s, id))
  {
    var t := s.splits[id];
    var ks := StillMembers(s, t.entity, t.objects);
    SplitOffReassigns(s, t.entity, ks);
    AsideGrounded(SplitOff(s, t.entity, ks), Splitting(s, id));
  }

  lemma SplitGrounded(s: Store, id: nat, approve: bool, r: Reply<Store>)
    requires Grounded(s) && SplitOutcome(s, id, approve, r)
    ensures Grounded(After(s, r))
  {
    if r.Abort? {
    } else if r.CommitThenRaise? {
      AsideGrounded(s, CloseSplit(s, id, Stale));
    } else if approve {
      SplittingGrounded(s, id);
    } else {
      AsideGrounded(s, CloseSplit(s, id, Rejected));
    }
  }

  lemma RefreshAllReassigns(s: Store, es: set<nat>)
    requires Grounded(s) && es <= s.entities.Keys
    ensures Reassigns(s, RefreshAll(s, es)) && Grounded(RefreshAll(s, es))
  {
    ReassignsGrounded(s, RefreshAll(s, es));
  }

  lemma ReindexGrounded(s: Store, domain: string)
    requires Grounded(s) && domain in s.policies
    ensures Grounded(Reindex(s, domain))
  {
    var t := Reindex(s, domain);
    assert forall r :: r in s.records ==> t.records[r].facts == s.records[r].facts;
    assert forall k :: Placed(t, k) <==> Placed(s, k);
    forall k | Placed(t, k) ensures AtHome(t, k) { assert AtHome(s, k); }
  }

  lemma RemasterGrounded(s: Store, domain: string)
    requires Grounded(s)
    ensures Grounded(After(s, Remaster(s, domain)))
  {
    if domain in s.policies {
      ReindexGrounded(s, domain);
      RefreshAllReassigns(Reindex(s, domain), LiveIn(s, domain));
    }
  }

  lemma ProposeSplitGrounded(s: Store, e: nat, rids: seq<RecordKey>, order: seq<ObjectKey>, actor: string)
    requires Grounded(s)
    ensures Grounded(After(s, ProposeSplit(s, e, rids, order, actor)))
  {
    var r := ProposeSplit(s, e, rids, order, actor);
    if r.Commit? { AsideGrounded(s, r.db); }
  }

  lemma TickGrounded(s: Store, elapsed: nat)
    requires Grounded(s)
    ensures Grounded(s.(clock := s.clock + elapsed))
  {
    AsideGrounded(s, s.(clock := s.clock + elapsed));
  }

  lemma ActivateGrounded(s: Store, domain: string, rules: Rules)
    requires Grounded(s) && domain in s.policies
    ensures Grounded(s.(policies := s.policies[domain := rules]))
  {
    AsideGrounded(s, s.(policies := s.policies[domain := rules]));
  }

  lemma DecisionGrounded(s: Store, step: Step)
    requires Grounded(s) && (step.MatchStep? || step.MasterStep? || step.MergeStep? || step.SplitStep?)
    ensures Grounded(Next(s, step))
  {
    match step
    case MatchStep(e, link) => DecideMatchCases(s, e, link); MatchGrounded(s, e, link, Attempt(s, step));
    case MasterStep(e, v, approve) =>
      DecideMasterCases(s, e, v, approve);
      MasterGrounded(s, e, v, approve, Attempt(s, step));
    case MergeStep(id, approve, actor) =>
      DecideMergeCases(s, id, approve, actor);
      MergeGrounded(s, id, approve, Attempt(s, step));
    case SplitStep(id, approve, actor) =>
      DecideSplitCases(s, id, approve, actor);
      SplitGrounded(s, id, approve, Attempt(s, step));
  }

  lemma NextGrounded(s: Store, step: Step)
    requires Grounded(s)
    ensures Grounded(Next(s, step))
  {
    match step
    case ObserveStep(k, item, pick) =>
      ObserveCases(s, k, item, pick);
      ObserveGrounded(s, k, item, pick, Attempt(s, step));
    case ProposeMergeStep(ids, actor) => ProposeMergeGrounded(s, ids, actor);
    case ProposeSplitStep(e, rids, order, actor) => ProposeSplitGrounded(s, e, rids, order, actor);
    case RemasterStep(domain) => RemasterGrounded(s, domain);
    case Tick(elapsed) => TickGrounded(s, elapsed);
    case ActivateStep(domain, rules) => if domain in s.policies { ActivateGrounded(s, domain, rules); }
    case _ => DecisionGrounded(s, step);
  }

  lemma {:induction false} RunGrounded(s: Store, steps: seq<Step>)
    requires Grounded(s)
    ensures Grounded(Run(s, steps))
    decreases |steps|
  {
    if steps != [] {
      NextGrounded(s, steps[0]);
      RunGrounded(Next(s, steps[0]), steps[1..]);
    }
  }

  lemma EmptyGrounded(sources: map<string, int>, policies: map<string, Rules>)
    ensures Grounded(Empty(sources, policies))
  {
  }
}
