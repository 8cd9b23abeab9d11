/** Where the identity guarantees stop: approved merges and in-place updates are not re-checked. For each the exact
    condition under which the guarantee survives the step, and when a merged entity comes back. */
module Limits {
  import opened Prelude
  import opened Store
  import opened Steps
  import opened Effects
  import opened Grounding
  import opened Separation
  import opened Contradictions
  import opened MergeSplit

  // ---- memberships after a merge ----

  ghost predicate Swept(s: Store, absorbed: seq<nat>, k: ObjectKey) {
    exists i :: 0 <= i < |absorbed| && In(s, k, absorbed[i])
  }

  /** `t` is `s` with every member of an absorbed entity moved to the primary. */
  ghost predicate Gathers(s: Store, t: Store, primary: nat, absorbed: seq<nat>) {
    && t.objects.Keys == s.objects.Keys
    && forall k :: k in s.objects ==>
         t.objects[k] == s.objects[k].(entity := if Swept(s, absorbed, k) then Some(primary) else s.objects[k].entity)
  }

  lemma GathersStep(s: Store, s1: Store, t: Store, primary: nat, absorbed: seq<nat>)
    requires absorbed != [] && Gathers(s, s1, primary, [absorbed[0]]) && Gathers(s1, t, primary, absorbed[1..])
    ensures Gathers(s, t, primary, absorbed)
  {
    forall k | k in s.objects
      ensures t.objects[k] == s.objects[k].(entity := if Swept(s, absorbed, k) then Some(primary)
          else s.objects[k].entity)
    {
      assert Swept(s, [absorbed[0]], k) <==> In(s, k, [absorbed[0]][0]);
      if In(s, k, absorbed[0]) {
        assert Swept(s, absorbed, k);
      } else if Swept(s1, absorbed[1..], k) {
        var i :| 0 <= i < |absorbed[1..]| && In(s1, k, absorbed[1..][i]);
        assert In(s, k, absorbed[i + 1]);
      } else if Swept(s, absorbed, k) {
        var i :| 0 <= i < |absorbed| && In(s, k, absorbed[i]);
        assert In(s1, k, absorbed[1..][i - 1]);
      }
    }
  }

  lemma {:induction false} AbsorbGathers(s: Store, primary: nat, absorbed: seq<nat>, bound: map<nat, nat>)
    requires Absorb(s, primary, absorbed, bound).Commit?
    ensures Gathers(s, Absorb(s, primary, absorbed, bound).db, primary, absorbed)
    decreases |absorbed|
  {
    if absorbed != [] {
      var b := absorbed[0];
      var s1 := SetStatus(Move(s, MembersOf(s, b), primary), b, Merged);
      AbsorbGathers(s1, primary, absorbed[1..], bound);
      MoveGathers(s, b, primary);
      GathersStep(s, s1, Absorb(s, primary, absorbed, bound).db, primary, absorbed);
    }
  }

  lemma MoveGathers(s: Store, b: nat, primary: nat)
    requires b in s.entities
    ensures Gathers(s, SetStatus(Move(s, MembersOf(s, b), primary), b, Merged), primary, [b])
  {
    assert forall k :: Swept(s, [b], k) <==> In(s, k, [b][0]);
  }

  lemma ApplyMergeGathers(s: Store, t: MergeTask)
    requires ApplyMerge(s, t).Commit?
    ensures Gathers(s, ApplyMerge(s, t).db, t.primary, t.absorbed) && ApplyMerge(s, t).db.cannot == s.cannot
  {
    AbsorbGathers(s, t.primary, t.absorbed, t.bound);
  }

  /** The object ends in the primary. */
  ghost predicate Drawn(s: Store, t: MergeTask, k: ObjectKey) {
    In(s, k, t.primary) || Swept(s, t.absorbed, k)
  }

  // ---- cannot-link rows and merges ----

  ghost predicate RowAcross(s: Store, t: MergeTask, a: ObjectKey, b: ObjectKey) {
    Pair(a, b) in s.cannot && Drawn(s, t, a) && Drawn(s, t, b)
  }

  /** An approved merge keeps cannot-linked objects apart exactly when no row joins two of the objects it brings
      together. */
  lemma MergeKeepsApartIff(s: Store, t: MergeTask)
    requires Apart(s) && ApplyMerge(s, t).Commit?
    ensures Apart(ApplyMerge(s, t).db) <==> !exists a, b :: RowAcross(s, t, a, b)
  {
    var u := ApplyMerge(s, t).db;
    ApplyMergeGathers(s, t);
    GatherApart(s, u, t);
  }

  lemma GatherApart(s: Store, u: Store, t: MergeTask)
    requires Apart(s) && Gathers(s, u, t.primary, t.absorbed) && u.cannot == s.cannot
    ensures Apart(u) <==> !exists a, b :: RowAcross(s, t, a, b)
  {
    if a, b :| RowAcross(s, t, a, b) {
      assert In(u, a, t.primary) && In(u, b, t.primary);
    } else {
      forall a, b | Pair(a, b) in u.cannot
        ensures Placed(u, a) && Placed(u, b) && u.objects[a].entity != u.objects[b].entity
      {
        assert Placed(s, a) && Placed(s, b) && s.objects[a].entity != s.objects[b].entity;
        assert !RowAcross(s, t, a, b);
      }
    }
  }

  // ---- contradictions and merges ----

  ghost predicate ClashAcross(s: Store, t: MergeTask, a: ObjectKey, b: ObjectKey) {
    a != b && Drawn(s, t, a) && Drawn(s, t, b) && Clash(s, a, b)
  }

  /** An approved merge keeps entities free of contradictions exactly when no two of the contributions it brings
      together clash. */
  lemma MergeKeepsPeaceIff(s: Store, id: nat)
    requires Grounded(s) && Peace(s) && id in s.merges && ApplyMerge(s, s.merges[id]).Commit?
    ensures Peace(ApplyMerge(s, s.merges[id]).db) <==> !exists a, b :: ClashAcross(s, s.merges[id], a, b)
  {
    ApplyMergeGathers(s, s.merges[id]);
    ApplyMergeReassigns(s, id);
    GatherPeace(s, ApplyMerge(s, s.merges[id]).db, s.merges[id]);
  }

  lemma GatherPeace(s: Store, u: Store, t: MergeTask)
    requires Peace(s) && Gathers(s, u, t.primary, t.absorbed) && SameContent(s, u)
    ensures Peace(u) <==> !exists a, b :: ClashAcross(s, t, a, b)
  {
    if a, b :| ClashAcross(s, t, a, b) {
      assert In(u, a, t.primary) && In(u, b, t.primary) && Placed(u, a) && Placed(u, b);
      SameClash(s, u, a, b);
    } else {
      forall a, b | a != b && Placed(u, a) && Placed(u, b) && u.objects[a].entity == u.objects[b].entity
        ensures !Clash(u, a, b)
      {
        SameClash(s, u, a, b);
        assert Placed(s, a) && Placed(s, b);
        assert !ClashAcross(s, t, a, b);
      }
    }
  }

  // ---- contradictions and in-place updates ----

  /** The new record contradicts another current contribution of the object's entity. */
  ghost predicate ClashesWithin(t: Store, k: ObjectKey, m: ObjectKey) {
    m != k && Placed(t, k) && In(t, m, t.objects[k].entity.value) && Clash(t, k, m)
  }

  /** Only `k` shows new content; memberships stay. */
  ghost predicate UpdatesOnly(s: Store, t: Store, k: ObjectKey) {
    && t.policies == s.policies
    && (forall j :: Placed(t, j) <==> Placed(s, j))
    && (forall j :: Placed(s, j) ==> t.objects[j].entity == s.objects[j].entity)
    && (forall j :: j != k && Placed(s, j) && IsCurrent(t, j) ==>
          IsCurrent(s, j) && CurrentRecord(t, j).normalized == CurrentRecord(s, j).normalized)
  }

  lemma UpdatePeaceIff(s: Store, t: Store, k: ObjectKey)
    requires Peace(s) && Grounded(s) && AllSymmetric(s.policies) && UpdatesOnly(s, t, k)
    ensures Peace(t) <==> !exists m :: ClashesWithin(t, k, m)
  {
    if m :| ClashesWithin(t, k, m) {
      assert Placed(t, m) && t.objects[m].entity == t.objects[k].entity;
    } else {
      forall a, b | a != b && Placed(t, a) && Placed(t, b) && t.objects[a].entity == t.objects[b].entity
        ensures !Clash(t, a, b)
      {
        if a == k {
          assert In(t, b, t.objects[k].entity.value) && !ClashesWithin(t, k, b);
        } else if b == k {
          assert In(t, a, t.objects[k].entity.value) && !ClashesWithin(t, k, a);
          assert AtHome(s, a) && AtHome(s, b);
          ClashSymmetric(t, a, k);
        } else {
          assert Placed(s, a) && Placed(s, b) && !Clash(s, a, b);
        }
      }
    }
  }

  lemma ReceivedUpdatesOnly(s: Store, k: ObjectKey, item: Item)
    requires Grounded(s) && k.domain in s.policies && RecordKey(k, item.version) !in s.records
    ensures UpdatesOnly(s, Received(s, k, item), k)
  {
    var t := Received(s, k, item);
    assert forall j :: j != k ==> (j in t.objects <==> j in s.objects);
    forall j | j != k && Placed(s, j) && IsCurrent(t, j)
      ensures IsCurrent(s, j) && CurrentRecord(t, j).normalized == CurrentRecord(s, j).normalized
    {
      assert t.objects[j] == s.objects[j];
    }
  }

  /** Among the current contributions of the object's entity, `m` is another one that the new record contradicts. */
  ghost predicate UpdateClashes(s: Store, k: ObjectKey, item: Item, m: ObjectKey) {
    && m != k && Placed(s, k) && k.domain in s.policies && m in Contributors(s, s.objects[k].entity.value)
    && s.policies[k.domain].compare(RecordOf(s, k, item).normalized, CurrentRecord(s, m).normalized).contradicted
  }

  /** An update of a placed object keeps entities free of contradictions exactly when, before it, the new record
      contradicts no other current contribution of the object's entity; the service does not check it. */
  lemma UpdateKeepsPeaceIff(s: Store, k: ObjectKey, item: Item, pick: Option<ObjectKey>)
    requires Grounded(s) && Peace(s) && AllSymmetric(s.policies) && InPlace(s, k, item)
    requires Observe(s, k, item, pick).Commit?
    ensures Peace(Observe(s, k, item, pick).db) <==> !exists m :: UpdateClashes(s, k, item, m)
  {
    ObserveCases(s, k, item, pick);
    var t := Observe(s, k, item, pick).db;
    PlacedUpdate(s, k, item, pick, t);
    if m :| ClashesWithin(t, k, m) {
      ClashesBefore(s, k, item, t, m);
    }
    if m :| UpdateClashes(s, k, item, m) {
      ClashesBefore(s, k, item, t, m);
    }
  }

  /** An in-place update rewrites the object's row and record, and no other object's. */
  ghost predicate Updated(s: Store, k: ObjectKey, item: Item, t: Store) {
    && k.domain in s.policies
    && t.objects == Received(s, k, item).objects && t.records == Received(s, k, item).records &&
        t.policies == s.policies
  }

  lemma PlacedUpdate(s: Store, k: ObjectKey, item: Item, pick: Option<ObjectKey>, t: Store)
    requires Grounded(s) && Peace(s) && AllSymmetric(s.policies) && InPlace(s, k, item)
    requires ObserveOutcome(s, k, item, pick, Commit(t))
    ensures Updated(s, k, item, t)
    ensures Peace(t) <==> !exists m :: ClashesWithin(t, k, m)
  {
    SettledUpdate(s, k, item, pick, t);
    UpdatedOnly(s, k, item, t);
    UpdatePeaceIff(s, t, k);
  }

  lemma SettledUpdate(s: Store, k: ObjectKey, item: Item, pick: Option<ObjectKey>, t: Store)
    requires InPlace(s, k, item) && ObserveOutcome(s, k, item, pick, Commit(t))
    ensures Updated(s, k, item, t)
  {
    var s1 := Received(s, k, item);
    assert s1.objects[k].entity == s.objects[k].entity;
    assert !JustReceived(s1, k, RecordKey(k, item.version));
    assert Settles(s1, k, RecordKey(k, item.version), pick, t);
  }

  lemma UpdatedOnly(s: Store, k: ObjectKey, item: Item, t: Store)
    requires Grounded(s) && InPlace(s, k, item) && Updated(s, k, item, t)
    ensures UpdatesOnly(s, t, k)
  {
    ReceivedUpdatesOnly(s, k, item);
  }

  lemma ClashesBefore(s: Store, k: ObjectKey, item: Item, t: Store, m: ObjectKey)
    requires Grounded(s) && InPlace(s, k, item) && Updated(s, k, item, t)
    ensures ClashesWithin(t, k, m) <==> UpdateClashes(s, k, item, m)
  {
    var rid := RecordKey(k, item.version);
    assert IsCurrent(t, k) && CurrentRecord(t, k) == RecordOf(s, k, item);
    if m != k && m in s.objects {
      assert t.objects[m] == s.objects[m];
      assert s.objects[m].current != Some(rid);
    }
  }

  // ---- a ready merge across a row ----

  /** Nothing stops a reviewed merge across a cannot-link row: it commits, and the two objects share an entity. */
  lemma MergeOverridesCannotLink(s: Store, id: nat, a: nat, b: nat, x: ObjectKey, y: ObjectKey, actor: string)
    requires MergeReady(s, id, a, b) && actor != s.merges[id].proposedBy
    requires In(s, x, a) && In(s, y, b) && CannotLink(s, x, y)
    ensures var t := Next(s, MergeStep(id, true, actor));
      CannotLink(t, x, y) && In(t, x, a) && In(t, y, a)
  {
    DecideMergeCommits(s, id, a, b, actor);
    MergedMembers(s, id, a, b);
  }

  // ---- when a merged entity comes back ----

  /** No entity disappears or changes its domain, and a merged one stays merged. */
  ghost predicate KeepsMerged(s: Store, t: Store) {
    forall e :: e in s.entities ==>
      && e in t.entities && t.entities[e].domain == s.entities[e].domain
      && (s.entities[e].status == Merged ==> t.entities[e].status == Merged)
  }

  lemma ObserveKeepsMerged(s: Store, k: ObjectKey, item: Item, pick: Option<ObjectKey>, r: Reply<Store>)
    requires Grounded(s) && ObserveOutcome(s, k, item, pick, r)
    ensures KeepsMerged(s, After(s, r))
  {
    if r.Commit? && RecordKey(k, item.version) !in s.records {
      SettlesKeepsMerged(Received(s, k, item), k, RecordKey(k, item.version), pick, r.db);
    }
  }

  lemma BumpKeepsMerged(s: Store, t: Store, e: nat)
    requires e in s.entities && t.entities == Bump(s, e).entities
    ensures KeepsMerged(s, t)
  {
  }

  lemma NewKeepsMerged(s: Store, t: Store, domain: string)
    requires s.next !in s.entities && t.entities == NewEntity(s, domain).entities
    ensures KeepsMerged(s, t)
  {
  }

  lemma CreatingKeepsMerged(s: Store, k: ObjectKey)
    requires k in s.objects && s.next !in s.entities
    ensures KeepsMerged(s, Creating(s, k))
  {
    NewKeepsMerged(s, Creating(s, k), k.domain);
  }

  lemma JoiningKeepsMerged(s: Store, k: ObjectKey, e: nat)
    requires k in s.objects && e in s.entities
    ensures KeepsMerged(s, Joining(s, k, e))
  {
    BumpKeepsMerged(s, Joining(s, k, e), e);
  }

  lemma ReviewingKeepsMerged(s: Store, k: ObjectKey, rid: RecordKey, c: ObjectKey)
    requires k in s.objects && s.next !in s.entities
    requires IsCurrent(s, c) && s.objects[c].entity.Some? && s.objects[c].entity.value in s.entities
    ensures KeepsMerged(s, Reviewing(s, k, rid, c))
  {
    NewKeepsMerged(s, Reviewing(s, k, rid, c), k.domain);
  }

  lemma PlacingKeepsMerged(s: Store, k: ObjectKey, rid: RecordKey, pick: Option<ObjectKey>, t: Store)
    requires Placing(s, k, rid, pick, t) && s.next !in s.entities
    ensures KeepsMerged(s, t)
  {
    CreatingKeepsMerged(s, k);
    if t != Creating(s, k) {
      JoiningKeepsMerged(s, k, s.objects[pick.value].entity.value);
      ReviewingKeepsMerged(s, k, rid, pick.value);
    }
  }

  lemma SettlesKeepsMerged(s: Store, k: ObjectKey, rid: RecordKey, pick: Option<ObjectKey>, t: Store)
    requires Settles(s, k, rid, pick, t) && s.next !in s.entities
    ensures KeepsMerged(s, t)
  {
    if t == s {
    } else if Placing(s, k, rid, pick, t) {
      PlacingKeepsMerged(s, k, rid, pick, t);
    } else {
      BumpKeepsMerged(s, t, s.objects[k].entity.value);
    }
  }

  lemma MatchKeepsMerged(s: Store, e: nat, link: bool, r: Reply<Store>)
    requires Grounded(s) && MatchOutcome(s, e, link, r)
    ensures KeepsMerged(s, After(s, r))
  {
    if r.Commit? && link {
      var target := s.matches[e].target;
      assert r.db.entities == Bump(SetStatus(s, e, Merged), target).entities;
    }
  }

  lemma {:induction false} AbsorbKeepsMerged(s: Store, primary: nat, absorbed: seq<nat>, bound: map<nat, nat>)
    requires Absorb(s, primary, absorbed, bound).Commit?
    ensures KeepsMerged(s, Absorb(s, primary, absorbed, bound).db)
    decreases |absorbed|
  {
    if absorbed != [] {
      AbsorbKeepsMerged(SetStatus(Move(s, MembersOf(s, absorbed[0]), primary), absorbed[0], Merged), primary,
          absorbed[1..], bound);
    }
  }

  lemma MergeKeepsMerged(s: Store, id: nat, approve: bool, r: Reply<Store>)
    requires MergeOutcome(s, id, approve, r)
    ensures KeepsMerged(s, After(s, r))
  {
    if r.Commit? && approve {
      var t := s.merges[id];
      AbsorbKeepsMerged(s, t.primary, t.absorbed, t.bound);
      var s1 := Absorb(s, t.primary, t.absorbed, t.bound).db;
      assert r.db.entities == Bump(s1, t.primary).entities;
    }
  }

  lemma SplitKeepsMerged(s: Store, id: nat, approve: bool, r: Reply<Store>)
    requires Grounded(s) && SplitOutcome(s, id, approve, r)
    ensures KeepsMerged(s, After(s, r))
  {
    if r.Commit? && approve {
      SplittingKeepsMerged(s, s.splits[id].entity, id);
    }
  }

  lemma SplittingKeepsMerged(s: Store, e: nat, id: nat)
    requires Grounded(s) && id in s.splits && s.splits[id].entity == e && e in s.entities
    ensures KeepsMerged(s, Splitting(s, id))
  {
    assert Splitting(s, id).entities == Bump(NewEntity(s, s.entities[e].domain), e).entities;
  }

  /** The version's approval task is open, bound to the entity's present version, and not yet approved. */
  predicate Approvable(s: Store, e: nat, v: nat) {
    && e in s.entities && e in s.versions && v < |s.versions[e]|
    && s.versions[e][v].review == Open && s.versions[e][v].bound == s.entities[e].version && !s.versions[e][v].approved
  }

  /** The one step that revives a merged entity. */
  predicate Revives(s: Store, step: Step, e: nat) {
    step.MasterStep? && step.e == e && step.approve && Approvable(s, e, step.v)
  }

  lemma ApprovalCommitsIff(s: Store, e: nat, v: nat)
    requires e in s.entities
    ensures DecideMaster(s, e, v, true).Commit? <==> Approvable(s, e, v)
  {
  }

  lemma MasterRevives(s: Store, e: nat, v: nat, approve: bool, r: Reply<Store>, f: nat)
    requires MasterOutcome(s, e, v, approve, r) && f in s.entities && s.entities[f].status == Merged
    ensures f in After(s, r).entities
    ensures After(s, r).entities[f].status != Merged <==> approve && f == e && r.Commit?
  {
    if r.Abort? {
    } else if r.Commit? && approve {
      assert r.db.entities == SetStatus(s, e, Approved).entities;
    } else {
      assert r.db.entities == s.entities;
    }
  }

  lemma ActivateKeepsMerged(s: Store, domain: string, rules: Rules)
    ensures KeepsMerged(s, Next(s, ActivateStep(domain, rules)))
  {
    SameEntitiesKeepMerged(s, Next(s, ActivateStep(domain, rules)));
  }

  lemma RemasterKeepsMerged(s: Store, domain: string)
    ensures KeepsMerged(s, After(s, Remaster(s, domain)))
  {
  }

  lemma OthersKeepMerged(s: Store, step: Step)
    requires Grounded(s) && !step.MasterStep?
    ensures KeepsMerged(s, Next(s, step))
  {
    match step
    case ObserveStep(k, item, pick) =>
      ObserveCases(s, k, item, pick);
      ObserveKeepsMerged(s, k, item, pick, Attempt(s, step));
    case MatchStep(f, link) => DecideMatchCases(s, f, link); MatchKeepsMerged(s, f, link, Attempt(s, step));
    case MergeStep(id, approve, actor) =>
      DecideMergeCases(s, id, approve, actor);
      MergeKeepsMerged(s, id, approve, Attempt(s, step));
    case SplitStep(id, approve, actor) =>
      DecideSplitCases(s, id, approve, actor);
      SplitKeepsMerged(s, id, approve, Attempt(s, step));
    case RemasterStep(domain) => RemasterKeepsMerged(s, domain);
    case ActivateStep(domain, rules) => ActivateKeepsMerged(s, domain, rules);
    case MasterStep(_, _, _) =>
    case _ => AdministrativeAside(s, step); SameEntitiesKeepMerged(s, Next(s, step));
  }

  lemma SameEntitiesKeepMerged(s: Store, t: Store)
    requires t.entities == s.entities
    ensures KeepsMerged(s, t)
  {
  }

  /** "Merged" is left exactly by approving one of the entity's own versions that is still open and bound to its
      version. */
  lemma MergedIsLeftByApproval(s: Store, step: Step, e: nat)
    requires Grounded(s) && e in s.entities && s.entities[e].status == Merged
    ensures e in Next(s, step).entities
    ensures Next(s, step).entities[e].status != Merged <==> Revives(s, step, e)
  {
    if step.MasterStep? {
      DecideMasterCases(s, step.e, step.v, step.approve);
      MasterRevives(s, step.e, step.v, step.approve, Attempt(s, step), e);
      if step.e == e { ApprovalCommitsIff(s, e, step.v); }
    } else {
      OthersKeepMerged(s, step);
    }
  }

  ghost predicate KeepsDomains(s: Store, t: Store) {
    forall e :: e in s.entities ==> e in t.entities && t.entities[e].domain == s.entities[e].domain
  }

  lemma MasterKeepsDomains(s: Store, e: nat, v: nat, approve: bool, r: Reply<Store>)
    requires MasterOutcome(s, e, v, approve, r)
    ensures KeepsDomains(s, After(s, r))
  {
    if r.Commit? && approve { assert r.db.entities == SetStatus(s, e, Approved).entities; }
  }

  /** Entities are never removed and never change their domain. */
  lemma NextKeepsDomains(s: Store, step: Step)
    requires Grounded(s)
    ensures KeepsDomains(s, Next(s, step))
  {
    if step.MasterStep? {
      DecideMasterCases(s, step.e, step.v, step.approve);
      MasterKeepsDomains(s, step.e, step.v, step.approve, Attempt(s, step));
    } else {
      OthersKeepMerged(s, step);
    }
  }

  /** An absorbed entity keeps its version, so an approval that was open for it at the merge still commits
      afterwards. */
  lemma AbsorbedDraftStaysApprovable(s: Store, id: nat, a: nat, b: nat, v: nat)
    requires MergeReady(s, id, a, b) && b in s.versions && v < |s.versions[b]|
    requires var row := s.versions[b][v]; row.review == Open && row.bound == s.entities[b].version && !row.approved
    ensures var t := MergeDone(s, id, a, b);
      && t.entities[b].status == Merged
      && DecideMaster(t, b, v, true).Commit? && DecideMaster(t, b, v, true).db.entities[b].status == Approved
  {
    var t := MergeDone(s, id, a, b);
    assert t.versions[b] == s.versions[b] && t.entities[b].version == s.entities[b].version;
    assert DecideMaster(t, b, v, true) == Commit(ApproveMaster(t, b, v));
  }

  /** The guards of a link, in the order of the source. */
  ghost predicate LinkHolds(s: Store, e: nat) {
    && e in s.matches && s.matches[e].status == Open
    && e in s.entities && s.entities[e].version == s.matches[e].bound
    && s.matches[e].target in s.entities && s.entities[e].domain == s.entities[s.matches[e].target].domain
    && s.entities[s.matches[e].target].version == s.matches[e].boundTarget
    && !CannotLink(s, s.matches[e].left, s.matches[e].right)
    && s.matches[e].leftRecord in s.records && s.matches[e].rightRecord in s.records
    && s.entities[e].domain in s.policies
    && !s.policies[s.entities[e].domain].compare(s.records[s.matches[e].leftRecord].normalized,
                                                 s.records[s.matches[e].rightRecord].normalized).contradicted
  }

  /** The link of match `e` into the other entity `b` could be approved now. */
  ghost predicate LinkReady(s: Store, e: nat, b: nat) {
    LinkHolds(s, e) && s.matches[e].target == b && e != b
  }

  lemma LinkStaysReady(s: Store, id: nat, a: nat, b: nat, e: nat)
    requires MergeReady(s, id, a, b) && LinkReady(s, e, b) && e != a
    ensures var t := MergeDone(s, id, a, b); LinkReady(t, e, b) && t.entities[b].status == Merged
  {
    var t := MergeDone(s, id, a, b);
    assert t.entities[e] == s.entities[e] && t.entities[b].version == s.entities[b].version;
  }

  lemma ReadyLinkCommits(s: Store, e: nat, b: nat)
    requires LinkReady(s, e, b)
    ensures DecideMatch(s, e, true) == Commit(CloseMatch(LinkInto(s, e, b), e, Accepted))
    ensures LinkInto(s, e, b).entities[b].status == s.entities[b].status
    ensures forall k :: In(s, k, e) ==> In(LinkInto(s, e, b), k, b)
  {
    LinkIntoRows(s, e, b);
  }

  /** The link does not look at the status of its target: if the target is absorbed between the proposal and the
      decision, the link still commits and its members end in the merged entity. */
  lemma LinkIntoAbsorbedCommits(s: Store, id: nat, a: nat, b: nat, e: nat, k: ObjectKey)
    requires MergeReady(s, id, a, b) && LinkReady(s, e, b) && e != a && In(s, k, e)
    ensures var t := MergeDone(s, id, a, b);
      && DecideMatch(t, e, true).Commit?
      && In(DecideMatch(t, e, true).db, k, b)
      && b in DecideMatch(t, e, true).db.entities && DecideMatch(t, e, true).db.entities[b].status == Merged
  {
    LinkStaysReady(s, id, a, b, e);
    ReadyLinkCommits(MergeDone(s, id, a, b), e, b);
    MergedMembers(s, id, a, b);
  }
}
