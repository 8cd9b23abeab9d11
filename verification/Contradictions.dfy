/** With fixed policies, and without in-place updates or approved merges, no entity ever
    holds two current contributions with a hard identifier contradiction. */
module Contradictions {
  import opened Prelude
  import opened Store
  import opened Steps
  import opened Effects
  import opened Grounding
  import opened Separation

  /** Contradiction does not depend on which record is on the left. */
  ghost predicate Symmetric(rules: Rules) {
    forall x, y :: rules.compare(x, y).contradicted == rules.compare(y, x).contradicted
  }

  ghost predicate AllSymmetric(policies: map<string, Rules>) {
    forall d :: d in policies ==> Symmetric(policies[d])
  }

  ghost predicate Clash(s: Store, a: ObjectKey, b: ObjectKey) {
    && IsCurrent(s, a) && IsCurrent(s, b) && a.domain in s.policies
    && s.policies[a.domain].compare(CurrentRecord(s, a).normalized, CurrentRecord(s, b).normalized).contradicted
  }

  // ---- the invariant ----

  /** Every record is in the normal form of the policy of its domain. */
  ghost predicate NormalForm(s: Store) {
    forall rid :: rid in s.records ==>
      && rid.owner.domain in s.policies
      && s.records[rid].normalized == s.policies[rid.owner.domain].normalize(s.records[rid].facts.original)
  }

  ghost predicate Peace(s: Store) {
    forall a, b :: a != b && Placed(s, a) && Placed(s, b) && s.objects[a].entity == s.objects[b].entity ==>
        !Clash(s, a, b)
  }

  /** The whole-cluster check made when the match was opened still holds while both bound versions stand. */
  ghost predicate TasksPeaceful(s: Store) {
    forall e, k :: Undisturbed(s, e) && TargetUntouched(s, e) && In(s, k, s.matches[e].target) ==>
      !Clash(s, s.matches[e].left, k)
  }

  ghost predicate Peaceful(s: Store) {
    AllSymmetric(s.policies) && Peace(s) && TasksPeaceful(s)
  }

  /** Placed objects show no other normalized content than before. */
  ghost predicate NothingNew(s: Store, t: Store) {
    && t.policies == s.policies
    && (forall k :: Placed(s, k) && IsCurrent(t, k) ==>
          IsCurrent(s, k) && CurrentRecord(t, k).normalized == CurrentRecord(s, k).normalized)
  }

  lemma NoNewClash(s: Store, t: Store, a: ObjectKey, b: ObjectKey)
    requires NothingNew(s, t) && Placed(s, a) && Placed(s, b)
    ensures Clash(t, a, b) ==> Clash(s, a, b)
  {
  }

  lemma ClashSymmetric(s: Store, a: ObjectKey, b: ObjectKey)
    requires AllSymmetric(s.policies) && a.domain == b.domain
    ensures Clash(s, a, b) == Clash(s, b, a)
  {
    if a.domain in s.policies && IsCurrent(s, a) && IsCurrent(s, b) {
      assert Symmetric(s.policies[a.domain]);
      var x, y := CurrentRecord(s, a).normalized, CurrentRecord(s, b).normalized;
      assert s.policies[a.domain].compare(x, y).contradicted == s.policies[a.domain].compare(y, x).contradicted;
    }
  }

  // ---- steps that do not place objects ----

  lemma GrowsPeace(s: Store, t: Store)
    requires Inv(s) && Grows(s, t) && NothingNew(s, t) && Peace(s) && TasksPeaceful(s)
    ensures Peace(t) && TasksPeaceful(t)
  {
    assert forall k :: Placed(t, k) ==> Placed(s, k);
    forall a, b | a != b && Placed(t, a) && Placed(t, b) && t.objects[a].entity == t.objects[b].entity
      ensures !Clash(t, a, b)
    {
      NoNewClash(s, t, a, b);
    }
    forall e, k | Undisturbed(t, e) && TargetUntouched(t, e) && In(t, k, t.matches[e].target)
      ensures !Clash(t, t.matches[e].left, k)
    {
      assert TaskSound(s, e);
      assert Undisturbed(s, e) && TargetUntouched(s, e) && In(s, k, s.matches[e].target);
      NoNewClash(s, t, s.matches[e].left, k);
    }
  }

  // ---- placing an object ----

  ghost predicate FreeOf(s: Store, k: ObjectKey, e: nat) {
    forall m :: In(s, m, e) ==> !Clash(s, k, m)
  }

  lemma SameClash(s: Store, t: Store, a: ObjectKey, b: ObjectKey)
    requires SameContent(s, t)
    ensures Clash(t, a, b) == Clash(s, a, b)
  {
    assert IsCurrent(t, a) == IsCurrent(s, a) && IsCurrent(t, b) == IsCurrent(s, b);
  }

  lemma PlacesPeace(s: Store, t: Store, k: ObjectKey, e: nat)
    requires Inv(s) && Grounded(s) && Peaceful(s) && Places(s, t, k, e) && SameContent(s, t) && t.matches == s.matches
    requires e in s.entities ==> s.entities[e].domain == k.domain
    requires FreeOf(s, k, e)
    ensures Peace(t) && TasksPeaceful(t)
  {
    assert forall j :: Placed(s, j) ==> j != k;
    forall a, b | a != b && Placed(t, a) && Placed(t, b) && t.objects[a].entity == t.objects[b].entity
      ensures !Clash(t, a, b)
    {
      SameClash(s, t, a, b);
      if a == k {
        assert In(s, b, e);
      } else if b == k {
        assert In(s, a, e);
        assert a.domain == k.domain by { assert AtHome(s, a); }
        ClashSymmetric(s, a, k);
      } else {
        assert Placed(s, a) && Placed(s, b);
      }
    }
    forall f, j | Undisturbed(t, f) && TargetUntouched(t, f) && In(t, j, t.matches[f].target)
      ensures !Clash(t, t.matches[f].left, j)
    {
      assert TaskSound(s, f);
      assert Undisturbed(s, f) && TargetUntouched(s, f) && t.matches[f].target != e;
      assert In(s, j, s.matches[f].target);
      SameClash(s, t, s.matches[f].left, j);
    }
  }

  lemma TaskPeace(s: Store, t: Store, e: nat, task: MatchTask)
    requires Peace(s) && TasksPeaceful(s) && e !in s.matches
    requires t == s.(matches := s.matches[e := task])
    requires FreeOf(s, task.left, task.target)
    ensures Peace(t) && TasksPeaceful(t)
  {
    assert SameContent(s, t);
    forall a, b | a != b && Placed(t, a) && Placed(t, b) && t.objects[a].entity == t.objects[b].entity
      ensures !Clash(t, a, b)
    {
      SameClash(s, t, a, b);
      assert Placed(s, a) && Placed(s, b);
    }
    forall f, j | Undisturbed(t, f) && TargetUntouched(t, f) && In(t, j, t.matches[f].target)
      ensures !Clash(t, t.matches[f].left, j)
    {
      SameClash(s, t, t.matches[f].left, j);
      assert In(s, j, t.matches[f].target);
      if f != e { assert Undisturbed(s, f) && TargetUntouched(s, f); }
    }
  }

  // ---- linking and splitting ----

  lemma LinksPeace(s: Store, t: Store, e: nat)
    requires Inv(s) && Grounded(s) && Peaceful(s) && Links(s, t, e) && SameContent(s, t)
    requires s.entities[e].domain == s.entities[s.matches[e].target].domain
    ensures Peace(t) && TasksPeaceful(t)
  {
    LinkedPeace(s, t, e);
    LinkedTasks(s, t, e);
  }

  lemma LinkedTasks(s: Store, t: Store, e: nat)
    requires Inv(s) && Grounded(s) && Peaceful(s) && Links(s, t, e) && SameContent(s, t)
    ensures TasksPeaceful(t)
  {
    assert TaskSound(s, e);
    var target := s.matches[e].target;
    forall f, j | Undisturbed(t, f) && TargetUntouched(t, f) && In(t, j, t.matches[f].target)
      ensures !Clash(t, t.matches[f].left, j)
    {
      assert TaskSound(s, f);
      assert Undisturbed(s, f) && TargetUntouched(s, f) && t.matches[f].target != target;
      assert In(s, j, s.matches[f].target);
      SameClash(s, t, s.matches[f].left, j);
    }
  }

  lemma LinkedPeace(s: Store, t: Store, e: nat)
    requires Inv(s) && Grounded(s) && Peaceful(s) && Links(s, t, e) && SameContent(s, t)
    requires s.entities[e].domain == s.entities[s.matches[e].target].domain
    ensures Peace(t)
  {
    assert TaskSound(s, e);
    var l, target := s.matches[e].left, s.matches[e].target;
    assert In(s, l, e) && (forall j :: In(s, j, e) ==> j == l);
    forall a, b | a != b && Placed(t, a) && Placed(t, b) && t.objects[a].entity == t.objects[b].entity
      ensures !Clash(t, a, b)
    {
      SameClash(s, t, a, b);
      assert Placed(s, a) && Placed(s, b);
      if a == l && s.objects[b].entity != s.objects[l].entity {
        assert In(s, b, target);
      } else if b == l && s.objects[a].entity != s.objects[l].entity {
        assert In(s, a, target) && AtHome(s, a) && AtHome(s, l);
        ClashSymmetric(s, a, l);
      }
    }
  }

  lemma SplitsPeace(s: Store, t: Store, e: nat, ks: set<ObjectKey>)
    requires Inv(s) && Peaceful(s) && Splits(s, t, e, ks) && SameContent(s, t)
    ensures Peace(t) && TasksPeaceful(t)
  {
    forall a, b | a != b && Placed(t, a) && Placed(t, b) && t.objects[a].entity == t.objects[b].entity
      ensures !Clash(t, a, b)
    {
      SameClash(s, t, a, b);
      assert a in ks ==> In(s, a, e);
      assert b in ks ==> In(s, b, e);
      assert Placed(s, a) && Placed(s, b);
    }
    forall f, j | Undisturbed(t, f) && TargetUntouched(t, f) && In(t, j, t.matches[f].target)
      ensures !Clash(t, t.matches[f].left, j)
    {
      assert TaskSound(s, f);
      assert Undisturbed(s, f) && TargetUntouched(s, f);
      assert In(s, j, s.matches[f].target);
      SameClash(s, t, s.matches[f].left, j);
    }
  }

  // ---- observation ----

  /** A new accepted observation, not a deletion, of an object that has an entity. */
  ghost predicate InPlace(s: Store, k: ObjectKey, item: Item) {
    && Placed(s, k) && k.domain in s.policies && RecordKey(k, item.version) !in s.records
    && !item.deleted && Accepts(s, k, item)
  }

  lemma ReceivedPeace(s: Store, k: ObjectKey, item: Item)
    requires Inv(s) && Grounded(s) && Peaceful(s) && k.domain in s.policies && RecordKey(k, item.version) !in s.records
    requires !InPlace(s, k, item)
    ensures Peaceful(Received(s, k, item))
  {
    var t := Received(s, k, item);
    ReceivedGrows(s, k, item);
    assert NothingNew(s, t) by {
      forall j | Placed(s, j) && IsCurrent(t, j)
        ensures IsCurrent(s, j) && CurrentRecord(t, j).normalized == CurrentRecord(s, j).normalized
      {
        assert t.objects[j].current == s.objects[j].current;
      }
    }
    GrowsPeace(s, t);
  }

  lemma ReassignedIsNothingNew(s: Store, t: Store)
    requires SameContent(s, t)
    ensures NothingNew(s, t)
  {
    forall k | Placed(s, k) && IsCurrent(t, k)
      ensures IsCurrent(s, k) && CurrentRecord(t, k).normalized == CurrentRecord(s, k).normalized
    {
      assert t.objects[k].current == s.objects[k].current;
    }
  }

  /** Steps that keep every membership and all content. */
  lemma SamePeace(s: Store, t: Store)
    requires Inv(s) && Peaceful(s) && Grows(s, t) && SameContent(s, t)
    ensures Peaceful(t)
  {
    ReassignedIsNothingNew(s, t);
    GrowsPeace(s, t);
  }

  lemma NewIsFree(s: Store, k: ObjectKey)
    requires Allocated(s)
    ensures FreeOf(s, k, s.next)
  {
    assert forall m :: In(s, m, s.next) ==> Placed(s, m);
  }

  lemma EligibleIsFree(s: Store, k: ObjectKey, rid: RecordKey, c: ObjectKey)
    requires JustReceived(s, k, rid) && BestCandidate(s, k, rid, c)
    ensures FreeOf(s, k, s.objects[c].entity.value)
  {
    var e := s.objects[c].entity.value;
    assert forall m :: In(s, m, e) && IsCurrent(s, m) ==> m in Contributors(s, e);
  }

  lemma ReviewingPeace(s: Store, k: ObjectKey, rid: RecordKey, c: ObjectKey)
    requires Inv(s) && Grounded(s) && Peaceful(s) && JustReceived(s, k, rid) && BestCandidate(s, k, rid, c)
    ensures Peaceful(Reviewing(s, k, rid, c))
  {
    var t := Reviewing(s, k, rid, c);
    ReviewingReassigns(s, k, rid, c);
    var mid := t.(matches := s.matches);
    ReviewingPlaces(s, k, rid, c);
    assert SameContent(s, mid);
    NewIsFree(s, k);
    PlacesPeace(s, mid, k, s.next);
    EligibleIsFree(s, k, rid, c);
    ReviewingTaskPeace(s, mid, k, rid, c);
  }

  lemma ReviewingTaskPeace(s: Store, mid: Store, k: ObjectKey, rid: RecordKey, c: ObjectKey)
    requires Inv(s) && JustReceived(s, k, rid) && BestCandidate(s, k, rid, c)
    requires mid.matches == s.matches && Places(s, mid, k, s.next) && SameContent(s, mid)
    requires Peace(mid) && TasksPeaceful(mid) && FreeOf(s, k, s.objects[c].entity.value)
    ensures var t := mid.(matches := s.matches[s.next := TaskFor(s, k, rid, c)]); Peace(t) && TasksPeaceful(t)
  {
    var target := s.objects[c].entity.value;
    forall m | In(mid, m, target) ensures !Clash(mid, k, m) {
      assert In(s, m, target);
      SameClash(s, mid, k, m);
    }
    forall f | f in s.matches ensures f < s.next { assert TaskSound(s, f); }
    TaskPeace(mid, mid.(matches := s.matches[s.next := TaskFor(s, k, rid, c)]), s.next, TaskFor(s, k, rid, c));
  }

  lemma CreatingPeace(s: Store, k: ObjectKey, rid: RecordKey)
    requires Inv(s) && Grounded(s) && Peaceful(s) && JustReceived(s, k, rid)
    ensures Peaceful(Creating(s, k))
  {
    CreatingPlaces(s, k);
    CreatingReassigns(s, k);
    NewIsFree(s, k);
    PlacesPeace(s, Creating(s, k), k, s.next);
  }

  lemma JoiningPeace(s: Store, k: ObjectKey, rid: RecordKey, c: ObjectKey)
    requires Inv(s) && Grounded(s) && Peaceful(s) && JustReceived(s, k, rid) && BestCandidate(s, k, rid, c)
    ensures Peaceful(Joining(s, k, s.objects[c].entity.value))
  {
    var e := s.objects[c].entity.value;
    JoiningPlaces(s, k, e);
    assert AtHome(s, c);
    JoiningReassigns(s, k, e);
    EligibleIsFree(s, k, rid, c);
    PlacesPeace(s, Joining(s, k, e), k, e);
  }

  lemma PlacingPeace(s: Store, k: ObjectKey, rid: RecordKey, pick: Option<ObjectKey>, t: Store)
    requires Inv(s) && Grounded(s) && Peaceful(s) && Placing(s, k, rid, pick, t)
    ensures Peaceful(t)
  {
    if t == Creating(s, k) {
      CreatingPeace(s, k, rid);
    } else if t == Joining(s, k, s.objects[pick.value].entity.value) {
      JoiningPeace(s, k, rid, pick.value);
    } else {
      ReviewingPeace(s, k, rid, pick.value);
    }
  }

  lemma SettlesPeace(s1: Store, k: ObjectKey, rid: RecordKey, pick: Option<ObjectKey>, t: Store)
    requires Inv(s1) && Grounded(s1) && Peaceful(s1) && Settles(s1, k, rid, pick, t)
    ensures Peaceful(t)
  {
    if t == s1 {
    } else if Placing(s1, k, rid, pick, t) {
      PlacingPeace(s1, k, rid, pick, t);
    } else {
      RefreshedGrows(s1, s1.objects[k].entity.value);
      RefreshedReassigns(s1, s1.objects[k].entity.value);
      SamePeace(s1, t);
    }
  }

  lemma ObservePeace(s: Store, k: ObjectKey, item: Item, pick: Option<ObjectKey>, r: Reply<Store>)
    requires Inv(s) && Grounded(s) && Peaceful(s) && !InPlace(s, k, item) && ObserveOutcome(s, k, item, pick, r)
    ensures Peaceful(After(s, r))
  {
    if r.Abort? {
    } else if RecordKey(k, item.version) in s.records {
      KnownPeace(s, k);
    } else {
      ReceivedPeace(s, k, item);
      ReceivedGrows(s, k, item);
      GrowsKeeps(s, Received(s, k, item));
      ReceivedGrounded(s, k, item);
      SettlesPeace(Received(s, k, item), k, RecordKey(k, item.version), pick, r.db);
    }
  }

  lemma KnownPeace(s: Store, k: ObjectKey)
    requires Inv(s) && Peaceful(s)
    ensures Peaceful(Known(s, k))
  {
    assert Grows(s, Known(s, k)) && NothingNew(s, Known(s, k));
    GrowsPeace(s, Known(s, k));
  }

  // ---- decisions ----

  lemma ClosePeace(s: Store, e: nat, status: TaskStatus, rows: set<set<ObjectKey>>)
    requires Peaceful(s) && e in s.matches && status != Open
    ensures Peaceful(CloseMatch(s.(cannot := rows), e, status))
  {
    var t := CloseMatch(s.(cannot := rows), e, status);
    assert SameContent(s, t);
    assert forall k :: Placed(t, k) <==> Placed(s, k);
    forall a, b | a != b && Placed(t, a) && Placed(t, b) && t.objects[a].entity == t.objects[b].entity
      ensures !Clash(t, a, b)
    {
      SameClash(s, t, a, b);
    }
    forall f, j | Undisturbed(t, f) && TargetUntouched(t, f) && In(t, j, t.matches[f].target)
      ensures !Clash(t, t.matches[f].left, j)
    {
      assert Undisturbed(s, f) && TargetUntouched(s, f) && In(s, j, s.matches[f].target);
      SameClash(s, t, s.matches[f].left, j);
    }
  }

  lemma LinkingPeace(s: Store, e: nat)
    requires Inv(s) && Grounded(s) && Peaceful(s) && LinkGuards(s, e)
    ensures Peaceful(Linking(s, e))
  {
    LinkingLinks(s, e);
    LinkIntoReassigns(s, e, s.matches[e].target);
    assert SameContent(s, Linking(s, e));
    LinksPeace(s, Linking(s, e), e);
  }

  lemma MatchPeace(s: Store, e: nat, link: bool, r: Reply<Store>)
    requires Inv(s) && Grounded(s) && Peaceful(s) && MatchOutcome(s, e, link, r)
    ensures Peaceful(After(s, r))
  {
    if r.Abort? {
    } else if r.CommitThenRaise? {
      ClosePeace(s, e, Stale, s.cannot);
    } else if link {
      LinkingPeace(s, e);
    } else {
      ClosePeace(s, e, Rejected, s.cannot + {Pair(s.matches[e].left, s.matches[e].right)});
    }
  }

  lemma SplitOffPeace(s: Store, e: nat, ks: set<ObjectKey>)
    requires Inv(s) && Grounded(s) && Peaceful(s) && e in s.entities && ks <= s.objects.Keys
    requires forall k :: k in ks ==> In(s, k, e)
    ensures Peaceful(SplitOff(s, e, ks)) && Inv(SplitOff(s, e, ks))
  {
    SplitOffSplits(s, e, ks);
    SplitOffReassigns(s, e, ks);
    SplitsPeace(s, SplitOff(s, e, ks), e, ks);
    SplitKeeps(s, SplitOff(s, e, ks), e, ks);
  }

  lemma SplittingPeace(s: Store, id: nat)
    requires Inv(s) && Grounded(s) && Peaceful(s) && id in s.splits && s.splits[id].entity in s.entities
    ensures Peaceful(Splitting(s, id))
  {
    var e := s.splits[id].entity;
    var ks := StillMembers(s, e, s.splits[id].objects);
    SplitOffPeace(s, e, ks);
    SamePeace(SplitOff(s, e, ks), CloseSplit(SplitOff(s, e, ks), id, Accepted));
  }

  lemma SplitDecisionPeace(s: Store, id: nat, approve: bool, r: Reply<Store>)
    requires Inv(s) && Grounded(s) && Peaceful(s) && SplitOutcome(s, id, approve, r)
    ensures Peaceful(After(s, r))
  {
    if r.Abort? {
    } else if r.CommitThenRaise? {
      SamePeace(s, CloseSplit(s, id, Stale));
    } else if approve {
      SplittingPeace(s, id);
    } else {
      SamePeace(s, CloseSplit(s, id, Rejected));
    }
  }

  lemma MasterPeace(s: Store, e: nat, v: nat, approve: bool, r: Reply<Store>)
    requires Inv(s) && Grounded(s) && Peaceful(s) && MasterOutcome(s, e, v, approve, r)
    ensures Peaceful(After(s, r))
  {
    if r.Abort? {
    } else if approve && r.Commit? {
      ApproveMasterReassigns(s, e, v);
      assert Grows(s, ApproveMaster(s, e, v));
      SamePeace(s, r.db);
    } else {
      SamePeace(s, r.db);
    }
  }

  // ---- normal form under fixed policies ----

  lemma ReceivedNormal(s: Store, k: ObjectKey, item: Item)
    requires NormalForm(s) && k.domain in s.policies
    ensures NormalForm(Received(s, k, item))
  {
  }

  lemma SameRecordsNormal(s: Store, t: Store)
    requires NormalForm(s) && t.records == s.records && t.policies == s.policies
    ensures NormalForm(t)
  {
  }

  lemma ObserveNormal(s: Store, k: ObjectKey, item: Item, pick: Option<ObjectKey>, r: Reply<Store>)
    requires Grounded(s) && NormalForm(s) && ObserveOutcome(s, k, item, pick, r)
    ensures NormalForm(After(s, r))
  {
    if r.Abort? {
    } else if RecordKey(k, item.version) in s.records {
      SameRecordsNormal(s, r.db);
    } else {
      ReceivedNormal(s, k, item);
      ReceivedGrounded(s, k, item);
      SettlesReassigns(Received(s, k, item), k, RecordKey(k, item.version), pick, r.db);
      SameRecordsNormal(Received(s, k, item), r.db);
    }
  }

  /** Under a fixed policy a remaster recomputes what is already there. */
  lemma ReindexSame(s: Store, domain: string)
    requires NormalForm(s) && domain in s.policies
    ensures Reindex(s, domain).records == s.records
  {
  }

  ghost predicate SameRecords(s: Store, t: Store) {
    t.records == s.records && t.policies == s.policies && t.sources == s.sources
  }

  lemma MatchRecords(s: Store, e: nat, link: bool, r: Reply<Store>)
    requires Grounded(s) && MatchOutcome(s, e, link, r)
    ensures SameRecords(s, After(s, r))
  {
    if r.Commit? && link { LinkIntoReassigns(s, e, s.matches[e].target); }
  }

  lemma MergeRecords(s: Store, id: nat, approve: bool, r: Reply<Store>)
    requires Grounded(s) && MergeOutcome(s, id, approve, r)
    ensures SameRecords(s, After(s, r))
  {
    if r.Commit? && approve { ApplyMergeReassigns(s, id); }
  }

  lemma SplittingRecords(s: Store, id: nat)
    requires id in s.splits && s.splits[id].entity in s.entities
    ensures SameRecords(s, Splitting(s, id))
  {
  }

  lemma SplitRecords(s: Store, id: nat, approve: bool, r: Reply<Store>)
    requires Grounded(s) && SplitOutcome(s, id, approve, r)
    ensures SameRecords(s, After(s, r))
  {
    if r.Commit? && approve { SplittingRecords(s, id); }
  }

  lemma MasterRecords(s: Store, e: nat, v: nat, approve: bool, r: Reply<Store>)
    requires MasterOutcome(s, e, v, approve, r)
    ensures SameRecords(s, After(s, r))
  {
  }

  /** Decisions do not rewrite records or policies. */
  lemma DecisionRecords(s: Store, step: Step)
    requires Grounded(s) && !step.ObserveStep? && !step.RemasterStep? && !step.ActivateStep?
    ensures SameRecords(s, Next(s, step))
  {
    match step
    case MatchStep(e, link) => DecideMatchCases(s, e, link); MatchRecords(s, e, link, Attempt(s, step));
    case MasterStep(e, v, approve) =>
      DecideMasterCases(s, e, v, approve);
      MasterRecords(s, e, v, approve, Attempt(s, step));
    case SplitStep(id, approve, actor) =>
      DecideSplitCases(s, id, approve, actor);
      SplitRecords(s, id, approve, Attempt(s, step));
    case MergeStep(id, approve, actor) =>
      DecideMergeCases(s, id, approve, actor);
      MergeRecords(s, id, approve, Attempt(s, step));
    case _ => AdministrativeAside(s, step);
  }

  lemma NextNormal(s: Store, step: Step)
    requires Grounded(s) && NormalForm(s) && !step.ActivateStep?
    ensures NormalForm(Next(s, step))
  {
    match step
    case ObserveStep(k, item, pick) =>
      ObserveCases(s, k, item, pick);
      ObserveNormal(s, k, item, pick, Attempt(s, step));
    case RemasterStep(domain) =>
      if domain in s.policies {
        ReindexSame(s, domain);
        SameRecordsNormal(s, Next(s, step));
      }
    case _ => DecisionRecords(s, step); SameRecordsNormal(s, Next(s, step));
  }

  // ---- runs ----

  /** The steps the guarantee covers. */
  ghost predicate Covered(s: Store, step: Step) {
    && MergeFree(step)
    && !step.ActivateStep?
    && (step.ObserveStep? ==> !InPlace(s, step.k, step.item))
  }

  lemma RemasterPeace(s: Store, domain: string)
    requires Inv(s) && Grounded(s) && NormalForm(s) && Peaceful(s)
    ensures Peaceful(After(s, Remaster(s, domain)))
  {
    if domain in s.policies {
      RemasterGrows(s, domain);
      ReindexSame(s, domain);
      SamePeace(s, Remaster(s, domain).db);
    }
  }

  lemma NextPeace(s: Store, step: Step)
    requires Inv(s) && Grounded(s) && NormalForm(s) && Peaceful(s) && Covered(s, step)
    ensures Peaceful(Next(s, step))
  {
    match step
    case ObserveStep(k, item, pick) => ObserveCases(s, k, item, pick); ObservePeace(s, k, item, pick, Attempt(s, step));
    case MatchStep(e, link) => DecideMatchCases(s, e, link); MatchPeace(s, e, link, Attempt(s, step));
    case MasterStep(e, v, approve) =>
      DecideMasterCases(s, e, v, approve);
      MasterPeace(s, e, v, approve, Attempt(s, step));
    case SplitStep(id, approve, actor) =>
      DecideSplitCases(s, id, approve, actor);
      SplitDecisionPeace(s, id, approve, Attempt(s, step));
    case RemasterStep(domain) => RemasterPeace(s, domain);
    case _ => AdministrativeAside(s, step); SamePeace(s, Next(s, step));
  }

  ghost predicate CoveredRun(s: Store, steps: seq<Step>)
    decreases |steps|
  {
    steps == [] || (Covered(s, steps[0]) && CoveredRun(Next(s, steps[0]), steps[1..]))
  }

  lemma {:induction false} RunPeace(s: Store, steps: seq<Step>)
    requires Inv(s) && Grounded(s) && NormalForm(s) && Peaceful(s) && CoveredRun(s, steps)
    ensures Peaceful(Run(s, steps))
    decreases |steps|
  {
    if steps != [] {
      NextKeeps(s, steps[0]);
      NextGrounded(s, steps[0]);
      NextNormal(s, steps[0]);
      NextPeace(s, steps[0]);
      RunPeace(Next(s, steps[0]), steps[1..]);
    }
  }

  /** From an empty store: no entity holds two current contributions that contradict each other. */
  lemma NoContradictionWithinEntity(sources: map<string, int>, policies: map<string, Rules>, steps: seq<Step>,
                                    a: ObjectKey, b: ObjectKey)
    requires AllSymmetric(policies)
    requires CoveredRun(Empty(sources, policies), steps)
    ensures var s := Run(Empty(sources, policies), steps);
      a != b && Placed(s, a) && Placed(s, b) && s.objects[a].entity == s.objects[b].entity ==> !Clash(s, a, b)
  {
    EmptyInv(sources, policies);
    EmptyGrounded(sources, policies);
    RunPeace(Empty(sources, policies), steps);
  }
}
