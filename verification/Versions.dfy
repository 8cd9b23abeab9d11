/** Entity versions: they never fall, and they rise whenever an entity's contributions change, so that decisions bound
    to a version are never taken on other data. */
module Versions {
  import opened Prelude
  import opened Survivorship
  import opened Store
  import opened Steps
  import opened Effects
  import opened Grounding
  import opened Separation
  import opened Drafts
  import opened Redelivery
  import opened Limits
  import opened Observations

  // ---- what a new version means ----

  /** The entity's contributions are as before, or its version rose, or it was emptied into another one. */
  ghost predicate Watched(s: Store, t: Store, e: nat) {
    && e in s.entities && e in t.entities && s.entities[e].version <= t.entities[e].version
    && (|| FactsOf(t, e) == FactsOf(s, e) || s.entities[e].version < t.entities[e].version
        || t.entities[e].status == Merged)
  }

  ghost predicate AllWatched(s: Store, t: Store) {
    forall e :: e in s.entities ==> Watched(s, t, e)
  }

  /** Entities outside `but` keep their members; no version falls. */
  ghost predicate MembersStay(s: Store, t: Store, but: set<nat>) {
    && SameContent(s, t)
    && (forall e :: e in s.entities ==> e in t.entities && s.entities[e].version <= t.entities[e].version)
    && (forall e, k :: e in s.entities && e !in but ==> (In(t, k, e) <==> In(s, k, e)))
  }

  lemma StayingIsWatched(s: Store, t: Store, but: set<nat>)
    requires MembersStay(s, t, but)
    requires forall e :: e in s.entities && e in but ==>
      s.entities[e].version < t.entities[e].version || t.entities[e].status == Merged
    ensures AllWatched(s, t)
  {
    forall e | e in s.entities ensures Watched(s, t, e) {
      if e !in but { FactsByMembers(s, t, e); }
    }
  }

  // ---- observations ----

  lemma RefreshedWatched(s: Store, s1: Store, e: nat)
    requires e in s1.entities && s1.entities == s.entities
    requires forall f :: f in s.entities && f != e ==> FactsOf(s1, f) == FactsOf(s, f)
    ensures AllWatched(s, Refreshed(s1, e))
  {
    var t := Refreshed(s1, e);
    forall f | f in s.entities ensures Watched(s, t, f) {
      FactsByMembers(s1, t, f);
    }
  }

  lemma PlacedMembers(s: Store, t: Store, k: ObjectKey, f: nat, e: nat)
    requires k in s.objects && s.objects[k].entity.None?
    requires t.objects == s.objects[k := s.objects[k].(entity := Some(f))]
    requires e != f
    ensures forall j :: In(t, j, e) <==> In(s, j, e)
  {
  }

  lemma CreatingWatched(s: Store, k: ObjectKey)
    requires Allocated(s) && k in s.objects && s.objects[k].entity.None?
    ensures AllWatched(s, Creating(s, k))
  {
    CreatingRows(s, k);
    PlacedElsewhereWatched(s, Creating(s, k), k, s.next);
  }

  lemma JoiningWatched(s: Store, k: ObjectKey, e: nat)
    requires k in s.objects && s.objects[k].entity.None? && e in s.entities
    ensures AllWatched(s, Joining(s, k, e))
  {
    JoiningRows(s, k, e);
    PlacedElsewhereWatched(s, Joining(s, k, e), k, e);
  }

  lemma ReviewingWatched(s: Store, k: ObjectKey, rid: RecordKey, c: ObjectKey)
    requires Allocated(s) && k in s.objects && s.objects[k].entity.None?
    requires IsCurrent(s, c) && s.objects[c].entity.Some? && s.objects[c].entity.value in s.entities
    ensures AllWatched(s, Reviewing(s, k, rid, c))
  {
    ReviewingRows(s, k, rid, c);
    PlacedElsewhereWatched(s, Reviewing(s, k, rid, c), k, s.next);
  }

  lemma PlacingWatched(s: Store, k: ObjectKey, rid: RecordKey, pick: Option<ObjectKey>, t: Store)
    requires Grounded(s) && Placing(s, k, rid, pick, t)
    ensures AllWatched(s, t)
  {
    if t == Creating(s, k) {
      CreatingWatched(s, k);
    } else if t == Joining(s, k, s.objects[pick.value].entity.value) {
      JoiningWatched(s, k, s.objects[pick.value].entity.value);
    } else {
      ReviewingWatched(s, k, rid, pick.value);
    }
  }

  lemma PlacedElsewhereWatched(s: Store, t: Store, k: ObjectKey, f: nat)
    requires k in s.objects && s.objects[k].entity.None?
    requires t.objects == s.objects[k := s.objects[k].(entity := Some(f))]
    requires t.records == s.records && t.policies == s.policies && t.sources == s.sources
    requires forall e :: e in s.entities && e != f ==> e in t.entities && t.entities[e] == s.entities[e]
    requires f in s.entities ==> f in t.entities && s.entities[f].version < t.entities[f].version
    ensures AllWatched(s, t)
  {
    forall e | e in s.entities && e != f ensures forall j :: In(t, j, e) <==> In(s, j, e) {
      PlacedMembers(s, t, k, f, e);
    }
    StayingIsWatched(s, t, {f});
  }

  lemma WatchedAfterReceipt(s: Store, s1: Store, t: Store)
    requires s1.entities == s.entities && AllWatched(s1, t)
    requires forall e :: e in s.entities ==> FactsOf(s1, e) == FactsOf(s, e)
    ensures AllWatched(s, t)
  {
    forall e | e in s.entities ensures Watched(s, t, e) { assert Watched(s1, t, e); }
  }

  lemma OthersReceive(s: Store, k: ObjectKey, item: Item)
    requires Grounded(s) && k.domain in s.policies && RecordKey(k, item.version) !in s.records
    ensures forall e :: e in s.entities && (e !in Shaken(s, k) || !Accepts(s, k, item)) ==>
      FactsOf(Received(s, k, item), e) == FactsOf(s, e)
  {
    forall e | e in s.entities && (e !in Shaken(s, k) || !Accepts(s, k, item))
      ensures FactsOf(Received(s, k, item), e) == FactsOf(s, e)
    {
      ReceivedFacts(s, k, item, e);
    }
  }

  lemma PlacedFresh(s: Store, k: ObjectKey, item: Item, pick: Option<ObjectKey>, t: Store)
    requires Grounded(s) && FirstSight(s, k, item, pick, t)
    requires Placing(Received(s, k, item), k, RecordKey(k, item.version), pick, t)
    ensures AllWatched(s, t)
  {
    var s1 := Received(s, k, item);
    ReceivedGrounded(s, k, item);
    OthersReceive(s, k, item);
    PlacingWatched(s1, k, RecordKey(k, item.version), pick, t);
    WatchedAfterReceipt(s, s1, t);
  }

  lemma FirstSightWatched(s: Store, k: ObjectKey, item: Item, pick: Option<ObjectKey>, t: Store)
    requires Grounded(s) && FirstSight(s, k, item, pick, t)
    ensures AllWatched(s, t)
  {
    var s1 := Received(s, k, item);
    if Placing(s1, k, RecordKey(k, item.version), pick, t) {
      PlacedFresh(s, k, item, pick, t);
    } else if t == s1 {
      UntouchedWatched(s, k, item, pick, t);
    } else {
      OthersReceive(s, k, item);
      RefreshedWatched(s, s1, s1.objects[k].entity.value);
    }
  }

  lemma UntouchedWatched(s: Store, k: ObjectKey, item: Item, pick: Option<ObjectKey>, t: Store)
    requires Grounded(s) && FirstSight(s, k, item, pick, t) && t == Received(s, k, item)
    ensures AllWatched(s, t)
  {
    forall e | e in s.entities ensures Watched(s, t, e) {
      if e in Shaken(s, k) && Accepts(s, k, item) { assert Placed(s, k); }
      ReceivedFacts(s, k, item, e);
    }
  }

  lemma ObserveWatched(s: Store, k: ObjectKey, item: Item, pick: Option<ObjectKey>, r: Reply<Store>)
    requires Grounded(s) && ObserveOutcome(s, k, item, pick, r)
    ensures AllWatched(s, After(s, r))
  {
    if r.Commit? && RecordKey(k, item.version) !in s.records {
      FirstSightWatched(s, k, item, pick, r.db);
    } else if r.Commit? {
      forall e | e in s.entities ensures Watched(s, r.db, e) { KnownFacts(s, k, e); }
    }
  }

  // ---- decisions ----

  lemma LinkedWatched(s: Store, e: nat, target: nat)
    requires Grounded(s) && e in s.entities && target in s.entities && s.entities[e].domain == s.entities[target].domain
    ensures AllWatched(s, LinkInto(s, e, target))
  {
    LinkIntoReassigns(s, e, target);
    LinkIntoRows(s, e, target);
    StayingIsWatched(s, LinkInto(s, e, target), {e, target});
  }

  lemma MatchWatched(s: Store, e: nat, link: bool, r: Reply<Store>)
    requires Grounded(s) && MatchOutcome(s, e, link, r)
    ensures AllWatched(s, After(s, r))
  {
    if r.Commit? && link {
      var target := s.matches[e].target;
      LinkedWatched(s, e, target);
      ClosedWatched(s, LinkInto(s, e, target), r.db);
    } else {
      SameEntitiesWatched(s, After(s, r));
    }
  }

  lemma SameEntitiesWatched(s: Store, t: Store)
    requires t.objects == s.objects && t.records == s.records && t.policies == s.policies && t.sources == s.sources
    requires forall e :: e in s.entities ==> e in t.entities && s.entities[e].version <= t.entities[e].version
    ensures AllWatched(s, t)
  {
    StayingIsWatched(s, t, {});
  }

  lemma {:induction false} AbsorbedAreMerged(s: Store, primary: nat, absorbed: seq<nat>, bound: map<nat, nat>, b: nat)
    requires Absorb(s, primary, absorbed, bound).Commit?
    requires b in absorbed || (b in s.entities && s.entities[b].status == Merged)
    ensures var t := Absorb(s, primary, absorbed, bound).db; b in t.entities && t.entities[b].status == Merged
    decreases |absorbed|
  {
    if absorbed != [] {
      var s1 := SetStatus(Move(s, MembersOf(s, absorbed[0]), primary), absorbed[0], Merged);
      assert b in absorbed ==> b == absorbed[0] || b in absorbed[1..];
      AbsorbedAreMerged(s1, primary, absorbed[1..], bound, b);
    }
  }

  lemma {:induction false} AbsorbKeepsVersions(s: Store, primary: nat, absorbed: seq<nat>, bound: map<nat, nat>)
    requires Absorb(s, primary, absorbed, bound).Commit?
    ensures var t := Absorb(s, primary, absorbed, bound).db;
      forall e :: e in s.entities ==> e in t.entities && t.entities[e].version == s.entities[e].version
    decreases |absorbed|
  {
    if absorbed != [] {
      var s1 := SetStatus(Move(s, MembersOf(s, absorbed[0]), primary), absorbed[0], Merged);
      AbsorbKeepsVersions(s1, primary, absorbed[1..], bound);
    }
  }

  lemma GatheredMembers(s: Store, t: Store, primary: nat, absorbed: seq<nat>, e: nat)
    requires Gathers(s, t, primary, absorbed) && e != primary && e !in absorbed
    ensures forall k :: In(t, k, e) <==> In(s, k, e)
  {
    forall k | k in s.objects ensures In(t, k, e) <==> In(s, k, e) {
      if Swept(s, absorbed, k) {
        var i :| 0 <= i < |absorbed| && In(s, k, absorbed[i]);
        assert absorbed[i] in absorbed;
      }
    }
  }

  lemma MergeWatched(s: Store, id: nat, approve: bool, r: Reply<Store>)
    requires Grounded(s) && MergeOutcome(s, id, approve, r)
    ensures AllWatched(s, After(s, r))
  {
    if r.Commit? && approve { AppliedWatched(s, id, r.db); } else { SameEntitiesWatched(s, After(s, r)); }
  }

  lemma AppliedEntities(s: Store, t: MergeTask, u: Store)
    requires ApplyMerge(s, t) == Commit(u)
    ensures t.primary in s.entities && t.primary in u.entities
    ensures forall e :: e in s.entities ==> e in u.entities && s.entities[e].version <= u.entities[e].version
    ensures s.entities[t.primary].version < u.entities[t.primary].version
    ensures forall b :: b in t.absorbed ==> b in u.entities && u.entities[b].status == Merged
  {
    AbsorbKeepsVersions(s, t.primary, t.absorbed, t.bound);
    var x := Absorb(s, t.primary, t.absorbed, t.bound).db;
    assert u.entities == Bump(x, t.primary).entities;
    forall b | b in t.absorbed ensures b in u.entities && u.entities[b].status == Merged {
      AbsorbedAreMerged(s, t.primary, t.absorbed, t.bound, b);
    }
  }

  lemma AppliedWatched(s: Store, id: nat, u: Store)
    requires Grounded(s) && MergeOutcome(s, id, true, Commit(u))
    ensures AllWatched(s, u)
  {
    var t := s.merges[id];
    var x := ApplyMerge(s, t).db;
    ApplyMergeReassigns(s, id);
    ApplyMergeGathers(s, t);
    AppliedEntities(s, t, x);
    var but := set e | e in [t.primary] + t.absorbed;
    forall e | e in s.entities && e !in but ensures forall k :: In(x, k, e) <==> In(s, k, e) {
      assert e !in [t.primary] + t.absorbed;
      GatheredMembers(s, x, t.primary, t.absorbed, e);
    }
    StayingIsWatched(s, x, but);
    ClosedWatched(s, x, u);
  }

  lemma ClosedWatched(s: Store, x: Store, u: Store)
    requires AllWatched(s, x) && u.objects == x.objects && u.records == x.records && u.entities == x.entities
    ensures AllWatched(s, u)
  {
    forall e | e in s.entities ensures Watched(s, u, e) {
      assert Watched(s, x, e);
      assert Contributors(u, e) == Contributors(x, e);
    }
  }

  lemma SplitWatched(s: Store, id: nat, approve: bool, r: Reply<Store>)
    requires Grounded(s) && SplitOutcome(s, id, approve, r)
    ensures AllWatched(s, After(s, r))
  {
    if r.Commit? && approve {
      var e := s.splits[id].entity;
      SplitOffWatched(s, e, StillMembers(s, e, s.splits[id].objects));
      ClosedWatched(s, SplitOff(s, e, StillMembers(s, e, s.splits[id].objects)), r.db);
    } else {
      SameEntitiesWatched(s, After(s, r));
    }
  }

  lemma SplitOffWatched(s: Store, e: nat, ks: set<ObjectKey>)
    requires Grounded(s) && e in s.entities && ks <= s.objects.Keys && (forall k :: k in ks ==> In(s, k, e))
    ensures AllWatched(s, SplitOff(s, e, ks))
  {
    SplitOffReassigns(s, e, ks);
    SplitOffMembers(s, e, ks);
    SplitOffEntities(s, e, ks);
    StayingIsWatched(s, SplitOff(s, e, ks), {e});
  }

  lemma SplitOffMembers(s: Store, e: nat, ks: set<ObjectKey>)
    requires Allocated(s) && e in s.entities && ks <= s.objects.Keys && (forall k :: k in ks ==> In(s, k, e))
    ensures forall f, k :: f in s.entities && f != e ==> (In(SplitOff(s, e, ks), k, f) <==> In(s, k, f))
  {
    SplitOffSplits(s, e, ks);
  }

  lemma SplitOffEntities(s: Store, e: nat, ks: set<ObjectKey>)
    requires Allocated(s) && e in s.entities && ks <= s.objects.Keys
    ensures var t := SplitOff(s, e, ks);
      && (forall f :: f in s.entities ==> f in t.entities && s.entities[f].version <= t.entities[f].version)
      && s.entities[e].version < t.entities[e].version
  {
    assert SplitOff(s, e, ks).entities == Bump(NewEntity(s, s.entities[e].domain), e).entities;
  }

  lemma MasterWatched(s: Store, e: nat, v: nat, approve: bool, r: Reply<Store>)
    requires MasterOutcome(s, e, v, approve, r)
    ensures AllWatched(s, After(s, r))
  {
    SameEntitiesWatched(s, After(s, r));
  }

  lemma RemasterWatched(s: Store, domain: string)
    ensures AllWatched(s, Next(s, RemasterStep(domain)))
  {
    var t := Next(s, RemasterStep(domain));
    if domain in s.policies {
      forall e | e in s.entities ensures Watched(s, t, e) {
        ReindexFacts(s, domain, e);
        RefreshAllFacts(Reindex(s, domain), LiveIn(s, domain), e);
      }
    }
  }

  lemma ActivateWatched(s: Store, domain: string, rules: Rules)
    ensures AllWatched(s, Next(s, ActivateStep(domain, rules)))
  {
    ClosedWatched(s, s, Next(s, ActivateStep(domain, rules)));
  }

  lemma AdministrativeWatched(s: Store, step: Step)
    requires Administrative(step)
    ensures AllWatched(s, Next(s, step))
  {
    AdministrativeAside(s, step);
    ClosedWatched(s, s, Next(s, step));
  }

  /** Whatever a step does: no version falls, and an entity whose contributions change has a higher version afterwards,
      unless it was merged away. */
  lemma VersionsGuardContributions(s: Store, step: Step)
    requires Grounded(s)
    ensures AllWatched(s, Next(s, step))
  {
    match step
    case ObserveStep(k, item, pick) =>
      ObserveCases(s, k, item, pick);
      ObserveWatched(s, k, item, pick, Attempt(s, step));
    case MatchStep(e, link) => DecideMatchCases(s, e, link); MatchWatched(s, e, link, Attempt(s, step));
    case MasterStep(e, v, approve) =>
      DecideMasterCases(s, e, v, approve);
      MasterWatched(s, e, v, approve, Attempt(s, step));
    case MergeStep(id, approve, actor) =>
      DecideMergeCases(s, id, approve, actor);
      MergeWatched(s, id, approve, Attempt(s, step));
    case SplitStep(id, approve, actor) =>
      DecideSplitCases(s, id, approve, actor);
      SplitWatched(s, id, approve, Attempt(s, step));
    case RemasterStep(domain) => RemasterWatched(s, domain);
    case ActivateStep(domain, rules) => ActivateWatched(s, domain, rules);
    case _ => AdministrativeWatched(s, step);
  }

  /** The entity is not merged at any point of the run. */
  ghost predicate NeverMerged(s: Store, steps: seq<Step>, e: nat)
    decreases |steps|
  {
    && e in s.entities && s.entities[e].status != Merged
    && (steps == [] || NeverMerged(Next(s, steps[0]), steps[1..], e))
  }

  /** Over a run in which it is never merged an entity at the same version has the same contributions: whoever decides
      on a task bound to that version decides on the data it was opened for. */
  lemma {:induction false} SameVersionSameData(s: Store, steps: seq<Step>, e: nat)
    requires Grounded(s) && NeverMerged(s, steps, e)
    ensures e in Run(s, steps).entities && s.entities[e].version <= Run(s, steps).entities[e].version
    ensures Run(s, steps).entities[e].version == s.entities[e].version ==> FactsOf(Run(s, steps), e) == FactsOf(s, e)
    decreases |steps|
  {
    if steps != [] {
      NextGrounded(s, steps[0]);
      VersionsGuardContributions(s, steps[0]);
      assert Watched(s, Next(s, steps[0]), e);
      SameVersionSameData(Next(s, steps[0]), steps[1..], e);
    }
  }

  // ---- how far ----

  /** An update that takes effect raises the version of its entity by one and drafts it anew; the object stays there. */
  lemma UpdateBumps(s: Store, step: Step, k: ObjectKey)
    requires Grounded(s) && Reports(s, step, k) && k in s.objects && s.objects[k].entity.Some?
    ensures var t := Next(s, step);
      var e := s.objects[k].entity.value;
      && k in t.objects && t.objects[k].entity == Some(e) && e in s.entities && e in t.entities
      && if Takes(s, step, k)
         then && t.entities == s.entities[e := s.entities[e].(version := s.entities[e].version + 1)]
              && |VersionsOf(t, e)| == |VersionsOf(s, e)| + 1
              && VersionsOf(t, e)[|VersionsOf(s, e)|].review == Open
              && VersionsOf(t, e)[|VersionsOf(s, e)|].bound == s.entities[e].version + 1
         else t.entities == s.entities && t.versions == s.versions
  {
    ReportEffect(s, step, k);
    assert AtHome(s, k);
    UpdateRows(s, k, step.item, step.pick, Next(s, step));
    TakesIffAccepts(s, step, k);
    RefreshedRows(Received(s, k, step.item), s.objects[k].entity.value);
  }

  lemma RefreshedRows(s: Store, e: nat)
    requires e in s.entities
    ensures var t := Refreshed(s, e);
      && t.entities == s.entities[e := s.entities[e].(version := s.entities[e].version + 1)]
      && |VersionsOf(t, e)| == |VersionsOf(s, e)| + 1
      && VersionsOf(t, e)[|VersionsOf(s, e)|].review == Open
      && VersionsOf(t, e)[|VersionsOf(s, e)|].bound == s.entities[e].version + 1
  {
  }

  lemma TakesIffAccepts(s: Store, step: Step, k: ObjectKey)
    requires Grounded(s) && Reports(s, step, k) && k.domain in s.policies
    ensures Takes(s, step, k) <==> Accepts(s, k, step.item)
  {
    ReportEffect(s, step, k);
    assert NotOlder(s, k, step.item) <==> Supersedes(ObjectOr(s, k), step.item);
  }

  lemma UpdateRows(s: Store, k: ObjectKey, item: Item, pick: Option<ObjectKey>, t: Store)
    requires FirstSight(s, k, item, pick, t) && k in s.objects && s.objects[k].entity.Some?
    requires s.objects[k].entity.value in s.entities && Observe(s, k, item, pick) == Commit(t)
    ensures var e := s.objects[k].entity.value;
      t == if Accepts(s, k, item) then Refreshed(Received(s, k, item), e) else Received(s, k, item)
    ensures k in t.objects && t.objects[k].entity == s.objects[k].entity
  {
  }

  /** A remaster raises the version of every unmerged entity of its domain by one, opens an approval for each, and
      leaves the others alone. */
  lemma RemasterBumps(s: Store, domain: string, e: nat)
    requires domain in s.policies && e in s.entities
    ensures var t := Next(s, RemasterStep(domain));
      && e in t.entities
      && if s.entities[e].domain == domain && s.entities[e].status != Merged
         then && t.entities[e] == s.entities[e].(version := s.entities[e].version + 1)
              && |VersionsOf(t, e)| == |VersionsOf(s, e)| + 1
              && VersionsOf(t, e)[|VersionsOf(s, e)|].review == Open
              && VersionsOf(t, e)[|VersionsOf(s, e)|].bound == s.entities[e].version + 1
         else t.entities[e] == s.entities[e] && VersionsOf(t, e) == VersionsOf(s, e)
  {
  }
}
