/** With fixed policies and sources, drafts never lag behind the data: the latest version of every entity with a
    contribution holds the current survivorship values. What approving it publishes is in module Approvals. */
module Drafts {
  import opened Prelude
  import opened Survivorship
  import opened Store
  import opened Steps
  import opened Effects
  import opened Grounding

  // ---- the invariant ----

  /** The latest draft equals a fresh survivorship computation. */
  ghost predicate Fresh(s: Store, e: nat) {
    FactsOf(s, e) != {} ==>
      VersionsOf(s, e) != [] && VersionsOf(s, e)[|VersionsOf(s, e)| - 1].values == FreshValues(s, e)
  }

  ghost predicate FreshBut(s: Store, but: set<nat>) {
    forall e :: e !in but ==> Fresh(s, e)
  }

  /** Only the latest version can have an open approval task, and an approved version has none. */
  ghost predicate OneOpen(rows: seq<MasterVersion>) {
    && (forall i :: 0 <= i < |rows| - 1 ==> rows[i].review != Open)
    && (forall i :: 0 <= i < |rows| && rows[i].approved ==> rows[i].review != Open)
  }

  ghost predicate AllOneOpen(s: Store) {
    && s.versions.Keys <= s.entities.Keys
    && (forall e :: e in s.versions ==> OneOpen(s.versions[e]))
  }

  // ---- drafting ----

  lemma {:induction false} StaleOpenCloses(rows: seq<MasterVersion>)
    requires OneOpen(rows)
    ensures forall i :: 0 <= i < |rows| ==> StaleOpen(rows)[i].review != Open
    ensures forall i :: 0 <= i < |rows| ==> StaleOpen(rows)[i].approved == rows[i].approved
    ensures forall i :: 0 <= i < |rows| ==> StaleOpen(rows)[i].values == rows[i].values
  {
    if rows != [] && rows[0].review != Open {
      assert forall i :: 0 <= i < |rows| - 1 ==> rows[1..][i] == rows[i + 1];
      StaleOpenCloses(rows[1..]);
    }
  }

  lemma DraftedOneOpen(rows: seq<MasterVersion>, values: Values, bound: nat)
    requires OneOpen(rows)
    ensures OneOpen(StaleOpen(rows) + [MasterVersion(false, values, Open, bound)])
  {
    StaleOpenCloses(rows);
  }

  lemma FactsByMembers(s: Store, t: Store, e: nat)
    requires SameContent(s, t)
    requires forall k :: In(t, k, e) <==> In(s, k, e)
    ensures FactsOf(t, e) == FactsOf(s, e)
  {
    assert forall k :: IsCurrent(t, k) <==> IsCurrent(s, k);
    assert Contributors(t, e) == Contributors(s, e);
    assert forall k :: k in Contributors(s, e) ==> CurrentRecord(t, k) == CurrentRecord(s, k);
  }

  ghost predicate SameLatest(rows: seq<MasterVersion>, more: seq<MasterVersion>) {
    |more| == |rows| && (rows != [] ==> more[|rows| - 1].values == rows[|rows| - 1].values)
  }

  lemma RewrittenLatest(rows: seq<MasterVersion>, v: nat, row: MasterVersion)
    requires v < |rows| && row.values == rows[v].values
    ensures SameLatest(rows, rows[v := row])
  {
  }

  lemma SameLatestFresh(s: Store, t: Store, f: nat)
    requires Fresh(s, f) && FactsOf(t, f) == FactsOf(s, f) && FreshValues(t, f) == FreshValues(s, f)
    requires SameLatest(VersionsOf(s, f), VersionsOf(t, f))
    ensures Fresh(t, f)
  {
  }

  /** Drafting touches versions only. */
  lemma DraftKeepsFacts(s: Store, e: nat, values: Values, f: nat)
    requires e in s.entities
    ensures FactsOf(WithDraft(s, e, values), f) == FactsOf(s, f)
    ensures FreshValues(WithDraft(s, e, values), f) == FreshValues(s, f)
  {
    FactsByMembers(s, WithDraft(s, e, values), f);
  }

  lemma DraftFreshAt(s: Store, e: nat, f: nat)
    requires e in s.entities && (f != e ==> Fresh(s, f))
    ensures Fresh(Draft(s, e), f)
  {
    DraftKeepsFacts(s, e, FreshValues(s, e), f);
    if f != e { SameLatestFresh(s, Draft(s, e), f); }
  }

  lemma DraftFreshens(s: Store, e: nat, but: set<nat>)
    requires e in s.entities && FreshBut(s, but) && AllOneOpen(s)
    ensures FreshBut(Draft(s, e), but - {e}) && AllOneOpen(Draft(s, e))
  {
    DraftedOneOpen(VersionsOf(s, e), FreshValues(s, e), s.entities[e].version);
    forall f | f !in but - {e} ensures Fresh(Draft(s, e), f) { DraftFreshAt(s, e, f); }
  }

  // ---- changes of membership ----

  /** Entities outside `but` keep their members, domains and versions. */
  ghost predicate MovesWithin(s: Store, t: Store, but: set<nat>) {
    && SameContent(s, t) && t.versions == s.versions && s.entities.Keys <= t.entities.Keys
    && (forall e :: e in s.entities ==> t.entities[e].domain == s.entities[e].domain)
    && (forall e, k :: e !in but ==> (In(t, k, e) <==> In(s, k, e)))
  }

  lemma MovesFresh(s: Store, t: Store, but: set<nat>, stale: set<nat>)
    requires Grounded(s) && FreshBut(s, stale) && AllOneOpen(s) && MovesWithin(s, t, but)
    ensures FreshBut(t, stale + but) && AllOneOpen(t)
  {
    forall e | e !in stale + but ensures Fresh(t, e) {
      assert Fresh(s, e);
      FactsByMembers(s, t, e);
      if FactsOf(s, e) != {} { MemberEntity(s, e); }
    }
  }

  lemma MemberEntity(s: Store, e: nat)
    requires Grounded(s) && FactsOf(s, e) != {}
    ensures e in s.entities
  {
    var f :| f in FactsOf(s, e);
    var k :| k in Contributors(s, e) && CurrentRecord(s, k).facts == f;
    assert Placed(s, k);
  }

  lemma NobodyFresh(s: Store, e: nat, but: set<nat>)
    requires FreshBut(s, but + {e}) && (forall k :: !In(s, k, e))
    ensures FreshBut(s, but)
  {
    assert Contributors(s, e) == {};
    assert FactsOf(s, e) == {};
    forall f | f !in but ensures Fresh(s, f) { if f != e { assert f !in but + {e}; } }
  }

  // ---- transactions ----

  lemma RefreshedFresh(s: Store, e: nat, but: set<nat>)
    requires Grounded(s) && e in s.entities && FreshBut(s, but) && AllOneOpen(s)
    ensures FreshBut(Refreshed(s, e), but - {e}) && AllOneOpen(Refreshed(s, e))
  {
    MovesFresh(s, Bump(s, e), {}, but);
    assert but + {} == but;
    DraftFreshens(Bump(s, e), e, but);
  }

  lemma PlacingMoves(x: Store, k: ObjectKey, e: nat)
    requires k in x.objects && x.objects[k].entity.None?
    ensures MovesWithin(x, Move(x, {k}, e), {e})
  {
    var t := Move(x, {k}, e);
    assert SameContent(x, t);
    assert forall f, j :: f != e ==> (In(t, j, f) <==> In(x, j, f));
  }

  lemma MovesWithinTrans(s: Store, t: Store, u: Store, but: set<nat>)
    requires MovesWithin(s, t, but) && MovesWithin(t, u, but)
    ensures MovesWithin(s, u, but)
  {
  }

  lemma BumpedMoves(s: Store, k: ObjectKey, e: nat)
    requires k in s.objects && s.objects[k].entity.None? && e in s.entities
    ensures MovesWithin(s, Move(Bump(s, e), {k}, e), {e})
  {
    var x := Bump(s, e);
    assert MovesWithin(s, x, {e});
    PlacingMoves(x, k, e);
    MovesWithinTrans(s, x, Move(x, {k}, e), {e});
  }

  lemma JoiningFresh(s: Store, k: ObjectKey, e: nat)
    requires Grounded(s) && k in s.objects && s.objects[k].entity.None? && e in s.entities
    requires FreshBut(s, {}) && AllOneOpen(s)
    ensures FreshBut(Joining(s, k, e), {}) && AllOneOpen(Joining(s, k, e))
  {
    var t := Move(Bump(s, e), {k}, e);
    BumpedMoves(s, k, e);
    MovesFresh(s, t, {e}, {});
    DraftFreshens(t, e, {e});
    assert {e} - {e} == {} && {} + {e} == {e};
  }

  /** A new entity that takes in one unplaced object; `matches` is free. */
  lemma OpeningFresh(s: Store, k: ObjectKey, matches: map<nat, MatchTask>)
    requires Grounded(s) && k in s.objects && s.objects[k].entity.None?
    requires FreshBut(s, {}) && AllOneOpen(s)
    ensures var t := Draft(Move(NewEntity(s, k.domain).(matches := matches), {k}, s.next), s.next);
      FreshBut(t, {}) && AllOneOpen(t)
  {
    var e := s.next;
    var t := Move(NewEntity(s, k.domain).(matches := matches), {k}, e);
    OpenedFresh(s, k, matches);
    DraftFreshens(t, e, {e});
    assert {e} - {e} == {};
  }

  lemma OpeningMoves(s: Store, k: ObjectKey, matches: map<nat, MatchTask>)
    requires Allocated(s) && k in s.objects && s.objects[k].entity.None?
    ensures MovesWithin(s, Move(NewEntity(s, k.domain).(matches := matches), {k}, s.next), {s.next})
  {
    var x := NewEntity(s, k.domain).(matches := matches);
    assert MovesWithin(s, x, {s.next});
    PlacingMoves(x, k, s.next);
    MovesWithinTrans(s, x, Move(x, {k}, s.next), {s.next});
  }

  lemma OpenedFresh(s: Store, k: ObjectKey, matches: map<nat, MatchTask>)
    requires Grounded(s) && k in s.objects && s.objects[k].entity.None?
    requires FreshBut(s, {}) && AllOneOpen(s)
    ensures var t := Move(NewEntity(s, k.domain).(matches := matches), {k}, s.next);
      FreshBut(t, {s.next}) && AllOneOpen(t)
  {
    OpeningMoves(s, k, matches);
    MovesFresh(s, Move(NewEntity(s, k.domain).(matches := matches), {k}, s.next), {s.next}, {});
    assert {} + {s.next} == {s.next};
  }

  lemma PlacingFresh(s: Store, k: ObjectKey, rid: RecordKey, pick: Option<ObjectKey>, t: Store)
    requires Grounded(s) && FreshBut(s, {}) && AllOneOpen(s) && Placing(s, k, rid, pick, t)
    ensures FreshBut(t, {}) && AllOneOpen(t)
  {
    if t == Creating(s, k) {
      OpeningFresh(s, k, s.matches);
      assert NewEntity(s, k.domain).(matches := s.matches) == NewEntity(s, k.domain);
    } else {
      var e := s.objects[pick.value].entity.value;
      if t == Joining(s, k, e) {
        JoiningFresh(s, k, e);
      } else {
        OpeningFresh(s, k, s.matches[s.next := TaskFor(s, k, rid, pick.value)]);
      }
    }
  }

  // ---- observation ----

  /** The entity a new observation may make stale until it is drafted again. */
  function Shaken(s: Store, k: ObjectKey): set<nat> {
    if ObjectOr(s, k).entity.Some? then {ObjectOr(s, k).entity.value} else {}
  }

  lemma ReceivedFacts(s: Store, k: ObjectKey, item: Item, e: nat)
    requires Grounded(s) && k.domain in s.policies && RecordKey(k, item.version) !in s.records
    requires e in Shaken(s, k) ==> !Accepts(s, k, item)
    ensures FactsOf(Received(s, k, item), e) == FactsOf(s, e)
  {
    var t := Received(s, k, item);
    forall j
      ensures j in Contributors(t, e) <==> j in Contributors(s, e)
      ensures j in Contributors(s, e) ==> CurrentRecord(t, j) == CurrentRecord(s, j)
    {
      ReceivedContributor(s, k, item, e, j);
    }
    assert Contributors(t, e) == Contributors(s, e);
  }

  lemma ReceivedContributor(s: Store, k: ObjectKey, item: Item, e: nat, j: ObjectKey)
    requires Grounded(s) && k.domain in s.policies && RecordKey(k, item.version) !in s.records
    requires e in Shaken(s, k) ==> !Accepts(s, k, item)
    ensures var t := Received(s, k, item);
      && (j in Contributors(t, e) <==> j in Contributors(s, e))
      && (j in Contributors(s, e) ==> CurrentRecord(t, j) == CurrentRecord(s, j))
  {
    var t := Received(s, k, item);
    if j != k {
      assert j in t.objects <==> j in s.objects;
    } else if In(s, k, e) {
      assert t.objects[k].current == s.objects[k].current && t.objects[k].retired == s.objects[k].retired;
    }
  }

  lemma ReceivedFresh(s: Store, k: ObjectKey, item: Item)
    requires Grounded(s) && k.domain in s.policies && RecordKey(k, item.version) !in s.records
    requires FreshBut(s, {}) && AllOneOpen(s)
    ensures AllOneOpen(Received(s, k, item))
    ensures FreshBut(Received(s, k, item), if Accepts(s, k, item) then Shaken(s, k) else {})
  {
    var but := if Accepts(s, k, item) then Shaken(s, k) else {};
    forall e | e !in but ensures Fresh(Received(s, k, item), e) {
      assert Fresh(s, e);
      ReceivedFacts(s, k, item, e);
      ReceivedFreshAt(s, k, item, e);
    }
  }

  lemma ReceivedFreshAt(s: Store, k: ObjectKey, item: Item, e: nat)
    requires k.domain in s.policies && Fresh(s, e) && FactsOf(Received(s, k, item), e) == FactsOf(s, e)
    ensures Fresh(Received(s, k, item), e)
  {
    SameFactsFresh(s, Received(s, k, item), e);
  }

  /** Drafts stay fresh while contributions, sources, policies and entities stay. */
  lemma SameFactsFresh(s: Store, t: Store, e: nat)
    requires t.sources == s.sources && t.policies == s.policies && t.entities == s.entities && t.versions == s.versions
    requires FactsOf(t, e) == FactsOf(s, e) && Fresh(s, e)
    ensures Fresh(t, e)
  {
    assert FreshValues(t, e) == FreshValues(s, e);
  }

  lemma ObserveFresh(s: Store, k: ObjectKey, item: Item, pick: Option<ObjectKey>, r: Reply<Store>)
    requires Grounded(s) && FreshBut(s, {}) && AllOneOpen(s) && ObserveOutcome(s, k, item, pick, r)
    ensures FreshBut(After(s, r), {}) && AllOneOpen(After(s, r))
  {
    if r.Abort? {
    } else if RecordKey(k, item.version) in s.records {
      KnownFresh(s, k);
    } else {
      ReceivedGrounded(s, k, item);
      ReceivedFresh(s, k, item);
      FirstSightFresh(s, k, item, pick, r.db);
    }
  }

  lemma KnownFresh(s: Store, k: ObjectKey)
    requires Grounded(s) && FreshBut(s, {}) && AllOneOpen(s)
    ensures FreshBut(Known(s, k), {}) && AllOneOpen(Known(s, k))
  {
    var t := Known(s, k);
    forall e ensures Fresh(t, e) {
      KnownFacts(s, k, e);
      SameFactsFresh(s, t, e);
    }
  }

  lemma KnownFacts(s: Store, k: ObjectKey, e: nat)
    ensures FactsOf(Known(s, k), e) == FactsOf(s, e)
  {
    var t := Known(s, k);
    assert Contributors(t, e) == Contributors(s, e);
    assert forall j :: j in Contributors(s, e) ==> CurrentRecord(t, j) == CurrentRecord(s, j);
  }

  lemma FirstSightFresh(s: Store, k: ObjectKey, item: Item, pick: Option<ObjectKey>, t: Store)
    requires Grounded(s) && FirstSight(s, k, item, pick, t)
    requires Grounded(Received(s, k, item)) && AllOneOpen(Received(s, k, item))
    requires FreshBut(Received(s, k, item), if Accepts(s, k, item) then Shaken(s, k) else {})
    ensures FreshBut(t, {}) && AllOneOpen(t)
  {
    var s1 := Received(s, k, item);
    var rid := RecordKey(k, item.version);
    assert s1.objects[k].entity == ObjectOr(s, k).entity;
    if t == s1 {
      if ObjectOr(s, k).entity.Some? && Accepts(s, k, item) {
        assert false;
      }
    } else if Placing(s1, k, rid, pick, t) {
      PlacingFresh(s1, k, rid, pick, t);
    } else {
      var e := s1.objects[k].entity.value;
      var but := if Accepts(s, k, item) then Shaken(s, k) else {};
      RefreshedFresh(s1, e, but);
      assert but - {e} == {};
    }
  }

  // ---- decisions ----

  /** Steps after which memberships, content and drafts are as before. */
  lemma SameFresh(s: Store, t: Store)
    requires Grounded(s) && FreshBut(s, {}) && AllOneOpen(s)
    requires SameContent(s, t) && t.versions == s.versions && t.entities.Keys == s.entities.Keys
    requires forall e :: e in s.entities ==> t.entities[e].domain == s.entities[e].domain
    requires forall k :: k in s.objects ==> t.objects[k].entity == s.objects[k].entity
    ensures FreshBut(t, {}) && AllOneOpen(t)
  {
    var none: set<nat> := {};
    MovesFresh(s, t, none, none);
    assert none + none == none;
  }

  lemma EmptiedMoves(s: Store, e: nat, to: nat)
    requires e in s.entities && to in s.entities
    ensures MovesWithin(s, SetStatus(Move(s, MembersOf(s, e), to), e, Merged), {e, to})
  {
  }

  /** All members of `e` move to `to`, and `e` is marked merged. */
  lemma EmptiedFresh(s: Store, e: nat, to: nat, but: set<nat>)
    requires Grounded(s) && e in s.entities && to in s.entities && FreshBut(s, but) && AllOneOpen(s)
    ensures var t := SetStatus(Move(s, MembersOf(s, e), to), e, Merged); FreshBut(t, but + {to}) && AllOneOpen(t)
  {
    var t := SetStatus(Move(s, MembersOf(s, e), to), e, Merged);
    EmptiedMoves(s, e, to);
    MovesFresh(s, t, {e, to}, but);
    assert but + {e, to} == (but + {to}) + {e};
    if e != to {
      NobodyFresh(t, e, but + {to});
    } else {
      assert but + {to} == but + {e, to};
    }
  }

  lemma LinkingFresh(s: Store, e: nat)
    requires Grounded(s) && FreshBut(s, {}) && AllOneOpen(s) && LinkGuards(s, e)
    ensures FreshBut(Linking(s, e), {}) && AllOneOpen(Linking(s, e))
  {
    var target := s.matches[e].target;
    var t := SetStatus(Move(s, MembersOf(s, e), target), e, Merged);
    EmptiedFresh(s, e, target, {});
    EmptiedGrounded(s, e, target);
    assert {} + {target} == {target};
    RefreshedFresh(t, target, {target});
    assert {target} - {target} == {};
    assert LinkInto(s, e, target) == Refreshed(t, target);
    LinkIntoReassigns(s, e, target);
    SameFresh(LinkInto(s, e, target), Linking(s, e));
  }

  lemma EmptiedGrounded(s: Store, e: nat, to: nat)
    requires Grounded(s) && e in s.entities && to in s.entities && s.entities[e].domain == s.entities[to].domain
    ensures Grounded(SetStatus(Move(s, MembersOf(s, e), to), e, Merged))
  {
    var s1 := Move(s, MembersOf(s, e), to);
    MembersDomain(s, e);
    MoveReassigns(s, MembersOf(s, e), to);
    ReassignsGrounded(s, s1);
    StatusReassigns(s1, e, Merged);
    ReassignsGrounded(s1, SetStatus(s1, e, Merged));
  }

  lemma MatchFresh(s: Store, e: nat, link: bool, r: Reply<Store>)
    requires Grounded(s) && FreshBut(s, {}) && AllOneOpen(s) && MatchOutcome(s, e, link, r)
    ensures FreshBut(After(s, r), {}) && AllOneOpen(After(s, r))
  {
    if r.Abort? {
    } else if r.CommitThenRaise? {
      SameFresh(s, r.db);
    } else if link {
      LinkingFresh(s, e);
    } else {
      SameFresh(s, r.db);
    }
  }

  lemma {:induction false} AbsorbFresh(s: Store, primary: nat, absorbed: seq<nat>, bound: map<nat, nat>)
    requires Grounded(s) && primary in s.entities && Absorb(s, primary, absorbed, bound).Commit?
    requires forall b :: b in absorbed && b in s.entities ==> s.entities[b].domain == s.entities[primary].domain
    requires FreshBut(s, {primary}) && AllOneOpen(s)
    ensures FreshBut(Absorb(s, primary, absorbed, bound).db, {primary})
    ensures AllOneOpen(Absorb(s, primary, absorbed, bound).db)
    decreases |absorbed|
  {
    if absorbed != [] {
      var b := absorbed[0];
      EmptiedFresh(s, b, primary, {primary});
      assert {primary} + {primary} == {primary};
      EmptiedGrounded(s, b, primary);
      AbsorbFresh(SetStatus(Move(s, MembersOf(s, b), primary), b, Merged), primary, absorbed[1..], bound);
    }
  }

  lemma ApplyMergeFresh(s: Store, id: nat)
    requires Grounded(s) && id in s.merges && ApplyMerge(s, s.merges[id]).Commit?
    requires FreshBut(s, {}) && AllOneOpen(s)
    ensures FreshBut(ApplyMerge(s, s.merges[id]).db, {}) && AllOneOpen(ApplyMerge(s, s.merges[id]).db)
  {
    var t := s.merges[id];
    forall b | b in t.absorbed && b in s.entities ensures s.entities[b].domain == s.entities[t.primary].domain {
      assert b in [t.primary] + t.absorbed;
    }
    AbsorbFresh(s, t.primary, t.absorbed, t.bound);
    AbsorbReassigns(s, t.primary, t.absorbed, t.bound);
    var s1 := Absorb(s, t.primary, t.absorbed, t.bound).db;
    ReassignsGrounded(s, s1);
    RefreshedFresh(s1, t.primary, {t.primary});
    assert {t.primary} - {t.primary} == {};
    RefreshedReassigns(s1, t.primary);
    SameFresh(Refreshed(s1, t.primary), ApplyMerge(s, t).db);
  }

  lemma MergeFresh(s: Store, id: nat, approve: bool, r: Reply<Store>)
    requires Grounded(s) && FreshBut(s, {}) && AllOneOpen(s) && MergeOutcome(s, id, approve, r)
    ensures FreshBut(After(s, r), {}) && AllOneOpen(After(s, r))
  {
    if r.Abort? {
    } else if r.CommitThenRaise? {
      SameFresh(s, r.db);
    } else if approve {
      ApplyMergeFresh(s, id);
      ApplyMergeReassigns(s, id);
      SameFresh(ApplyMerge(s, s.merges[id]).db, r.db);
    } else {
      SameFresh(s, r.db);
    }
  }

  lemma SplitMoveFresh(s: Store, e: nat, ks: set<ObjectKey>)
    requires Grounded(s) && e in s.entities && ks <= s.objects.Keys && (forall k :: k in ks ==> In(s, k, e))
    requires FreshBut(s, {}) && AllOneOpen(s)
    ensures var t := Move(NewEntity(s, s.entities[e].domain), ks, s.next);
      Grounded(t) && FreshBut(t, {} + {e, s.next}) && AllOneOpen(t)
  {
    var t := Move(NewEntity(s, s.entities[e].domain), ks, s.next);
    SplitMoveReassigns(s, e, ks);
    assert MovesWithin(s, t, {e, s.next});
    MovesFresh(s, t, {e, s.next}, {});
  }

  lemma SplitOffFresh(s: Store, e: nat, ks: set<ObjectKey>)
    requires Grounded(s) && e in s.entities && ks <= s.objects.Keys && (forall k :: k in ks ==> In(s, k, e))
    requires FreshBut(s, {}) && AllOneOpen(s)
    ensures FreshBut(SplitOff(s, e, ks), {}) && AllOneOpen(SplitOff(s, e, ks))
  {
    var n := s.next;
    var s2 := Move(NewEntity(s, s.entities[e].domain), ks, n);
    SplitMoveFresh(s, e, ks);
    RefreshedFresh(s2, e, {} + {e, n});
    RefreshedReassigns(s2, e);
    var s3 := Refreshed(s2, e);
    DraftFreshens(s3, n, {} + {e, n} - {e});
    assert {} + {e, n} - {e} - {n} == {};
    DraftReassigns(s3, n, FreshValues(s3, n));
    ReassignsGrounded(s3, Draft(s3, n));
    SameFresh(Draft(s3, n), SplitOff(s, e, ks));
  }

  lemma SplittingFresh(s: Store, id: nat)
    requires Grounded(s) && id in s.splits && s.splits[id].entity in s.entities
    requires FreshBut(s, {}) && AllOneOpen(s)
    ensures FreshBut(Splitting(s, id), {}) && AllOneOpen(Splitting(s, id))
  {
    var e := s.splits[id].entity;
    var ks := StillMembers(s, e, s.splits[id].objects);
    SplitOffFresh(s, e, ks);
    SplitOffReassigns(s, e, ks);
    SameFresh(SplitOff(s, e, ks), Splitting(s, id));
  }

  lemma SplitFresh(s: Store, id: nat, approve: bool, r: Reply<Store>)
    requires Grounded(s) && FreshBut(s, {}) && AllOneOpen(s) && SplitOutcome(s, id, approve, r)
    ensures FreshBut(After(s, r), {}) && AllOneOpen(After(s, r))
  {
    if r.Abort? {
    } else if r.CommitThenRaise? {
      SameFresh(s, r.db);
    } else if approve {
      SplittingFresh(s, id);
    } else {
      SameFresh(s, r.db);
    }
  }

  /** A decision rewrites one row but not its values. */
  lemma RowFresh(s: Store, t: Store, e: nat, v: nat, row: MasterVersion)
    requires Grounded(s) && FreshBut(s, {}) && AllOneOpen(s)
    requires e in s.versions && v < |s.versions[e]| && row.values == s.versions[e][v].values
    requires row.review != Open
    requires SameContent(s, t) && t.versions == s.versions[e := s.versions[e][v := row]]
    requires t.entities.Keys == s.entities.Keys && t.objects == s.objects
    requires forall f :: f in s.entities ==> t.entities[f].domain == s.entities[f].domain
    ensures FreshBut(t, {}) && AllOneOpen(t)
  {
    RowOneOpen(s.versions[e], v, row);
    forall f ensures Fresh(t, f) {
      ValuesStay(s, t, f);
      RowFreshAt(s, t, e, v, row, f);
    }
  }

  lemma RowOneOpen(rows: seq<MasterVersion>, v: nat, row: MasterVersion)
    requires OneOpen(rows) && v < |rows| && row.review != Open
    ensures OneOpen(rows[v := row])
  {
  }

  lemma RowFreshAt(s: Store, t: Store, e: nat, v: nat, row: MasterVersion, f: nat)
    requires Fresh(s, f) && FactsOf(t, f) == FactsOf(s, f) && FreshValues(t, f) == FreshValues(s, f)
    requires e in s.versions && v < |s.versions[e]| && row.values == s.versions[e][v].values
    requires t.versions == s.versions[e := s.versions[e][v := row]]
    ensures Fresh(t, f)
  {
    RowLatest(s, t, e, v, row, f);
    SameLatestFresh(s, t, f);
  }

  lemma RowLatest(s: Store, t: Store, e: nat, v: nat, row: MasterVersion, f: nat)
    requires e in s.versions && v < |s.versions[e]| && row.values == s.versions[e][v].values
    requires t.versions == s.versions[e := s.versions[e][v := row]]
    ensures SameLatest(VersionsOf(s, f), VersionsOf(t, f))
  {
    RewrittenLatest(s.versions[e], v, row);
    if f != e { assert VersionsOf(t, f) == VersionsOf(s, f); }
  }

  /** The survivorship values depend on the members and their records only. */
  lemma ValuesStay(s: Store, t: Store, e: nat)
    requires SameContent(s, t) && (forall k :: In(t, k, e) <==> In(s, k, e))
    requires t.entities.Keys == s.entities.Keys
    requires e in s.entities ==> t.entities[e].domain == s.entities[e].domain
    ensures FactsOf(t, e) == FactsOf(s, e) && FreshValues(t, e) == FreshValues(s, e)
  {
    FactsByMembers(s, t, e);
  }

  lemma MasterFresh(s: Store, e: nat, v: nat, approve: bool, r: Reply<Store>)
    requires Grounded(s) && FreshBut(s, {}) && AllOneOpen(s) && MasterOutcome(s, e, v, approve, r)
    ensures FreshBut(After(s, r), {}) && AllOneOpen(After(s, r))
  {
    if r.Abort? {
    } else if r.CommitThenRaise? {
      RowFresh(s, r.db, e, v, s.versions[e][v].(review := Stale));
    } else if approve {
      RowFresh(s, r.db, e, v, s.versions[e][v].(review := Accepted, approved := true));
    } else {
      RowFresh(s, r.db, e, v, s.versions[e][v].(review := Rejected));
    }
  }

  // ---- remaster ----

  lemma ReindexFacts(s: Store, domain: string, e: nat)
    requires domain in s.policies
    ensures FactsOf(Reindex(s, domain), e) == FactsOf(s, e)
  {
    var t := Reindex(s, domain);
    assert forall k :: IsCurrent(t, k) <==> IsCurrent(s, k);
    assert Contributors(t, e) == Contributors(s, e);
    assert forall k :: k in Contributors(s, e) ==> CurrentRecord(t, k).facts == CurrentRecord(s, k).facts;
  }

  lemma ReindexFresh(s: Store, domain: string)
    requires domain in s.policies && FreshBut(s, {}) && AllOneOpen(s)
    ensures FreshBut(Reindex(s, domain), {}) && AllOneOpen(Reindex(s, domain))
  {
    var t := Reindex(s, domain);
    forall e ensures Fresh(t, e) {
      ReindexFacts(s, domain, e);
      SameFactsFresh(s, t, e);
    }
  }

  lemma RefreshAllFacts(s: Store, es: set<nat>, e: nat)
    requires es <= s.entities.Keys
    ensures FactsOf(RefreshAll(s, es), e) == FactsOf(s, e)
    ensures FreshValues(RefreshAll(s, es), e) == FreshValues(s, e)
  {
    var t := RefreshAll(s, es);
    assert SameContent(s, t) && t.entities.Keys == s.entities.Keys && t.objects == s.objects;
    ValuesStay(s, t, e);
  }

  lemma RefreshAllFresh(s: Store, es: set<nat>)
    requires es <= s.entities.Keys && FreshBut(s, {}) && AllOneOpen(s)
    ensures FreshBut(RefreshAll(s, es), {}) && AllOneOpen(RefreshAll(s, es))
  {
    var t := RefreshAll(s, es);
    forall e ensures Fresh(t, e) {
      RefreshAllFacts(s, es, e);
      assert Fresh(s, e);
    }
    forall e | e in t.versions ensures OneOpen(t.versions[e]) {
      if e in es { DraftedOneOpen(VersionsOf(s, e), FreshValues(s, e), s.entities[e].version + 1); }
    }
  }

  // ---- runs ----

  lemma NextFresh(s: Store, step: Step)
    requires Grounded(s) && FreshBut(s, {}) && AllOneOpen(s) && !step.ActivateStep?
    ensures FreshBut(Next(s, step), {}) && AllOneOpen(Next(s, step))
  {
    match step
    case ObserveStep(k, item, pick) => ObserveCases(s, k, item, pick); ObserveFresh(s, k, item, pick, Attempt(s, step));
    case MatchStep(e, link) => DecideMatchCases(s, e, link); MatchFresh(s, e, link, Attempt(s, step));
    case MasterStep(e, v, approve) =>
      DecideMasterCases(s, e, v, approve);
      MasterFresh(s, e, v, approve, Attempt(s, step));
    case MergeStep(id, approve, actor) =>
      DecideMergeCases(s, id, approve, actor);
      MergeFresh(s, id, approve, Attempt(s, step));
    case SplitStep(id, approve, actor) =>
      DecideSplitCases(s, id, approve, actor);
      SplitFresh(s, id, approve, Attempt(s, step));
    case RemasterStep(domain) =>
      if domain in s.policies {
        ReindexFresh(s, domain);
        RefreshAllFresh(Reindex(s, domain), LiveIn(s, domain));
      }
    case _ => AdministrativeAside(s, step); SameFresh(s, Next(s, step));
  }

  lemma {:induction false} RunFresh(s: Store, steps: seq<Step>)
    requires Grounded(s) && FreshBut(s, {}) && AllOneOpen(s)
    requires forall i :: 0 <= i < |steps| ==> !steps[i].ActivateStep?
    ensures Grounded(Run(s, steps)) && FreshBut(Run(s, steps), {}) && AllOneOpen(Run(s, steps))
    decreases |steps|
  {
    if steps != [] {
      NextGrounded(s, steps[0]);
      NextFresh(s, steps[0]);
      RunFresh(Next(s, steps[0]), steps[1..]);
    }
  }

  lemma EmptyFresh(sources: map<string, int>, policies: map<string, Rules>)
    ensures FreshBut(Empty(sources, policies), {}) && AllOneOpen(Empty(sources, policies))
  {
    forall e ensures Fresh(Empty(sources, policies), e) {
      assert Contributors(Empty(sources, policies), e) == {};
    }
  }

  /** From an empty store, in every run without activations: the latest version of an entity with a contribution holds
      the survivorship values of the present contributions, and only that version can be open for approval. */
  lemma DraftsNeverLag(sources: map<string, int>, policies: map<string, Rules>, steps: seq<Step>, e: nat)
    requires forall i :: 0 <= i < |steps| ==> !steps[i].ActivateStep?
    ensures var s := Run(Empty(sources, policies), steps);
      FactsOf(s, e) != {} ==>
        && e in s.entities && s.entities[e].domain in s.policies && VersionsOf(s, e) != []
        && VersionsOf(s, e)[|VersionsOf(s, e)| - 1].values ==
             MasterValues(s.policies[s.entities[e].domain].survivorship, s.sources, FactsOf(s, e))
        && forall v :: 0 <= v < |VersionsOf(s, e)| - 1 ==> VersionsOf(s, e)[v].review != Open
  {
    EmptyGrounded(sources, policies);
    EmptyFresh(sources, policies);
    RunFresh(Empty(sources, policies), steps);
    var s := Run(Empty(sources, policies), steps);
    assert Fresh(s, e);
    if FactsOf(s, e) != {} { MemberEntity(s, e); }
  }

  /** Whatever was activated before, a remaster brings every unmerged entity of its domain up to date. */
  lemma RemasterFreshens(s: Store, domain: string, e: nat)
    requires domain in s.policies && e in LiveIn(s, domain)
    ensures Fresh(Next(s, RemasterStep(domain)), e)
  {
    var x := Reindex(s, domain);
    RefreshAllFacts(x, LiveIn(s, domain), e);
    OneRefreshed(x, LiveIn(s, domain), e);
  }

  lemma OneRefreshed(s: Store, es: set<nat>, e: nat)
    requires e in es && es <= s.entities.Keys
    requires FreshValues(RefreshAll(s, es), e) == FreshValues(s, e)
    ensures Fresh(RefreshAll(s, es), e)
  {
  }
}
