/** Membership history: in every run each placed object has exactly one open row, which names
    its entity, and its closed rows form a chain in time that ends at the open one. */
module History {
  import opened Prelude
  import opened Store
  import opened Steps
  import opened Effects
  import opened Grounding

  /** Rows `i` and `i + 1` follow each other without overlap and name different entities. */
  ghost predicate Follows(a: Tenure, b: Tenure) {
    a.until.Some? && a.from <= a.until.value <= b.from && a.entity != b.entity
  }

  ghost predicate Chain(rows: seq<Tenure>, entity: Option<nat>, now: int) {
    && (entity.None? ==> rows == [])
    && (entity.Some? ==>
          && rows != []
          && rows[|rows| - 1] == Tenure(entity.value, rows[|rows| - 1].from, None)
          && rows[|rows| - 1].from <= now)
    && (forall i :: 0 <= i < |rows| - 1 ==> Follows(rows[i], rows[i + 1]))
  }

  ghost predicate Tenured(s: Store) {
    forall k :: Chain(HistoryOf(s, k), ObjectOr(s, k).entity, s.clock)
  }

  lemma EnterChain(rows: seq<Tenure>, entity: Option<nat>, e: nat, earlier: int, now: int)
    requires Chain(rows, entity, earlier) && entity != Some(e) && earlier <= now
    ensures Chain(Enter(rows, e, now), Some(e), now)
  {
    if rows != [] {
      var n := |rows| - 1;
      assert CloseOpen(rows, now) == rows[..n] + [rows[n].(until := Some(now))];
      var more := Enter(rows, e, now);
      forall i | 0 <= i < |more| - 1 ensures Follows(more[i], more[i + 1]) {
        if i < n - 1 {
          assert Follows(rows[i], rows[i + 1]);
        } else if i == n - 1 {
          assert Follows(rows[n - 1], rows[n]);
        }
      }
    }
  }

  lemma MoveTenured(s: Store, ks: set<ObjectKey>, e: nat)
    requires Tenured(s) && ks <= s.objects.Keys
    ensures Tenured(Move(s, ks, e))
  {
    var t := Move(s, ks, e);
    forall k ensures Chain(HistoryOf(t, k), ObjectOr(t, k).entity, t.clock) {
      assert Chain(HistoryOf(s, k), ObjectOr(s, k).entity, s.clock);
      if k in ks && s.objects[k].entity != Some(e) {
        EnterChain(HistoryOf(s, k), s.objects[k].entity, e, s.clock, s.clock);
      }
    }
  }

  /** Memberships and rows stay; time may pass. */
  ghost predicate SameTenures(s: Store, t: Store) {
    && t.history == s.history && s.clock <= t.clock
    && (forall k :: ObjectOr(t, k).entity == ObjectOr(s, k).entity)
  }

  lemma SameTenured(s: Store, t: Store)
    requires Tenured(s) && SameTenures(s, t)
    ensures Tenured(t)
  {
    forall k ensures Chain(HistoryOf(t, k), ObjectOr(t, k).entity, t.clock) {
      assert Chain(HistoryOf(s, k), ObjectOr(s, k).entity, s.clock);
    }
  }

  /** Stores that differ in neither objects nor rows. */
  lemma EqualTenured(s: Store, t: Store)
    requires Tenured(s) && t.history == s.history && s.clock <= t.clock && t.objects == s.objects
    ensures Tenured(t)
  {
    SameTenured(s, t);
  }

  lemma PlacingTenured(s: Store, k: ObjectKey, rid: RecordKey, pick: Option<ObjectKey>, t: Store)
    requires Tenured(s) && Placing(s, k, rid, pick, t)
    ensures Tenured(t)
  {
    if t == Creating(s, k) {
      MovedTenured(s, NewEntity(s, k.domain), k, s.next, t);
    } else {
      var e := s.objects[pick.value].entity.value;
      if t == Joining(s, k, e) {
        MovedTenured(s, Bump(s, e), k, e, t);
      } else {
        var s1 := NewEntity(s, k.domain);
        var s2 := s1.(matches := s1.matches[s.next := TaskFor(s, k, rid, pick.value)]);
        MovedTenured(s, s2, k, s.next, t);
      }
    }
  }

  lemma MovedTenured(s: Store, x: Store, k: ObjectKey, e: nat, t: Store)
    requires Tenured(s) && x.objects == s.objects && x.history == s.history && x.clock == s.clock
    requires k in x.objects && e in x.entities
    requires t == Draft(Move(x, {k}, e), e)
    ensures Tenured(t)
  {
    EqualTenured(s, x);
    MoveTenured(x, {k}, e);
    EqualTenured(Move(x, {k}, e), t);
  }

  lemma SettlesTenured(s1: Store, k: ObjectKey, rid: RecordKey, pick: Option<ObjectKey>, t: Store)
    requires Tenured(s1) && Settles(s1, k, rid, pick, t)
    ensures Tenured(t)
  {
    if t == s1 {
    } else if Placing(s1, k, rid, pick, t) {
      PlacingTenured(s1, k, rid, pick, t);
    } else {
      EqualTenured(s1, t);
    }
  }

  lemma ReceivedTenured(s: Store, k: ObjectKey, item: Item)
    requires Tenured(s) && k.domain in s.policies
    ensures Tenured(Received(s, k, item))
  {
    SameTenured(s, Received(s, k, item));
  }

  lemma ObserveTenured(s: Store, k: ObjectKey, item: Item, pick: Option<ObjectKey>, r: Reply<Store>)
    requires Tenured(s) && ObserveOutcome(s, k, item, pick, r)
    ensures Tenured(After(s, r))
  {
    if r.Abort? {
    } else if RecordKey(k, item.version) in s.records {
      SameTenured(s, Known(s, k));
    } else {
      ReceivedTenured(s, k, item);
      SettlesTenured(Received(s, k, item), k, RecordKey(k, item.version), pick, r.db);
    }
  }

  lemma MatchTenured(s: Store, e: nat, link: bool, r: Reply<Store>)
    requires Tenured(s) && MatchOutcome(s, e, link, r)
    ensures Tenured(After(s, r))
  {
    if r.Abort? {
    } else if r.Commit? && link {
      var moved := Move(s, MembersOf(s, e), s.matches[e].target);
      MoveTenured(s, MembersOf(s, e), s.matches[e].target);
      EqualTenured(moved, r.db);
    } else {
      EqualTenured(s, r.db);
    }
  }

  lemma {:induction false} AbsorbTenured(s: Store, primary: nat, absorbed: seq<nat>, bound: map<nat, nat>)
    requires Tenured(s) && Absorb(s, primary, absorbed, bound).Commit?
    ensures Tenured(Absorb(s, primary, absorbed, bound).db)
    decreases |absorbed|
  {
    if absorbed != [] {
      var b := absorbed[0];
      var moved := Move(s, MembersOf(s, b), primary);
      MoveTenured(s, MembersOf(s, b), primary);
      EqualTenured(moved, SetStatus(moved, b, Merged));
      AbsorbTenured(SetStatus(moved, b, Merged), primary, absorbed[1..], bound);
    }
  }

  lemma MergeTenured(s: Store, id: nat, approve: bool, r: Reply<Store>)
    requires Tenured(s) && MergeOutcome(s, id, approve, r)
    ensures Tenured(After(s, r))
  {
    if r.Abort? {
    } else if r.Commit? && approve {
      var t := s.merges[id];
      AbsorbTenured(s, t.primary, t.absorbed, t.bound);
      EqualTenured(Absorb(s, t.primary, t.absorbed, t.bound).db, r.db);
    } else {
      EqualTenured(s, r.db);
    }
  }

  lemma SplitTenured(s: Store, id: nat, approve: bool, r: Reply<Store>)
    requires Tenured(s) && SplitOutcome(s, id, approve, r)
    ensures Tenured(After(s, r))
  {
    if r.Abort? {
    } else if r.Commit? && approve {
      var e := s.splits[id].entity;
      var ks := StillMembers(s, e, s.splits[id].objects);
      var x := NewEntity(s, s.entities[e].domain);
      EqualTenured(s, x);
      MoveTenured(x, ks, s.next);
      EqualTenured(Move(x, ks, s.next), r.db);
    } else {
      EqualTenured(s, r.db);
    }
  }

  lemma MasterTenured(s: Store, e: nat, v: nat, approve: bool, r: Reply<Store>)
    requires Tenured(s) && MasterOutcome(s, e, v, approve, r)
    ensures Tenured(After(s, r))
  {
    if !r.Abort? { EqualTenured(s, r.db); }
  }

  lemma RemasterTenured(s: Store, domain: string)
    requires Tenured(s)
    ensures Tenured(After(s, Remaster(s, domain)))
  {
    if domain in s.policies {
      var t := Remaster(s, domain).db;
      assert t.objects == s.objects && t.history == s.history && t.clock == s.clock;
      EqualTenured(s, t);
    }
  }

  lemma NextTenured(s: Store, step: Step)
    requires Tenured(s)
    ensures Tenured(Next(s, step))
  {
    match step
    case ObserveStep(k, item, pick) =>
      ObserveCases(s, k, item, pick);
      ObserveTenured(s, k, item, pick, Attempt(s, step));
    case MatchStep(e, link) => DecideMatchCases(s, e, link); MatchTenured(s, e, link, Attempt(s, step));
    case MasterStep(e, v, approve) =>
      DecideMasterCases(s, e, v, approve);
      MasterTenured(s, e, v, approve, Attempt(s, step));
    case MergeStep(id, approve, actor) =>
      DecideMergeCases(s, id, approve, actor);
      MergeTenured(s, id, approve, Attempt(s, step));
    case SplitStep(id, approve, actor) =>
      DecideSplitCases(s, id, approve, actor);
      SplitTenured(s, id, approve, Attempt(s, step));
    case RemasterStep(domain) => RemasterTenured(s, domain);
    case ActivateStep(_, _) => EqualTenured(s, Next(s, step));
    case Tick(_) => EqualTenured(s, Next(s, step));
    case ProposeMergeStep(ids, actor) => ProposeMergeAside(s, ids, actor); EqualTenured(s, Next(s, step));
    case ProposeSplitStep(e, rids, order, actor) =>
      ProposeSplitAside(s, e, rids, order, actor);
      EqualTenured(s, Next(s, step));
  }

  lemma {:induction false} RunTenured(s: Store, steps: seq<Step>)
    requires Tenured(s)
    ensures Tenured(Run(s, steps))
    decreases |steps|
  {
    if steps != [] {
      NextTenured(s, steps[0]);
      RunTenured(Next(s, steps[0]), steps[1..]);
    }
  }

  /** Over all runs from an empty store. */
  lemma HistoryIsAChain(sources: map<string, int>, policies: map<string, Rules>, steps: seq<Step>, k: ObjectKey)
    ensures var s := Run(Empty(sources, policies), steps);
      Chain(HistoryOf(s, k), ObjectOr(s, k).entity, s.clock)
  {
    RunTenured(Empty(sources, policies), steps);
  }

  /** Read as counts: one open row for a placed object, none for an unplaced one. */
  lemma OneOpenRow(sources: map<string, int>, policies: map<string, Rules>, steps: seq<Step>, k: ObjectKey, i: nat)
    requires i < |HistoryOf(Run(Empty(sources, policies), steps), k)|
    ensures var s := Run(Empty(sources, policies), steps);
      var rows := HistoryOf(s, k);
      && Placed(s, k)
      && (rows[i].until.None? <==> i == |rows| - 1)
      && (rows[i].until.None? ==> Some(rows[i].entity) == s.objects[k].entity)
  {
    HistoryIsAChain(sources, policies, steps, k);
    var rows := HistoryOf(Run(Empty(sources, policies), steps), k);
    if i < |rows| - 1 { assert Follows(rows[i], rows[i + 1]); }
  }
}
