/** What approving a master version publishes, and how often. */
module Approvals {
  import opened Prelude
  import opened Survivorship
  import opened Store
  import opened Steps
  import opened Effects
  import opened Grounding
  import opened Drafts

  // ---- one event per approved version ----

  predicate IsApproval(event: Event, e: nat, v: nat) {
    event.MasterApproved? && event.entity == e && event.version == v
  }

  function Published(outbox: seq<Event>, e: nat, v: nat): nat {
    if outbox == [] then 0
    else Published(outbox[..|outbox| - 1], e, v) + if IsApproval(outbox[|outbox| - 1], e, v) then 1 else 0
  }

  ghost predicate ApprovedAt(s: Store, e: nat, v: nat) {
    1 <= v <= |VersionsOf(s, e)| && VersionsOf(s, e)[v - 1].approved
  }

  /** Each approved version has exactly one event, no other version has any, and events carry the version's values. */
  ghost predicate EventsMatch(s: Store) {
    && (forall e, v :: Published(s.outbox, e, v) == if ApprovedAt(s, e, v) then 1 else 0)
    && (forall i :: 0 <= i < |s.outbox| && s.outbox[i].MasterApproved? ==>
          var event := s.outbox[i];
          ApprovedAt(s, event.entity, event.version)
          && VersionsOf(s, event.entity)[event.version - 1].values == event.values)
  }

  /** Rows keep their approval and values; later rows are unapproved drafts. */
  ghost predicate Extends(rows: seq<MasterVersion>, more: seq<MasterVersion>) {
    && |rows| <= |more|
    && (forall i :: 0 <= i < |rows| ==> more[i].approved == rows[i].approved && more[i].values == rows[i].values)
    && (forall i :: |rows| <= i < |more| ==> !more[i].approved)
  }

  /** No approval happens, and at most the latest version of each entity is open for one. */
  ghost predicate Quiet(s: Store, t: Store) {
    && AllOneOpen(t)
    && (forall e :: Extends(VersionsOf(s, e), VersionsOf(t, e)))
    && (t.outbox == s.outbox
        || (exists event: Event :: !event.MasterApproved? && t.outbox == s.outbox + [event]))
  }

  lemma QuietMatches(s: Store, t: Store)
    requires EventsMatch(s) && Quiet(s, t)
    ensures AllOneOpen(t) && EventsMatch(t)
  {
    forall e, v ensures Published(t.outbox, e, v) == (if ApprovedAt(t, e, v) then 1 else 0) {
      assert Extends(VersionsOf(s, e), VersionsOf(t, e));
      if t.outbox != s.outbox { assert t.outbox[..|t.outbox| - 1] == s.outbox; }
      assert Published(s.outbox, e, v) == (if ApprovedAt(s, e, v) then 1 else 0);
    }
    forall i | 0 <= i < |t.outbox| && t.outbox[i].MasterApproved?
      ensures var event := t.outbox[i];
        ApprovedAt(t, event.entity, event.version)
        && VersionsOf(t, event.entity)[event.version - 1].values == event.values
    {
      assert t.outbox[i] == s.outbox[i];
      assert Extends(VersionsOf(s, t.outbox[i].entity), VersionsOf(t, t.outbox[i].entity));
    }
  }

  lemma DraftExtends(rows: seq<MasterVersion>, values: Values, bound: nat)
    requires OneOpen(rows)
    ensures Extends(rows, StaleOpen(rows) + [MasterVersion(false, values, Open, bound)])
    ensures OneOpen(StaleOpen(rows) + [MasterVersion(false, values, Open, bound)])
  {
    StaleOpenCloses(rows);
  }

  /** Drafting on top of a store with the same versions and outbox. */
  lemma DraftQuiet(s: Store, x: Store, e: nat)
    requires AllOneOpen(s) && x.versions == s.versions && x.outbox == s.outbox && e in x.entities
    requires s.entities.Keys <= x.entities.Keys
    ensures Quiet(s, Draft(x, e))
  {
    DraftOverQuiet(s, x, e, FreshValues(x, e));
  }

  lemma DraftOverQuiet(s: Store, x: Store, e: nat, values: Values)
    requires AllOneOpen(s) && x.versions == s.versions && x.outbox == s.outbox && e in x.entities
    requires s.entities.Keys <= x.entities.Keys
    ensures Quiet(s, WithDraft(x, e, values))
  {
    var t := WithDraft(x, e, values);
    DraftExtends(VersionsOf(s, e), values, x.entities[e].version);
    forall f ensures Extends(VersionsOf(s, f), VersionsOf(t, f)) {
      if f != e { assert VersionsOf(t, f) == VersionsOf(s, f); }
    }
  }

  lemma PlacingQuiet(s: Store, k: ObjectKey, rid: RecordKey, pick: Option<ObjectKey>, t: Store)
    requires AllOneOpen(s) && Placing(s, k, rid, pick, t)
    ensures Quiet(s, t)
  {
    if t == Creating(s, k) {
      CreatingQuiet(s, k);
    } else {
      var e := s.objects[pick.value].entity.value;
      if t == Joining(s, k, e) { JoiningQuiet(s, k, e); } else { ReviewingQuiet(s, k, rid, pick.value); }
    }
  }

  lemma CreatingQuiet(s: Store, k: ObjectKey)
    requires AllOneOpen(s) && k in s.objects
    ensures Quiet(s, Creating(s, k))
  {
    DraftQuiet(s, Move(NewEntity(s, k.domain), {k}, s.next), s.next);
  }

  lemma JoiningQuiet(s: Store, k: ObjectKey, e: nat)
    requires AllOneOpen(s) && k in s.objects && e in s.entities
    ensures Quiet(s, Joining(s, k, e))
  {
    DraftQuiet(s, Move(Bump(s, e), {k}, e), e);
  }

  lemma ReviewingQuiet(s: Store, k: ObjectKey, rid: RecordKey, c: ObjectKey)
    requires AllOneOpen(s) && k in s.objects
    requires IsCurrent(s, c) && s.objects[c].entity.Some? && s.objects[c].entity.value in s.entities
    ensures Quiet(s, Reviewing(s, k, rid, c))
  {
    var s1 := NewEntity(s, k.domain);
    var s2 := s1.(matches := s1.matches[s.next := TaskFor(s, k, rid, c)]);
    DraftQuiet(s, Move(s2, {k}, s.next), s.next);
  }

  lemma SettlesMatches(s1: Store, k: ObjectKey, rid: RecordKey, pick: Option<ObjectKey>, t: Store)
    requires AllOneOpen(s1) && EventsMatch(s1) && Settles(s1, k, rid, pick, t)
    ensures AllOneOpen(t) && EventsMatch(t)
  {
    if t == s1 {
    } else if Placing(s1, k, rid, pick, t) {
      PlacingQuiet(s1, k, rid, pick, t);
      QuietMatches(s1, t);
    } else {
      var e := s1.objects[k].entity.value;
      DraftQuiet(s1, Bump(s1, e), e);
      QuietMatches(s1, t);
    }
  }

  lemma SameLedger(s: Store, t: Store)
    requires AllOneOpen(s) && EventsMatch(s) && t.versions == s.versions && t.outbox == s.outbox
    requires s.entities.Keys <= t.entities.Keys
    ensures AllOneOpen(t) && EventsMatch(t)
  {
    assert Quiet(s, t);
    QuietMatches(s, t);
  }

  lemma ReceivedLedger(s: Store, k: ObjectKey, item: Item)
    requires AllOneOpen(s) && EventsMatch(s) && k.domain in s.policies
    ensures AllOneOpen(Received(s, k, item)) && EventsMatch(Received(s, k, item))
  {
    SameLedger(s, Received(s, k, item));
  }

  lemma ObserveMatches(s: Store, k: ObjectKey, item: Item, pick: Option<ObjectKey>, r: Reply<Store>)
    requires AllOneOpen(s) && EventsMatch(s) && ObserveOutcome(s, k, item, pick, r)
    ensures AllOneOpen(After(s, r)) && EventsMatch(After(s, r))
  {
    if r.Abort? {
    } else if RecordKey(k, item.version) in s.records {
      SameLedger(s, r.db);
    } else {
      ReceivedLedger(s, k, item);
      SettlesMatches(Received(s, k, item), k, RecordKey(k, item.version), pick, r.db);
    }
  }

  lemma MatchMatches(s: Store, e: nat, link: bool, r: Reply<Store>)
    requires AllOneOpen(s) && EventsMatch(s) && MatchOutcome(s, e, link, r)
    ensures AllOneOpen(After(s, r)) && EventsMatch(After(s, r))
  {
    if r.Abort? {
    } else if r.Commit? && link {
      var target := s.matches[e].target;
      var x := Bump(SetStatus(Move(s, MembersOf(s, e), target), e, Merged), target);
      DraftQuiet(s, x, target);
      QuietMatches(s, Draft(x, target));
      SameLedger(Draft(x, target), r.db);
    } else {
      SameLedger(s, r.db);
    }
  }

  lemma EmitMatches(s: Store, event: Event)
    requires AllOneOpen(s) && EventsMatch(s) && !event.MasterApproved?
    ensures AllOneOpen(Emit(s, event)) && EventsMatch(Emit(s, event))
  {
    assert Quiet(s, Emit(s, event));
    QuietMatches(s, Emit(s, event));
  }

  lemma MergeMatches(s: Store, id: nat, approve: bool, r: Reply<Store>)
    requires AllOneOpen(s) && EventsMatch(s) && MergeOutcome(s, id, approve, r)
    ensures AllOneOpen(After(s, r)) && EventsMatch(After(s, r))
  {
    if r.Abort? {
    } else if r.Commit? && approve {
      var t := s.merges[id];
      var x := Bump(Absorb(s, t.primary, t.absorbed, t.bound).db, t.primary);
      DraftQuiet(s, x, t.primary);
      var y := Draft(x, t.primary);
      QuietMatches(s, y);
      EmitMatches(y, IdentityMerged(t.primary, |VersionsOf(y, t.primary)|, t.absorbed));
      SameLedger(ApplyMerge(s, t).db, r.db);
    } else {
      SameLedger(s, r.db);
    }
  }

  lemma SplitMatches(s: Store, id: nat, approve: bool, r: Reply<Store>)
    requires Grounded(s) && AllOneOpen(s) && EventsMatch(s) && SplitOutcome(s, id, approve, r)
    ensures AllOneOpen(After(s, r)) && EventsMatch(After(s, r))
  {
    if r.Abort? {
    } else if r.Commit? && approve {
      var e := s.splits[id].entity;
      var ks := StillMembers(s, e, s.splits[id].objects);
      var x := Bump(Move(NewEntity(s, s.entities[e].domain), ks, s.next), e);
      SameLedger(s, x);
      DraftTwiceMatches(s, x, e, s.next);
      var y := Draft(Draft(x, e), s.next);
      EmitMatches(y, IdentitySplit(e, x.entities[e].version, s.next));
      SameLedger(SplitOff(s, e, ks), r.db);
    } else {
      SameLedger(s, r.db);
    }
  }

  lemma DraftTwiceMatches(s: Store, x: Store, e: nat, f: nat)
    requires AllOneOpen(s) && EventsMatch(x) && x.versions == s.versions && x.outbox == s.outbox
    requires e in x.entities && f in x.entities && f != e && s.entities.Keys <= x.entities.Keys
    ensures AllOneOpen(Draft(Draft(x, e), f)) && EventsMatch(Draft(Draft(x, e), f))
  {
    var y := Draft(x, e);
    var z := Draft(y, f);
    DraftExtends(VersionsOf(s, e), FreshValues(x, e), x.entities[e].version);
    DraftExtends(VersionsOf(s, f), FreshValues(y, f), y.entities[f].version);
    forall g ensures Extends(VersionsOf(x, g), VersionsOf(z, g)) { }
    QuietMatches(x, z);
  }

  lemma RefreshAllMatches(s: Store, es: set<nat>)
    requires AllOneOpen(s) && EventsMatch(s) && es <= s.entities.Keys
    ensures AllOneOpen(RefreshAll(s, es)) && EventsMatch(RefreshAll(s, es))
  {
    var t := RefreshAll(s, es);
    forall e
      ensures Extends(VersionsOf(s, e), VersionsOf(t, e))
      ensures e in t.versions ==> OneOpen(t.versions[e])
    {
      if e in es { DraftExtends(VersionsOf(s, e), FreshValues(s, e), s.entities[e].version + 1); }
    }
    QuietMatches(s, t);
  }

  lemma RemasterMatches(s: Store, domain: string)
    requires AllOneOpen(s) && EventsMatch(s)
    ensures AllOneOpen(After(s, Remaster(s, domain))) && EventsMatch(After(s, Remaster(s, domain)))
  {
    if domain in s.policies {
      var x := Reindex(s, domain);
      assert x.versions == s.versions && x.outbox == s.outbox && x.entities == s.entities;
      SameLedger(s, x);
      RefreshAllMatches(x, LiveIn(s, domain));
    }
  }

  /** Approving adds the one event of the version. */
  lemma ApproveMatches(s: Store, e: nat, v: nat)
    requires EventsMatch(s) && e in s.versions && v < |s.versions[e]| && e in s.entities && !s.versions[e][v].approved
    ensures EventsMatch(ApproveMaster(s, e, v))
  {
    var t := ApproveMaster(s, e, v);
    assert t.outbox[..|t.outbox| - 1] == s.outbox;
    forall f, w ensures Published(t.outbox, f, w) == (if ApprovedAt(t, f, w) then 1 else 0) {
      assert Published(s.outbox, f, w) == (if ApprovedAt(s, f, w) then 1 else 0);
      assert ApprovedAt(t, f, w) == (ApprovedAt(s, f, w) || (f == e && w == v + 1));
      assert !ApprovedAt(s, e, v + 1);
    }
    forall i | 0 <= i < |t.outbox| && t.outbox[i].MasterApproved?
      ensures var event := t.outbox[i];
        ApprovedAt(t, event.entity, event.version)
        && VersionsOf(t, event.entity)[event.version - 1].values == event.values
    {
      if i < |s.outbox| { assert t.outbox[i] == s.outbox[i]; }
    }
  }

  lemma ApproveOpens(s: Store, e: nat, v: nat)
    requires AllOneOpen(s) && e in s.versions && v < |s.versions[e]| && e in s.entities
    ensures AllOneOpen(ApproveMaster(s, e, v))
  {
  }

  lemma ReviewMatches(s: Store, e: nat, v: nat, status: TaskStatus)
    requires AllOneOpen(s) && EventsMatch(s) && e in s.versions && v < |s.versions[e]| && status != Open
    ensures var t := SetVersion(s, e, v, s.versions[e][v].(review := status)); AllOneOpen(t) && EventsMatch(t)
  {
    var t := SetVersion(s, e, v, s.versions[e][v].(review := status));
    forall f ensures Extends(VersionsOf(s, f), VersionsOf(t, f)) { }
    QuietMatches(s, t);
  }

  lemma MasterMatches(s: Store, e: nat, v: nat, approve: bool, r: Reply<Store>)
    requires AllOneOpen(s) && EventsMatch(s) && MasterOutcome(s, e, v, approve, r)
    ensures AllOneOpen(After(s, r)) && EventsMatch(After(s, r))
  {
    if r.Abort? {
    } else if r.CommitThenRaise? {
      ReviewMatches(s, e, v, Stale);
    } else if approve {
      ApproveMatches(s, e, v);
      ApproveOpens(s, e, v);
    } else {
      ReviewMatches(s, e, v, Rejected);
    }
  }

  lemma ActivateMatches(s: Store, domain: string, rules: Rules)
    requires AllOneOpen(s) && EventsMatch(s)
    ensures var t := Next(s, ActivateStep(domain, rules)); AllOneOpen(t) && EventsMatch(t)
  {
    if domain in s.policies { SameLedger(s, s.(policies := s.policies[domain := rules])); }
  }

  lemma AdministrativeMatches(s: Store, step: Step)
    requires Administrative(step) && AllOneOpen(s) && EventsMatch(s)
    ensures AllOneOpen(Next(s, step)) && EventsMatch(Next(s, step))
  {
    AdministrativeAside(s, step);
    SameLedger(s, Next(s, step));
  }

  lemma NextMatches(s: Store, step: Step)
    requires Grounded(s) && AllOneOpen(s) && EventsMatch(s)
    ensures AllOneOpen(Next(s, step)) && EventsMatch(Next(s, step))
  {
    match step
    case ObserveStep(k, item, pick) =>
      ObserveCases(s, k, item, pick);
      ObserveMatches(s, k, item, pick, Attempt(s, step));
    case MatchStep(e, link) => DecideMatchCases(s, e, link); MatchMatches(s, e, link, Attempt(s, step));
    case MasterStep(e, v, approve) =>
      DecideMasterCases(s, e, v, approve);
      MasterMatches(s, e, v, approve, Attempt(s, step));
    case MergeStep(id, approve, actor) =>
      DecideMergeCases(s, id, approve, actor);
      MergeMatches(s, id, approve, Attempt(s, step));
    case SplitStep(id, approve, actor) =>
      DecideSplitCases(s, id, approve, actor);
      SplitMatches(s, id, approve, Attempt(s, step));
    case RemasterStep(domain) => RemasterMatches(s, domain);
    case ActivateStep(domain, rules) => ActivateMatches(s, domain, rules);
    case _ => AdministrativeMatches(s, step);
  }

  lemma {:induction false} RunMatches(s: Store, steps: seq<Step>)
    requires Grounded(s) && AllOneOpen(s) && EventsMatch(s)
    ensures AllOneOpen(Run(s, steps)) && EventsMatch(Run(s, steps))
    decreases |steps|
  {
    if steps != [] {
      NextGrounded(s, steps[0]);
      NextMatches(s, steps[0]);
      RunMatches(Next(s, steps[0]), steps[1..]);
    }
  }

  // ---- what an approval publishes ----

  /** An accepted approval concerns the latest version and emits its values. */
  lemma ApprovesLatest(s: Store, e: nat, v: nat)
    requires AllOneOpen(s) && DecideMaster(s, e, v, true).Commit?
    ensures v + 1 == |VersionsOf(s, e)| && e in s.entities
    ensures var t := DecideMaster(s, e, v, true).db;
      t.outbox == s.outbox + [MasterApproved(e, v + 1, VersionsOf(s, e)[v].values)]
  {
    DecideMasterCases(s, e, v, true);
    assert OneOpen(s.versions[e]);
  }

  /** At every commit of a run with fixed policies and sources, an accepted approval publishes the
      current survivorship values, unless every contribution has left the entity since its last draft;
      in that one case it does so only when the draft was empty. */
  lemma PublishesCurrentValues(sources: map<string, int>, policies: map<string, Rules>, steps: seq<Step>, e: nat,
                               v: nat)
    requires forall i :: 0 <= i < |steps| ==> !steps[i].ActivateStep?
    requires var s := Run(Empty(sources, policies), steps); DecideMaster(s, e, v, true).Commit?
    ensures var s := Run(Empty(sources, policies), steps);
      var published := VersionsOf(s, e)[|VersionsOf(s, e)| - 1].values;
      && v + 1 == |VersionsOf(s, e)|
      && DecideMaster(s, e, v, true).db.outbox == s.outbox + [MasterApproved(e, v + 1, published)]
      && (published == FreshValues(s, e) <==> FactsOf(s, e) != {} || published == map[])
  {
    var s := Run(Empty(sources, policies), steps);
    EmptyGrounded(sources, policies);
    RunFresh(Empty(sources, policies), steps);
    ApprovesLatest(s, e, v);
    assert Fresh(s, e);
    if FactsOf(s, e) == {} {
      assert s.entities[e].domain in s.policies;
      NoFactsNoValues(s.policies[s.entities[e].domain].survivorship, s.sources);
    }
  }

  /** At every commit of every run an entity has at most one open approval task, on its latest version. */
  lemma AtMostOneOpenApproval(sources: map<string, int>, policies: map<string, Rules>, steps: seq<Step>,
                              e: nat, i: nat, j: nat)
    requires var rows := VersionsOf(Run(Empty(sources, policies), steps), e);
      i < |rows| && j < |rows| && rows[i].review == Open && rows[j].review == Open
    ensures i == j == |VersionsOf(Run(Empty(sources, policies), steps), e)| - 1
  {
    EmptyGrounded(sources, policies);
    RunMatches(Empty(sources, policies), steps);
    assert OneOpen(VersionsOf(Run(Empty(sources, policies), steps), e));
  }

  /** In the outbox of every run, configuration changes included, an approved version has exactly one event and any
      other version none. */
  lemma OneEventPerApproval(sources: map<string, int>, policies: map<string, Rules>, steps: seq<Step>, e: nat, v: nat)
    ensures var s := Run(Empty(sources, policies), steps);
      Published(s.outbox, e, v) == if ApprovedAt(s, e, v) then 1 else 0
  {
    EmptyGrounded(sources, policies);
    RunMatches(Empty(sources, policies), steps);
  }

  /** The exception is real. A link empties the match's entity without a new draft or a version bump,
      so the approval task opened before the link is still accepted: it publishes the values of
      contributions the entity no longer has, and turns the merged entity back to approved. */
  lemma LinkLeavesStaleApproval(s: Store, e: nat, v: nat)
    requires Grounded(s) && AllOneOpen(s) && LinkGuards(s, e) && s.matches[e].target != e
    requires e in s.versions && v < |s.versions[e]| && s.versions[e][v].review == Open
    requires s.versions[e][v].bound == s.entities[e].version && s.versions[e][v].values != map[]
    ensures var linked := Linking(s, e); var r := DecideMaster(linked, e, v, true);
      && linked.entities[e].status == Merged && FreshValues(linked, e) == map[]
      && r == Commit(ApproveMaster(linked, e, v))
      && r.db.outbox == linked.outbox + [MasterApproved(e, v + 1, s.versions[e][v].values)]
      && r.db.entities[e].status == Approved
  {
    var linked := Linking(s, e);
    var target := s.matches[e].target;
    assert OneOpen(s.versions[e]);
    assert linked.versions[e] == s.versions[e];
    assert linked.entities[e] == s.entities[e].(status := Merged);
    assert linked.policies == s.policies && linked.sources == s.sources;
    forall k ensures k !in Contributors(linked, e) { assert !In(linked, k, e); }
    assert Contributors(linked, e) == {};
    assert FactsOf(linked, e) == {};
    NoFactsNoValues(s.policies[s.entities[e].domain].survivorship, s.sources);
  }
}
