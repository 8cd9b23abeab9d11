/** Delivery order and repetition do not matter: the projection of a source object is a function
    of the set of observations received for it. */
module Delivery {
  import opened Prelude
  import opened Survivorship
  import opened Store
  import opened Steps
  import opened Effects
  import opened Grounding

  // ---- feeds ----

  /** What a source may send for one object, and the policy in force. */
  datatype Stream = Stream(items: set<Item>, rules: Rules)

  /** Full observations with pairwise distinct sequence numbers. */
  ghost predicate Feed(feed: Stream) {
    && (forall p :: p in feed.items ==> !p.partial && p.sequence.Some?)
    && (forall p, q :: p in feed.items && q in feed.items && p.sequence == q.sequence ==> p == q)
  }

  /** Everything the run delivers for `k` is in the feed, and the policy of its domain stays. */
  ghost predicate Feeds(step: Step, k: ObjectKey, feed: Stream) {
    && (step.ObserveStep? && step.k == k ==> step.item in feed.items)
    && (step.ActivateStep? ==> step.domain != k.domain)
  }

  function Payloads(s: Store, k: ObjectKey): set<Item> {
    set r | r in s.records && r.owner == k :: s.records[r].payload
  }

  predicate Good(s: Store, k: ObjectKey, p: Item)
    requires k.domain in s.policies
  {
    !Quarantined(s.policies[k.domain], p.values, p)
  }

  /** `p` is the good observation with the highest sequence number. */
  ghost predicate IsLatest(s: Store, k: ObjectKey, p: Item)
    requires k.domain in s.policies
  {
    && p in Payloads(s, k) && Good(s, k, p) && p.sequence.Some?
    && (forall q :: q in Payloads(s, k) && Good(s, k, q) && q.sequence.Some? ==> q.sequence.value <= p.sequence.value)
  }

  /** The current projection: retired, or showing the record of an observation. */
  datatype Projection = Projection(current: Option<RecordKey>, retired: bool, sequence: Option<nat>)

  function Project(s: Store, k: ObjectKey): Projection {
    var obj := ObjectOr(s, k);
    Projection(obj.current, obj.retired, obj.sequence)
  }

  function ProjectionOf(k: ObjectKey, p: Item): Projection {
    Projection(if p.deleted then None else Some(RecordKey(k, p.version)), p.deleted, p.sequence)
  }

  // ---- the invariant ----

  /** The projection is that of the latest good observation, or of a new object when there is none. */
  ghost predicate Converged(s: Store, k: ObjectKey)
    requires k.domain in s.policies
  {
    && (forall p :: IsLatest(s, k, p) ==> Project(s, k) == ProjectionOf(k, p))
    && ((forall p :: p in Payloads(s, k) ==> !Good(s, k, p)) ==> Project(s, k) == Projection(None, false, None))
  }

  /** Records keep the observation they were made from, and full observations keep their values. */
  ghost predicate RecordsKept(s: Store, k: ObjectKey) {
    forall r :: r in s.records && r.owner == k ==>
      && s.records[r].payload.version == r.version
      && s.records[r].facts.original == s.records[r].payload.values
  }

  ghost predicate Fed(s: Store, k: ObjectKey, feed: Stream) {
    && k.domain in s.policies && s.policies[k.domain] == feed.rules && Feed(feed) && Payloads(s, k) <= feed.items
    && RecordsKept(s, k) && Converged(s, k)
  }

  // ---- one observation ----

  /** What a committed new observation does to its object and to the records. */
  lemma ObserveEffect(s: Store, k: ObjectKey, item: Item, pick: Option<ObjectKey>, t: Store)
    requires Grounded(s) && FirstSight(s, k, item, pick, t)
    ensures t.policies == s.policies && t.records == s.records[RecordKey(k, item.version) := RecordOf(s, k, item)]
    ensures k in t.objects
    ensures t.objects[k].(entity := None) ==
      Observed(ObjectOr(s, k), item, RecordKey(k, item.version),
          RecordOf(s, k, item).state == Quarantine).(entity := None)
    ensures forall j :: j != k ==> ObjectOr(t, j) == ObjectOr(s, j)
  {
    var s1 := Received(s, k, item);
    ReceivedGrounded(s, k, item);
    SettlesReassigns(s1, k, RecordKey(k, item.version), pick, t);
    SettlesOnly(s1, k, RecordKey(k, item.version), pick, t);
  }

  /** Settling one object leaves the others alone. */
  lemma SettlesOnly(s1: Store, k: ObjectKey, rid: RecordKey, pick: Option<ObjectKey>, t: Store)
    requires Settles(s1, k, rid, pick, t)
    ensures forall j :: j != k ==> ObjectOr(t, j) == ObjectOr(s1, j)
  {
    if t == s1 {
    } else if Placing(s1, k, rid, pick, t) {
      PlacingOnly(s1, k, rid, pick, t);
    } else {
      assert t.objects == s1.objects;
    }
  }

  lemma CreatingOnly(s: Store, k: ObjectKey)
    requires k in s.objects
    ensures forall j :: j != k ==> ObjectOr(Creating(s, k), j) == ObjectOr(s, j)
  {
    MoveOnly(NewEntity(s, k.domain), k, s.next);
  }

  lemma JoiningOnly(s: Store, k: ObjectKey, e: nat)
    requires k in s.objects && e in s.entities
    ensures forall j :: j != k ==> ObjectOr(Joining(s, k, e), j) == ObjectOr(s, j)
  {
    MoveOnly(Bump(s, e), k, e);
  }

  lemma ReviewingOnly(s: Store, k: ObjectKey, rid: RecordKey, c: ObjectKey)
    requires k in s.objects
    requires IsCurrent(s, c) && s.objects[c].entity.Some? && s.objects[c].entity.value in s.entities
    ensures forall j :: j != k ==> ObjectOr(Reviewing(s, k, rid, c), j) == ObjectOr(s, j)
  {
    var s1 := NewEntity(s, k.domain);
    MoveOnly(s1.(matches := s1.matches[s.next := TaskFor(s, k, rid, c)]), k, s.next);
  }

  lemma PlacingOnly(s: Store, k: ObjectKey, rid: RecordKey, pick: Option<ObjectKey>, t: Store)
    requires Placing(s, k, rid, pick, t)
    ensures forall j :: j != k ==> ObjectOr(t, j) == ObjectOr(s, j)
  {
    if t == Creating(s, k) {
      CreatingOnly(s, k);
    } else if t == Joining(s, k, s.objects[pick.value].entity.value) {
      JoiningOnly(s, k, s.objects[pick.value].entity.value);
    } else {
      ReviewingOnly(s, k, rid, pick.value);
    }
  }

  lemma MoveOnly(s: Store, k: ObjectKey, e: nat)
    requires k in s.objects
    ensures forall j :: j != k ==> ObjectOr(Move(s, {k}, e), j) == ObjectOr(s, j)
  {
  }

  lemma NewPayload(s: Store, k: ObjectKey, item: Item, t: Store)
    requires k.domain in s.policies && RecordKey(k, item.version) !in s.records
    requires t.records == s.records[RecordKey(k, item.version) := RecordOf(s, k, item)]
    ensures Payloads(t, k) == Payloads(s, k) + {item}
  {
    var rid := RecordKey(k, item.version);
    assert t.records[rid].payload == item;
    forall p | p in Payloads(s, k) ensures p in Payloads(t, k) {
      var r :| r in s.records && r.owner == k && s.records[r].payload == p;
      assert t.records[r] == s.records[r];
    }
  }

  lemma RecordsStayKept(s: Store, k: ObjectKey, item: Item, t: Store)
    requires k.domain in s.policies && RecordsKept(s, k) && !item.partial
    requires t.records == s.records[RecordKey(k, item.version) := RecordOf(s, k, item)]
    ensures RecordsKept(t, k)
  {
    var rid := RecordKey(k, item.version);
    forall r | r in t.records && r.owner == k
      ensures t.records[r].payload.version == r.version && t.records[r].facts.original == t.records[r].payload.values
    {
      if r != rid { assert t.records[r] == s.records[r]; }
    }
  }

  /** The projection moves to a good observation that supersedes the current one. */
  lemma ObserveProjects(s: Store, k: ObjectKey, item: Item, t: Store)
    requires k.domain in s.policies && k in t.objects && !item.partial
    requires t.objects[k].(entity := None) ==
      Observed(ObjectOr(s, k), item, RecordKey(k, item.version),
          RecordOf(s, k, item).state == Quarantine).(entity := None)
    ensures Project(t, k) ==
      if Good(s, k, item) && Supersedes(ObjectOr(s, k), item) then ProjectionOf(k, item) else Project(s, k)
  {
    assert (RecordOf(s, k, item).state == Quarantine) == !Good(s, k, item);
  }

  /** A new observation of the feed keeps the projection converged. */
  lemma ObserveConverges(s: Store, k: ObjectKey, item: Item, pick: Option<ObjectKey>, t: Store, feed: Stream)
    requires Grounded(s) && Fed(s, k, feed) && item in feed.items && FirstSight(s, k, item, pick, t)
    ensures Fed(t, k, feed)
  {
    ObserveEffect(s, k, item, pick, t);
    NewPayload(s, k, item, t);
    RecordsStayKept(s, k, item, t);
    assert item !in Payloads(s, k) by {
      assert forall r :: r in s.records && r.owner == k ==>
          s.records[r].payload.version == r.version && r != RecordKey(k, item.version);
    }
    ObserveProjects(s, k, item, t);
    ConvergedStep(s, t, k, item, feed);
  }

  /** The comparison with the current sequence picks the later of the two. */
  lemma ConvergedStep(s: Store, t: Store, k: ObjectKey, item: Item, feed: Stream)
    requires k.domain in s.policies && t.policies == s.policies && Converged(s, k)
    requires Feed(feed) && Payloads(s, k) <= feed.items && item in feed.items && item !in Payloads(s, k)
    requires Payloads(t, k) == Payloads(s, k) + {item}
    requires Project(t, k) == if Good(s, k, item) && Supersedes(ObjectOr(s, k), item) then ProjectionOf(k, item)
        else Project(s, k)
    ensures Converged(t, k)
  {
    if exists p :: p in Payloads(s, k) && Good(s, k, p) {
      var latest := Latest(s, k, feed);
      assert Project(s, k) == ProjectionOf(k, latest);
      forall p | IsLatest(t, k, p) ensures Project(t, k) == ProjectionOf(k, p) {
        if p == item {
          assert item.sequence.value >= latest.sequence.value;
          assert item.sequence != latest.sequence;
        } else {
          assert IsLatest(s, k, p);
        }
      }
    } else {
      forall p | IsLatest(t, k, p) ensures Project(t, k) == ProjectionOf(k, p) {
        assert p == item;
      }
    }
  }

  lemma Latest(s: Store, k: ObjectKey, feed: Stream) returns (latest: Item)
    requires k.domain in s.policies && Feed(feed) && Payloads(s, k) <= feed.items
    requires exists p :: p in Payloads(s, k) && Good(s, k, p)
    ensures IsLatest(s, k, latest)
  {
    var good := set p | p in Payloads(s, k) && Good(s, k, p);
    var p :| p in Payloads(s, k) && Good(s, k, p);
    assert p in good;
    latest := Highest(good);
  }

  lemma {:induction false} Highest(items: set<Item>) returns (latest: Item)
    requires items != {} && forall p :: p in items ==> p.sequence.Some?
    ensures latest in items && forall q :: q in items ==> q.sequence.value <= latest.sequence.value
    decreases items
  {
    latest :| latest in items;
    if items != {latest} {
      var other := Highest(items - {latest});
      if other.sequence.value > latest.sequence.value { latest := other; }
    }
  }

  // ---- other steps ----

  /** The object's projection and observations are as before. */
  ghost predicate SameFeed(s: Store, t: Store, k: ObjectKey) {
    && k.domain in t.policies && k.domain in s.policies && t.policies[k.domain] == s.policies[k.domain]
    && Project(t, k) == Project(s, k)
    && (forall r: RecordKey :: r.owner == k ==> (r in t.records <==> r in s.records))
    && (forall r: RecordKey :: r.owner == k && r in s.records ==>
          t.records[r].payload == s.records[r].payload && t.records[r].facts == s.records[r].facts)
  }

  lemma SameFed(s: Store, t: Store, k: ObjectKey, feed: Stream)
    requires Fed(s, k, feed) && SameFeed(s, t, k)
    ensures Fed(t, k, feed)
  {
    assert Payloads(t, k) == Payloads(s, k);
    forall p | IsLatest(t, k, p) ensures IsLatest(s, k, p) { }
  }

  lemma SameContentFed(s: Store, t: Store, k: ObjectKey, feed: Stream)
    requires Fed(s, k, feed) && SameContent(s, t)
    ensures Fed(t, k, feed)
  {
    assert ObjectOr(t, k).(entity := None) == ObjectOr(s, k).(entity := None);
    SameFed(s, t, k, feed);
  }

  lemma ObserveFed(s: Store, j: ObjectKey, item: Item, pick: Option<ObjectKey>, r: Reply<Store>, k: ObjectKey,
                   feed: Stream)
    requires Grounded(s) && Fed(s, k, feed) && (j == k ==> item in feed.items) && ObserveOutcome(s, j, item, pick, r)
    ensures Fed(After(s, r), k, feed)
  {
    if r.Abort? {
    } else if RecordKey(j, item.version) in s.records {
      assert ObjectOr(Known(s, j), k) == ObjectOr(s, k);
      SameFed(s, Known(s, j), k, feed);
    } else if j == k {
      ObserveConverges(s, k, item, pick, r.db, feed);
    } else {
      ObserveEffect(s, j, item, pick, r.db);
      assert ObjectOr(r.db, k) == ObjectOr(s, k);
      SameFed(s, r.db, k, feed);
    }
  }

  lemma MatchFed(s: Store, e: nat, link: bool, r: Reply<Store>, k: ObjectKey, feed: Stream)
    requires Grounded(s) && Fed(s, k, feed) && MatchOutcome(s, e, link, r)
    ensures Fed(After(s, r), k, feed)
  {
    if r.Abort? {
    } else if r.Commit? && link {
      LinkIntoReassigns(s, e, s.matches[e].target);
      assert SameContent(s, r.db);
      SameContentFed(s, r.db, k, feed);
    } else {
      SameContentFed(s, r.db, k, feed);
    }
  }

  lemma MergeFed(s: Store, id: nat, approve: bool, r: Reply<Store>, k: ObjectKey, feed: Stream)
    requires Grounded(s) && Fed(s, k, feed) && MergeOutcome(s, id, approve, r)
    ensures Fed(After(s, r), k, feed)
  {
    if r.Abort? {
    } else if r.Commit? && approve {
      ApplyMergeReassigns(s, id);
      var x := ApplyMerge(s, s.merges[id]).db;
      SameContentFed(s, x, k, feed);
      SameContentFed(x, r.db, k, feed);
    } else {
      SameContentFed(s, r.db, k, feed);
    }
  }

  lemma SplitFed(s: Store, id: nat, approve: bool, r: Reply<Store>, k: ObjectKey, feed: Stream)
    requires Grounded(s) && Fed(s, k, feed) && SplitOutcome(s, id, approve, r)
    ensures Fed(After(s, r), k, feed)
  {
    if r.Abort? {
    } else if r.Commit? && approve {
      var e := s.splits[id].entity;
      var ks := StillMembers(s, e, s.splits[id].objects);
      SplitOffReassigns(s, e, ks);
      SameContentFed(s, SplitOff(s, e, ks), k, feed);
      SameContentFed(SplitOff(s, e, ks), r.db, k, feed);
    } else {
      SameContentFed(s, r.db, k, feed);
    }
  }

  lemma MasterFed(s: Store, e: nat, v: nat, approve: bool, r: Reply<Store>, k: ObjectKey, feed: Stream)
    requires Fed(s, k, feed) && MasterOutcome(s, e, v, approve, r)
    ensures Fed(After(s, r), k, feed)
  {
    if !r.Abort? { SameContentFed(s, r.db, k, feed); }
  }

  lemma RemasterFed(s: Store, domain: string, k: ObjectKey, feed: Stream)
    requires Fed(s, k, feed)
    ensures Fed(After(s, Remaster(s, domain)), k, feed)
  {
    if domain in s.policies {
      var x := Reindex(s, domain);
      assert x.objects == s.objects;
      assert SameFeed(s, x, k);
      SameFed(s, x, k, feed);
      SameContentFed(x, RefreshAll(x, LiveIn(s, domain)), k, feed);
    }
  }

  lemma DecisionFed(s: Store, step: Step, k: ObjectKey, feed: Stream)
    requires Grounded(s) && Fed(s, k, feed)
    requires step.MatchStep? || step.MasterStep? || step.MergeStep? || step.SplitStep?
    ensures Fed(Next(s, step), k, feed)
  {
    match step
    case MatchStep(e, link) => DecideMatchCases(s, e, link); MatchFed(s, e, link, Attempt(s, step), k, feed);
    case MasterStep(e, v, approve) =>
      DecideMasterCases(s, e, v, approve);
      MasterFed(s, e, v, approve, Attempt(s, step), k, feed);
    case MergeStep(id, approve, actor) =>
      DecideMergeCases(s, id, approve, actor);
      MergeFed(s, id, approve, Attempt(s, step), k, feed);
    case SplitStep(id, approve, actor) =>
      DecideSplitCases(s, id, approve, actor);
      SplitFed(s, id, approve, Attempt(s, step), k, feed);
  }

  lemma AdministrativeFed(s: Store, step: Step, k: ObjectKey, feed: Stream)
    requires Fed(s, k, feed) && Administrative(step)
    ensures Fed(Next(s, step), k, feed)
  {
    AdministrativeAside(s, step);
    SameContentFed(s, Next(s, step), k, feed);
  }

  lemma NextFed(s: Store, step: Step, k: ObjectKey, feed: Stream)
    requires Grounded(s) && Fed(s, k, feed) && Feeds(step, k, feed)
    ensures Fed(Next(s, step), k, feed)
  {
    match step
    case ObserveStep(j, item, pick) =>
      ObserveCases(s, j, item, pick);
      ObserveFed(s, j, item, pick, Attempt(s, step), k, feed);
    case RemasterStep(domain) => RemasterFed(s, domain, k, feed);
    case ActivateStep(domain, rules) => if domain in s.policies { ActivateFed(s, domain, rules, k, feed); }
    case MatchStep(_, _) => DecisionFed(s, step, k, feed);
    case MasterStep(_, _, _) => DecisionFed(s, step, k, feed);
    case MergeStep(_, _, _) => DecisionFed(s, step, k, feed);
    case SplitStep(_, _, _) => DecisionFed(s, step, k, feed);
    case _ => AdministrativeFed(s, step, k, feed);
  }

  lemma ActivateFed(s: Store, domain: string, rules: Rules, k: ObjectKey, feed: Stream)
    requires Fed(s, k, feed) && domain != k.domain
    ensures Fed(s.(policies := s.policies[domain := rules]), k, feed)
  {
    SameFed(s, s.(policies := s.policies[domain := rules]), k, feed);
  }

  lemma {:induction false} RunFed(s: Store, steps: seq<Step>, k: ObjectKey, feed: Stream)
    requires Grounded(s) && Fed(s, k, feed)
    requires forall i :: 0 <= i < |steps| ==> Feeds(steps[i], k, feed)
    ensures Fed(Run(s, steps), k, feed)
    decreases |steps|
  {
    if steps != [] {
      NextGrounded(s, steps[0]);
      NextFed(s, steps[0], k, feed);
      RunFed(Next(s, steps[0]), steps[1..], k, feed);
    }
  }

  lemma EmptyFed(sources: map<string, int>, policies: map<string, Rules>, k: ObjectKey, feed: Stream)
    requires k.domain in policies && policies[k.domain] == feed.rules && Feed(feed)
    ensures Fed(Empty(sources, policies), k, feed)
  {
  }

  /** In any run fed from one feed, whatever the order, the repetitions, the failed attempts and the steps in
      between, the object shows the highest-sequence good observation among those received. */
  lemma ShowsTheLatest(sources: map<string, int>, policies: map<string, Rules>, steps: seq<Step>,
                       k: ObjectKey, feed: Stream, p: Item)
    requires k.domain in policies && policies[k.domain] == feed.rules && Feed(feed)
    requires forall i :: 0 <= i < |steps| ==> Feeds(steps[i], k, feed)
    requires var s := Run(Empty(sources, policies), steps); k.domain in s.policies && IsLatest(s, k, p)
    ensures var s := Run(Empty(sources, policies), steps);
      && Project(s, k) == ProjectionOf(k, p)
      && (!p.deleted ==>
          RecordKey(k, p.version) in s.records && s.records[RecordKey(k, p.version)].facts.original == p.values)
  {
    EmptyGrounded(sources, policies);
    EmptyFed(sources, policies, k, feed);
    RunFed(Empty(sources, policies), steps, k, feed);
    var s := Run(Empty(sources, policies), steps);
    var r :| r in s.records && r.owner == k && s.records[r].payload == p;
    assert r == RecordKey(k, p.version);
  }

  /** Two runs that received the same observations end in the same projection. */
  lemma OrderIsIrrelevant(sources: map<string, int>, policies: map<string, Rules>, k: ObjectKey, feed: Stream,
                          steps: seq<Step>, other: seq<Step>)
    requires k.domain in policies && policies[k.domain] == feed.rules && Feed(feed)
    requires forall i :: 0 <= i < |steps| ==> Feeds(steps[i], k, feed)
    requires forall i :: 0 <= i < |other| ==> Feeds(other[i], k, feed)
    requires Payloads(Run(Empty(sources, policies), steps), k) == Payloads(Run(Empty(sources, policies), other), k)
    ensures Project(Run(Empty(sources, policies), steps), k) == Project(Run(Empty(sources, policies), other), k)
  {
    EmptyGrounded(sources, policies);
    EmptyFed(sources, policies, k, feed);
    RunFed(Empty(sources, policies), steps, k, feed);
    RunFed(Empty(sources, policies), other, k, feed);
    SamePayloadsSameProjection(Run(Empty(sources, policies), steps), Run(Empty(sources, policies), other), k, feed);
  }

  lemma SamePayloadsSameProjection(s: Store, t: Store, k: ObjectKey, feed: Stream)
    requires Fed(s, k, feed) && Fed(t, k, feed)
    requires Payloads(s, k) == Payloads(t, k)
    ensures Project(s, k) == Project(t, k)
  {
    if exists p :: p in Payloads(s, k) && Good(s, k, p) {
      var latest := Latest(s, k, feed);
      assert IsLatest(t, k, latest);
    }
  }
}
