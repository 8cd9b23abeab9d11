/** A webhook event delivered again after a crash between its two commits changes nothing. */
module Redelivery {
  import opened Prelude
  import opened Store
  import opened Steps
  import opened Effects
  import opened Grounding

  /** Observations are never removed or rewritten, tables never lose a key, and a new record's object exists. */
  ghost predicate KeepsRows(s: Store, t: Store) {
    && t.policies.Keys == s.policies.Keys && s.objects.Keys <= t.objects.Keys
    && (forall r :: r in s.records ==>
          r in t.records && t.records[r].payload == s.records[r].payload && t.records[r].facts == s.records[r].facts)
    && (forall r :: r in t.records ==> r in s.records || r.owner in t.objects)
  }

  ghost predicate Keeps(s: Store, t: Store) {
    t.sources == s.sources && KeepsRows(s, t)
  }

  lemma SameContentKeepsRecords(s: Store, t: Store)
    requires SameContent(s, t)
    ensures Keeps(s, t)
  {
  }

  lemma KeepsRowsTrans(s: Store, t: Store, u: Store)
    requires KeepsRows(s, t) && KeepsRows(t, u)
    ensures KeepsRows(s, u)
  {
    forall r | r in s.records
      ensures r in u.records && u.records[r].payload == s.records[r].payload && u.records[r].facts == s.records[r].facts
    {
      assert r in t.records;
    }
  }

  lemma KeepsTrans(s: Store, t: Store, u: Store)
    requires Keeps(s, t) && Keeps(t, u)
    ensures Keeps(s, u)
  {
    KeepsRowsTrans(s, t, u);
  }

  lemma ReceivedKeepsRecords(s: Store, k: ObjectKey, item: Item)
    requires k.domain in s.policies && RecordKey(k, item.version) !in s.records
    ensures Keeps(s, Received(s, k, item))
  {
    var t := Received(s, k, item);
    assert t.records == s.records[RecordKey(k, item.version) := RecordOf(s, k, item)];
  }

  lemma ObserveKeepsRecords(s: Store, k: ObjectKey, item: Item, pick: Option<ObjectKey>, r: Reply<Store>)
    requires Grounded(s) && ObserveOutcome(s, k, item, pick, r)
    ensures Keeps(s, After(s, r))
  {
    if r.Abort? {
    } else if RecordKey(k, item.version) in s.records {
      assert Keeps(s, Known(s, k));
    } else {
      var s1 := Received(s, k, item);
      ReceivedGrounded(s, k, item);
      ReceivedKeepsRecords(s, k, item);
      SettlesReassigns(s1, k, RecordKey(k, item.version), pick, r.db);
      SameContentKeepsRecords(s1, r.db);
      KeepsTrans(s, s1, r.db);
    }
  }

  lemma MatchKeepsRecords(s: Store, e: nat, link: bool, r: Reply<Store>)
    requires Grounded(s) && MatchOutcome(s, e, link, r)
    ensures Keeps(s, After(s, r))
  {
    if r.Commit? && link {
      LinkIntoReassigns(s, e, s.matches[e].target);
      assert SameContent(s, r.db);
    }
  }

  lemma MergeKeepsRecords(s: Store, id: nat, approve: bool, r: Reply<Store>)
    requires Grounded(s) && MergeOutcome(s, id, approve, r)
    ensures Keeps(s, After(s, r))
  {
    if r.Commit? && approve {
      ApplyMergeReassigns(s, id);
      assert SameContent(s, ApplyMerge(s, s.merges[id]).db);
    }
  }

  lemma SplitKeepsRecords(s: Store, id: nat, approve: bool, r: Reply<Store>)
    requires Grounded(s) && SplitOutcome(s, id, approve, r)
    ensures Keeps(s, After(s, r))
  {
    if r.Commit? && approve {
      var e := s.splits[id].entity;
      SplitOffReassigns(s, e, StillMembers(s, e, s.splits[id].objects));
      assert SameContent(s, SplitOff(s, e, StillMembers(s, e, s.splits[id].objects)));
    }
  }

  lemma RemasterKeepsRecords(s: Store, domain: string)
    ensures Keeps(s, After(s, Remaster(s, domain)))
  {
    if domain in s.policies { assert Keeps(s, Reindex(s, domain)); }
  }

  lemma MasterKeepsRecords(s: Store, e: nat, v: nat, approve: bool, r: Reply<Store>)
    requires MasterOutcome(s, e, v, approve, r)
    ensures Keeps(s, After(s, r))
  {
    if !r.Abort? { assert SameContent(s, r.db); }
  }

  lemma ActivateKeepsRecords(s: Store, domain: string, rules: Rules)
    ensures Keeps(s, Next(s, ActivateStep(domain, rules)))
  {
    if domain in s.policies { assert Keeps(s, s.(policies := s.policies[domain := rules])); }
  }

  lemma NextKeepsRecords(s: Store, step: Step)
    requires Grounded(s)
    ensures Keeps(s, Next(s, step))
  {
    match step
    case ObserveStep(k, item, pick) =>
      ObserveCases(s, k, item, pick);
      ObserveKeepsRecords(s, k, item, pick, Attempt(s, step));
    case MatchStep(e, link) => DecideMatchCases(s, e, link); MatchKeepsRecords(s, e, link, Attempt(s, step));
    case MasterStep(e, v, approve) =>
      DecideMasterCases(s, e, v, approve);
      MasterKeepsRecords(s, e, v, approve, Attempt(s, step));
    case MergeStep(id, approve, actor) =>
      DecideMergeCases(s, id, approve, actor);
      MergeKeepsRecords(s, id, approve, Attempt(s, step));
    case SplitStep(id, approve, actor) =>
      DecideSplitCases(s, id, approve, actor);
      SplitKeepsRecords(s, id, approve, Attempt(s, step));
    case RemasterStep(domain) => RemasterKeepsRecords(s, domain);
    case ActivateStep(domain, rules) => ActivateKeepsRecords(s, domain, rules);
    case _ => AdministrativeAside(s, step); assert Keeps(s, Next(s, step));
  }

  lemma {:induction false} RunKeepsRecords(s: Store, steps: seq<Step>)
    requires Grounded(s)
    ensures Keeps(s, Run(s, steps))
    decreases |steps|
  {
    if steps != [] {
      NextGrounded(s, steps[0]);
      NextKeepsRecords(s, steps[0]);
      RunKeepsRecords(Next(s, steps[0]), steps[1..]);
    }
  }

  /** A committed observation is on record. */
  lemma CommittedIsRecorded(s: Store, k: ObjectKey, item: Item, pick: Option<ObjectKey>)
    requires Grounded(s) && Observe(s, k, item, pick).Commit?
    ensures var t := Observe(s, k, item, pick).db;
      && k in t.objects && k.source in t.sources && k.domain in t.policies
      && RecordKey(k, item.version) in t.records && t.records[RecordKey(k, item.version)].payload == item
  {
    ObserveCases(s, k, item, pick);
    RecordedBy(s, k, item, pick, Observe(s, k, item, pick).db);
  }

  lemma RecordedBy(s: Store, k: ObjectKey, item: Item, pick: Option<ObjectKey>, t: Store)
    requires Grounded(s) && Observe(s, k, item, pick) == Commit(t) && ObserveOutcome(s, k, item, pick, Commit(t))
    ensures k in t.objects && k.source in t.sources && k.domain in t.policies
    ensures RecordKey(k, item.version) in t.records && t.records[RecordKey(k, item.version)].payload == item
  {
    if RecordKey(k, item.version) !in s.records {
      ReceivedGrounded(s, k, item);
      SettlesReassigns(Received(s, k, item), k, RecordKey(k, item.version), pick, t);
    }
  }

  /** An observation on record is answered without a change. */
  lemma RecordedIsIdle(u: Store, k: ObjectKey, item: Item, again: Option<ObjectKey>)
    requires k in u.objects && k.source in u.sources && k.domain in u.policies
    requires RecordKey(k, item.version) in u.records && u.records[RecordKey(k, item.version)].payload == item
    ensures Observe(u, k, item, again) == Commit(u)
  {
    assert u.objects[k := ObjectOr(u, k)] == u.objects;
  }

  lemma NextOfObserve(s: Store, k: ObjectKey, item: Item, pick: Option<ObjectKey>)
    requires Grounded(s) && Observe(s, k, item, pick).Commit?
    ensures Grounded(Observe(s, k, item, pick).db)
  {
    NextGrounded(s, ObserveStep(k, item, pick));
  }

  /** Whatever happens after an observation has committed, delivering it again commits and changes nothing at all. */
  lemma RedeliveryIsIdle(s: Store, k: ObjectKey, item: Item, pick: Option<ObjectKey>, between: seq<Step>,
                         again: Option<ObjectKey>)
    requires Grounded(s) && Observe(s, k, item, pick).Commit?
    ensures var u := Run(Observe(s, k, item, pick).db, between);
      Observe(u, k, item, again) == Commit(u)
  {
    var t := Observe(s, k, item, pick).db;
    NextOfObserve(s, k, item, pick);
    CommittedIsRecorded(s, k, item, pick);
    RunKeepsRecords(t, between);
    RecordedIsIdle(Run(t, between), k, item, again);
  }

  // ---- the webhook handler ----

  /** The store and the idempotency rows: event id to request. */
  datatype Hook = Hook(db: Store, answered: map<string, (ObjectKey, Item)>)

  /** One call of the handler. `crash` ends it between the ingestion commit and the idempotency commit. */
  ghost function Call(h: Hook, id: string, k: ObjectKey, item: Item, pick: Option<ObjectKey>, crash: bool): Reply<Hook>
  {
    if id in h.answered then
      if h.answered[id] != (k, item) then Abort("webhook_event_id_conflict") else Commit(h)
    else
      var r := Observe(h.db, k, item, pick);
      if !r.Commit? then Abort("ingestion_failed")
      else if crash then CommitThenRaise(h.(db := r.db), "crash")
      else Commit(Hook(r.db, h.answered[id := (k, item)]))
  }

  /** Retrying an event until it is answered applies it once: the call after a crash only adds the
      idempotency row, and every later call changes nothing. */
  lemma RetryAfterCrash(h: Hook, id: string, k: ObjectKey, item: Item, pick: Option<ObjectKey>,
                        between: seq<Step>, again: Option<ObjectKey>, later: Option<ObjectKey>)
    requires Grounded(h.db) && id !in h.answered && Call(h, id, k, item, pick, true).CommitThenRaise?
    ensures var crashed := Call(h, id, k, item, pick, true).db;
      var u := crashed.(db := Run(crashed.db, between));
      && Call(u, id, k, item, again, false) == Commit(Hook(u.db, h.answered[id := (k, item)]))
      && Call(Hook(u.db, h.answered[id := (k, item)]), id, k, item, later, false)
           == Commit(Hook(u.db, h.answered[id := (k, item)]))
  {
    RedeliveryIsIdle(h.db, k, item, pick, between, again);
  }
}
