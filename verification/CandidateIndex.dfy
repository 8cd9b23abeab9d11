/** The candidate index: what the index query returns is what a full scan would, and the
    outcome of resolution does not depend on the order of its rows. */
module CandidateIndex {
  import opened Prelude
  import opened Survivorship
  import opened Store
  import opened Steps
  import opened Effects
  import opened Grounding

  // ---- the invariant, per domain ----

  function KeysOf(s: Store, k: ObjectKey): seq<string>
    requires IsCurrent(s, k) && k.domain in s.policies
  {
    s.policies[k.domain].keys(CurrentRecord(s, k).normalized)
  }

  /** The index rows of the object's current record are its keys under the active policy. */
  ghost predicate RowsExact(s: Store, k: ObjectKey)
    requires IsCurrent(s, k) && k.domain in s.policies
  {
    forall key :: Block(s.objects[k].current.value, key) in s.blocks <==> key in KeysOf(s, k)
  }

  ghost predicate Indexed(s: Store, domain: string) {
    && domain in s.policies
    && (forall k :: IsCurrent(s, k) && k.domain == domain ==> RowsExact(s, k))
  }

  /** Index rows name records that exist. */
  ghost predicate BlocksOwned(s: Store) {
    forall b :: b in s.blocks ==> b.record in s.records
  }

  // ---- completeness of the query ----

  /** All placed current records of the domain, other than the new one, that share a key with it. */
  ghost function FullScan(s: Store, k: ObjectKey, keys: seq<string>): set<ObjectKey>
    requires k.domain in s.policies
  {
    set c | c in s.objects && IsCurrent(s, c) && s.objects[c].entity.Some? && c.domain == k.domain && c != k
      && (exists key :: key in keys && key in KeysOf(s, c))
  }

  /** With an exact index the query misses nothing and adds nothing. */
  lemma QueryIsFullScan(s: Store, k: ObjectKey, rid: RecordKey)
    requires Grounded(s) && JustReceived(s, k, rid) && Indexed(s, k.domain)
    ensures var keys := s.policies[k.domain].keys(s.records[rid].normalized);
      Candidates(s, rid, keys) == FullScan(s, k, keys)
  {
    var keys := s.policies[k.domain].keys(s.records[rid].normalized);
    forall c | c in Candidates(s, rid, keys) ensures c in FullScan(s, k, keys) {
      var row :| row in CandidateRows(s, rid, keys) && row.0 == c;
      var b :| b in s.blocks && Joined(s, rid, keys, c, b);
      assert RowsExact(s, c);
      assert Block(s.objects[c].current.value, b.key) in s.blocks;
    }
    forall c | c in FullScan(s, k, keys) ensures c in Candidates(s, rid, keys) {
      var key :| key in keys && key in KeysOf(s, c);
      assert RowsExact(s, c);
      var b := Block(s.objects[c].current.value, key);
      assert b in s.blocks && Joined(s, rid, keys, c, b);
      assert (c, key) in CandidateRows(s, rid, keys);
    }
  }

  /** Resolution decides on the full scan, or aborts: it never works on a truncated list. */
  lemma NeverTruncated(s: Store, k: ObjectKey, rid: RecordKey, pick: Option<ObjectKey>)
    requires Grounded(s) && JustReceived(s, k, rid) && Indexed(s, k.domain)
    ensures var keys := s.policies[k.domain].keys(s.records[rid].normalized);
      var r := Resolved(s, k, rid, pick);
      && (r.Commit? ==> IsBest(s, s.policies[k.domain], k, s.records[rid].normalized, FullScan(s, k, keys), pick))
      && (|CandidateRows(s, rid, keys)| > CANDIDATE_LIMIT ==> r == Abort("candidate_block_overflow"))
  {
    QueryIsFullScan(s, k, rid);
  }

  // ---- order independence ----

  /** Among verdicts on the same record, an automatic link always scores above a review. */
  ghost predicate ScoresDecide(rules: Rules) {
    forall x, y, z :: rules.compare(x, y).decision == AutoLink && rules.compare(x, z).decision == Review ==>
      rules.compare(x, z).score < rules.compare(x, y).score
  }

  ghost predicate EligibleIn(s: Store, rules: Rules, k: ObjectKey, n: Values, candidates: set<ObjectKey>, c: ObjectKey)
  {
    c in candidates && Eligible(s, rules, k, n, c)
  }

  /** Whatever the row order: created iff nothing is eligible; linked iff some eligible candidate
      is an automatic link; review iff some is eligible and none is. */
  lemma OutcomeByCandidates(s: Store, rules: Rules, k: ObjectKey, n: Values, candidates: set<ObjectKey>,
                            pick: Option<ObjectKey>)
    requires ScoresDecide(rules) && IsBest(s, rules, k, n, candidates, pick)
    ensures pick.None? <==> !exists c :: EligibleIn(s, rules, k, n, candidates, c)
    ensures (pick.Some? && VerdictOn(s, rules, n, pick.value).decision == AutoLink) <==>
      exists c :: EligibleIn(s, rules, k, n, candidates, c) && VerdictOn(s, rules, n, c).decision == AutoLink
    ensures (pick.Some? && VerdictOn(s, rules, n, pick.value).decision == Review) <==>
      (exists c :: EligibleIn(s, rules, k, n, candidates, c)) &&
      !(exists c :: EligibleIn(s, rules, k, n, candidates, c) && VerdictOn(s, rules, n, c).decision == AutoLink)
  {
    if pick.Some? {
      assert EligibleIn(s, rules, k, n, candidates, pick.value);
      forall c | EligibleIn(s, rules, k, n, candidates, c) && VerdictOn(s, rules, n, c).decision == AutoLink
        ensures VerdictOn(s, rules, n, pick.value).decision == AutoLink
      {
        assert VerdictOn(s, rules, n, c).score <= VerdictOn(s, rules, n, pick.value).score;
      }
    } else {
      assert forall c :: !EligibleIn(s, rules, k, n, candidates, c);
    }
  }

  /** Two row orders can differ only in the choice among candidates of equal, highest score. */
  lemma PicksAgree(s: Store, rules: Rules, k: ObjectKey, n: Values, candidates: set<ObjectKey>,
                   p: Option<ObjectKey>, q: Option<ObjectKey>)
    requires ScoresDecide(rules)
    requires IsBest(s, rules, k, n, candidates, p) && IsBest(s, rules, k, n, candidates, q)
    ensures p.Some? <==> q.Some?
    ensures p.Some? ==> VerdictOn(s, rules, n, p.value).score == VerdictOn(s, rules, n, q.value).score
    ensures p.Some? ==> VerdictOn(s, rules, n, p.value).decision == VerdictOn(s, rules, n, q.value).decision
  {
    OutcomeByCandidates(s, rules, k, n, candidates, p);
    OutcomeByCandidates(s, rules, k, n, candidates, q);
  }

  // ---- preservation ----

  /** The index and everything it is about stay. */
  ghost predicate SameIndex(s: Store, t: Store) {
    && t.blocks == s.blocks && t.records == s.records && t.policies == s.policies
    && (forall k :: k in t.objects ==>
        t.objects[k].current == ObjectOr(s, k).current && t.objects[k].retired == ObjectOr(s, k).retired)
  }

  lemma SameIndexed(s: Store, t: Store, domain: string)
    requires Indexed(s, domain) && BlocksOwned(s) && SameIndex(s, t)
    ensures Indexed(t, domain) && BlocksOwned(t)
  {
    forall k | IsCurrent(t, k) && k.domain == domain ensures RowsExact(t, k) {
      assert IsCurrent(s, k) && RowsExact(s, k);
      assert KeysOf(t, k) == KeysOf(s, k);
    }
  }

  lemma SameContentIndex(s: Store, t: Store)
    requires SameContent(s, t) && t.blocks == s.blocks
    ensures SameIndex(s, t)
  {
  }

  lemma ReceivedIndexed(s: Store, k: ObjectKey, item: Item, domain: string)
    requires Grounded(s) && Indexed(s, domain) && BlocksOwned(s)
    requires k.domain in s.policies && RecordKey(k, item.version) !in s.records
    ensures Indexed(Received(s, k, item), domain) && BlocksOwned(Received(s, k, item))
  {
    var t := Received(s, k, item);
    var rid := RecordKey(k, item.version);
    forall j | IsCurrent(t, j) && j.domain == domain ensures RowsExact(t, j) {
      if t.objects[j].current == Some(rid) {
        NewRows(s, k, item, j);
      } else {
        assert IsCurrent(s, j) && RowsExact(s, j);
        assert KeysOf(t, j) == KeysOf(s, j);
      }
    }
  }

  lemma NewRows(s: Store, k: ObjectKey, item: Item, j: ObjectKey)
    requires Grounded(s) && BlocksOwned(s) && k.domain in s.policies && RecordKey(k, item.version) !in s.records
    requires var t := Received(s, k, item); IsCurrent(t, j) && t.objects[j].current == Some(RecordKey(k, item.version))
    ensures j == k && RowsExact(Received(s, k, item), j)
  {
    if j != k { assert false; }
    var rid := RecordKey(k, item.version);
    var t := Received(s, k, item);
    assert KeysOf(t, k) == s.policies[k.domain].keys(RecordOf(s, k, item).normalized);
    forall key ensures Block(rid, key) in t.blocks <==> key in KeysOf(t, k) {
      assert Block(rid, key) !in s.blocks;
    }
  }

  lemma SettlesIndexed(s1: Store, k: ObjectKey, rid: RecordKey, pick: Option<ObjectKey>, t: Store, domain: string)
    requires Grounded(s1) && Indexed(s1, domain) && BlocksOwned(s1) && Settles(s1, k, rid, pick, t)
    ensures Indexed(t, domain) && BlocksOwned(t)
  {
    SettlesReassigns(s1, k, rid, pick, t);
    SettlesBlocks(s1, k, rid, pick, t);
    SameContentIndex(s1, t);
    SameIndexed(s1, t, domain);
  }

  lemma SettlesBlocks(s1: Store, k: ObjectKey, rid: RecordKey, pick: Option<ObjectKey>, t: Store)
    requires Settles(s1, k, rid, pick, t)
    ensures t.blocks == s1.blocks && t.records == s1.records
  {
    if t == s1 {
    } else if Placing(s1, k, rid, pick, t) {
      PlacingBlocks(s1, k, rid, pick, t);
    } else {
      assert Refreshed(s1, s1.objects[k].entity.value).blocks == s1.blocks;
    }
  }

  lemma PlacingBlocks(s: Store, k: ObjectKey, rid: RecordKey, pick: Option<ObjectKey>, t: Store)
    requires Placing(s, k, rid, pick, t)
    ensures t.blocks == s.blocks && t.records == s.records
  {
    if t == Creating(s, k) {
      CreatingBlocks(s, k);
    } else if t == Joining(s, k, s.objects[pick.value].entity.value) {
      JoiningBlocks(s, k, s.objects[pick.value].entity.value);
    } else {
      ReviewingBlocks(s, k, rid, pick.value);
    }
  }

  lemma CreatingBlocks(s: Store, k: ObjectKey)
    requires k in s.objects
    ensures Creating(s, k).blocks == s.blocks && Creating(s, k).records == s.records
  {
  }

  lemma JoiningBlocks(s: Store, k: ObjectKey, e: nat)
    requires k in s.objects && e in s.entities
    ensures Joining(s, k, e).blocks == s.blocks && Joining(s, k, e).records == s.records
  {
  }

  lemma ReviewingBlocks(s: Store, k: ObjectKey, rid: RecordKey, c: ObjectKey)
    requires k in s.objects
    requires IsCurrent(s, c) && s.objects[c].entity.Some? && s.objects[c].entity.value in s.entities
    ensures Reviewing(s, k, rid, c).blocks == s.blocks && Reviewing(s, k, rid, c).records == s.records
  {
  }

  lemma ObserveIndexed(s: Store, k: ObjectKey, item: Item, pick: Option<ObjectKey>, r: Reply<Store>, domain: string)
    requires Grounded(s) && Indexed(s, domain) && BlocksOwned(s) && ObserveOutcome(s, k, item, pick, r)
    ensures Indexed(After(s, r), domain) && BlocksOwned(After(s, r))
  {
    if r.Abort? {
    } else if RecordKey(k, item.version) in s.records {
      SameIndexed(s, Known(s, k), domain);
    } else {
      ReceivedIndexed(s, k, item, domain);
      ReceivedGrounded(s, k, item);
      SettlesIndexed(Received(s, k, item), k, RecordKey(k, item.version), pick, r.db, domain);
    }
  }

  /** A remaster rebuilds the rows of its domain and leaves other domains alone, whatever the index was. */
  lemma ReindexIndexed(s: Store, domain: string)
    requires Grounded(s) && domain in s.policies
    ensures Indexed(Reindex(s, domain), domain)
  {
    var t := Reindex(s, domain);
    forall k | IsCurrent(t, k) && k.domain == domain ensures RowsExact(t, k) {
      var rid := s.objects[k].current.value;
      assert IsCurrent(s, k) && rid.owner == k;
      assert Reindexed(s, domain, rid);
      forall key ensures Block(rid, key) in t.blocks <==> key in KeysOf(t, k) { }
    }
  }

  lemma ReindexOther(s: Store, rebuilt: string, domain: string)
    requires Grounded(s) && rebuilt in s.policies && rebuilt != domain && Indexed(s, domain)
    ensures Indexed(Reindex(s, rebuilt), domain)
  {
    var t := Reindex(s, rebuilt);
    forall k | IsCurrent(t, k) && k.domain == domain ensures RowsExact(t, k) {
      var rid := s.objects[k].current.value;
      assert IsCurrent(s, k) && rid.owner == k && RowsExact(s, k);
      assert t.records[rid] == s.records[rid];
      forall key ensures Block(rid, key) in t.blocks <==> key in KeysOf(t, k) {
        assert Block(rid, key) in t.blocks <==> Block(rid, key) in s.blocks;
      }
    }
  }

  lemma ReindexOwned(s: Store, domain: string)
    requires BlocksOwned(s) && domain in s.policies
    ensures BlocksOwned(Reindex(s, domain))
  {
  }

  lemma RemasterIndexed(s: Store, rebuilt: string, domain: string)
    requires Grounded(s) && BlocksOwned(s) && rebuilt in s.policies
    requires rebuilt == domain || Indexed(s, domain)
    ensures Indexed(Next(s, RemasterStep(rebuilt)), domain) && BlocksOwned(Next(s, RemasterStep(rebuilt)))
  {
    if rebuilt == domain { ReindexIndexed(s, domain); } else { ReindexOther(s, rebuilt, domain); }
    ReindexOwned(s, rebuilt);
    RefreshKeepsIndex(Reindex(s, rebuilt), LiveIn(s, rebuilt), domain);
  }

  lemma RefreshKeepsIndex(x: Store, es: set<nat>, domain: string)
    requires es <= x.entities.Keys && Indexed(x, domain) && BlocksOwned(x)
    ensures Indexed(RefreshAll(x, es), domain) && BlocksOwned(RefreshAll(x, es))
  {
    var t := RefreshAll(x, es);
    assert SameIndex(x, t);
    SameIndexed(x, t, domain);
  }

  lemma MatchIndexed(s: Store, e: nat, link: bool, r: Reply<Store>, domain: string)
    requires Grounded(s) && Indexed(s, domain) && BlocksOwned(s) && MatchOutcome(s, e, link, r)
    ensures Indexed(After(s, r), domain) && BlocksOwned(After(s, r))
  {
    if r.Abort? {
    } else if r.Commit? && link {
      LinkIntoReassigns(s, e, s.matches[e].target);
      assert SameContent(s, r.db) && r.db.blocks == s.blocks;
      SameContentIndex(s, r.db);
      SameIndexed(s, r.db, domain);
    } else {
      SameIndexed(s, r.db, domain);
    }
  }

  lemma MasterIndexed(s: Store, e: nat, v: nat, approve: bool, r: Reply<Store>, domain: string)
    requires Indexed(s, domain) && BlocksOwned(s) && MasterOutcome(s, e, v, approve, r)
    ensures Indexed(After(s, r), domain) && BlocksOwned(After(s, r))
  {
    if !r.Abort? { SameIndexed(s, r.db, domain); }
  }

  lemma MergeIndexed(s: Store, id: nat, approve: bool, r: Reply<Store>, domain: string)
    requires Grounded(s) && Indexed(s, domain) && BlocksOwned(s) && MergeOutcome(s, id, approve, r)
    ensures Indexed(After(s, r), domain) && BlocksOwned(After(s, r))
  {
    if r.Abort? {
    } else if r.Commit? && approve {
      ApplyMergeReassigns(s, id);
      var x := ApplyMerge(s, s.merges[id]).db;
      assert x.blocks == s.blocks;
      SameContentIndex(s, x);
      SameIndexed(s, x, domain);
      SameIndexed(x, r.db, domain);
    } else {
      SameIndexed(s, r.db, domain);
    }
  }

  lemma SplitIndexed(s: Store, id: nat, approve: bool, r: Reply<Store>, domain: string)
    requires Grounded(s) && Indexed(s, domain) && BlocksOwned(s) && SplitOutcome(s, id, approve, r)
    ensures Indexed(After(s, r), domain) && BlocksOwned(After(s, r))
  {
    if r.Abort? {
    } else if r.Commit? && approve {
      var e := s.splits[id].entity;
      var ks := StillMembers(s, e, s.splits[id].objects);
      SplitOffReassigns(s, e, ks);
      var x := SplitOff(s, e, ks);
      assert x.blocks == s.blocks;
      SameContentIndex(s, x);
      SameIndexed(s, x, domain);
      SameIndexed(x, r.db, domain);
    } else {
      SameIndexed(s, r.db, domain);
    }
  }

  /** Every step but the activation of another policy for the domain keeps the index exact. */
  lemma NextIndexed(s: Store, step: Step, domain: string)
    requires Grounded(s) && Indexed(s, domain) && BlocksOwned(s)
    requires step.ActivateStep? ==> step.domain != domain
    ensures Indexed(Next(s, step), domain) && BlocksOwned(Next(s, step))
  {
    match step
    case ObserveStep(k, item, pick) =>
      ObserveCases(s, k, item, pick);
      ObserveIndexed(s, k, item, pick, Attempt(s, step), domain);
    case MatchStep(e, link) => DecideMatchCases(s, e, link); MatchIndexed(s, e, link, Attempt(s, step), domain);
    case MasterStep(e, v, approve) =>
      DecideMasterCases(s, e, v, approve);
      MasterIndexed(s, e, v, approve, Attempt(s, step), domain);
    case MergeStep(id, approve, actor) =>
      DecideMergeCases(s, id, approve, actor);
      MergeIndexed(s, id, approve, Attempt(s, step), domain);
    case SplitStep(id, approve, actor) =>
      DecideSplitCases(s, id, approve, actor);
      SplitIndexed(s, id, approve, Attempt(s, step), domain);
    case RemasterStep(rebuilt) => if rebuilt in s.policies { RemasterIndexed(s, rebuilt, domain); }
    case ActivateStep(other, rules) => if other in s.policies { ActivateIndexed(s, other, rules, domain); }
    case _ => AdministrativeAside(s, step); SameIndexed(s, Next(s, step), domain);
  }

  lemma ActivateIndexed(s: Store, other: string, rules: Rules, domain: string)
    requires Indexed(s, domain) && BlocksOwned(s) && other != domain
    ensures var t := s.(policies := s.policies[other := rules]); Indexed(t, domain) && BlocksOwned(t)
  {
    var t := s.(policies := s.policies[other := rules]);
    forall k | IsCurrent(t, k) && k.domain == domain ensures RowsExact(t, k) {
      assert IsCurrent(s, k) && RowsExact(s, k);
      assert KeysOf(t, k) == KeysOf(s, k);
    }
  }

  lemma {:induction false} RunIndexed(s: Store, steps: seq<Step>, domain: string)
    requires Grounded(s) && Indexed(s, domain) && BlocksOwned(s)
    requires forall i :: 0 <= i < |steps| && steps[i].ActivateStep? ==> steps[i].domain != domain
    ensures Grounded(Run(s, steps)) && Indexed(Run(s, steps), domain) && BlocksOwned(Run(s, steps))
    decreases |steps|
  {
    if steps != [] {
      NextGrounded(s, steps[0]);
      NextIndexed(s, steps[0], domain);
      RunIndexed(Next(s, steps[0]), steps[1..], domain);
    }
  }

  /** From an empty store, or from the moment a remaster of the domain has finished. */
  lemma EmptyIndexed(sources: map<string, int>, policies: map<string, Rules>, domain: string)
    requires domain in policies
    ensures Indexed(Empty(sources, policies), domain) && BlocksOwned(Empty(sources, policies))
  {
  }

  // ---- index rows name existing records in every run ----

  lemma DecisionOwned(s: Store, step: Step)
    requires BlocksOwned(s)
    requires step.MatchStep? || step.MasterStep? || step.MergeStep? || step.SplitStep?
    ensures BlocksOwned(Next(s, step))
  {
    match step
    case MatchStep(e, link) =>
      DecideMatchCases(s, e, link);
      assert MatchOutcome(s, e, link, Attempt(s, step));
      OwnedByMatch(s, e, link, Attempt(s, step));
    case MasterStep(e, v, approve) =>
      DecideMasterCases(s, e, v, approve);
      OwnedByMaster(s, e, v, approve, Attempt(s, step));
    case MergeStep(id, approve, actor) =>
      DecideMergeCases(s, id, approve, actor);
      OwnedByMerge(s, id, approve, Attempt(s, step));
    case SplitStep(id, approve, actor) =>
      DecideSplitCases(s, id, approve, actor);
      OwnedBySplit(s, id, approve, Attempt(s, step));
  }

  lemma OwnedByMatch(s: Store, e: nat, link: bool, r: Reply<Store>)
    requires BlocksOwned(s) && MatchOutcome(s, e, link, r)
    ensures BlocksOwned(After(s, r))
  {
    if r.Commit? && link { assert Linking(s, e).blocks == s.blocks && Linking(s, e).records == s.records; }
  }

  lemma OwnedByMaster(s: Store, e: nat, v: nat, approve: bool, r: Reply<Store>)
    requires BlocksOwned(s) && MasterOutcome(s, e, v, approve, r)
    ensures BlocksOwned(After(s, r))
  {
    if r.Commit? && approve { assert ApproveMaster(s, e, v).blocks == s.blocks; }
  }

  lemma OwnedByMerge(s: Store, id: nat, approve: bool, r: Reply<Store>)
    requires BlocksOwned(s) && MergeOutcome(s, id, approve, r)
    ensures BlocksOwned(After(s, r))
  {
    if r.Commit? && approve {
      var x := ApplyMerge(s, s.merges[id]).db;
      assert x.blocks == s.blocks && x.records == s.records;
    }
  }

  lemma OwnedBySplit(s: Store, id: nat, approve: bool, r: Reply<Store>)
    requires BlocksOwned(s) && SplitOutcome(s, id, approve, r)
    ensures BlocksOwned(After(s, r))
  {
    if r.Commit? && approve { assert Splitting(s, id).blocks == s.blocks && Splitting(s, id).records == s.records; }
  }

  lemma ReceivedOwned(s: Store, k: ObjectKey, item: Item)
    requires BlocksOwned(s) && k.domain in s.policies
    ensures BlocksOwned(Received(s, k, item))
  {
  }

  lemma KnownOwned(s: Store, k: ObjectKey)
    requires BlocksOwned(s)
    ensures BlocksOwned(Known(s, k))
  {
  }

  lemma ObserveOwned(s: Store, k: ObjectKey, item: Item, pick: Option<ObjectKey>, r: Reply<Store>)
    requires BlocksOwned(s) && ObserveOutcome(s, k, item, pick, r)
    ensures BlocksOwned(After(s, r))
  {
    if r.Abort? {
    } else if RecordKey(k, item.version) in s.records {
      KnownOwned(s, k);
    } else {
      ReceivedOwned(s, k, item);
      SettlesBlocks(Received(s, k, item), k, RecordKey(k, item.version), pick, r.db);
    }
  }

  lemma NextOwned(s: Store, step: Step)
    requires BlocksOwned(s)
    ensures BlocksOwned(Next(s, step))
  {
    match step
    case ObserveStep(k, item, pick) => ObserveCases(s, k, item, pick); ObserveOwned(s, k, item, pick, Attempt(s, step));
    case MatchStep(_, _) => DecisionOwned(s, step);
    case MasterStep(_, _, _) => DecisionOwned(s, step);
    case MergeStep(_, _, _) => DecisionOwned(s, step);
    case SplitStep(_, _, _) => DecisionOwned(s, step);
    case RemasterStep(domain) => if domain in s.policies { ReindexOwned(s, domain); }
    case ActivateStep(_, _) =>
    case _ => AdministrativeAside(s, step);
  }

  lemma {:induction false} RunOwned(s: Store, steps: seq<Step>)
    requires Grounded(s) && BlocksOwned(s)
    ensures Grounded(Run(s, steps)) && BlocksOwned(Run(s, steps))
    decreases |steps|
  {
    if steps != [] {
      NextGrounded(s, steps[0]);
      NextOwned(s, steps[0]);
      RunOwned(Next(s, steps[0]), steps[1..]);
    }
  }

  /** After any run, policy activations included, a remaster makes the index of the domain exact, and it
      stays exact until another policy is activated for the domain. */
  lemma IndexedSinceRemaster(sources: map<string, int>, policies: map<string, Rules>, before: seq<Step>,
                             domain: string, since: seq<Step>)
    requires domain in Run(Empty(sources, policies), before).policies
    requires forall i :: 0 <= i < |since| && since[i].ActivateStep? ==> since[i].domain != domain
    ensures var s := Run(Next(Run(Empty(sources, policies), before), RemasterStep(domain)), since);
      Grounded(s) && Indexed(s, domain) && BlocksOwned(s)
  {
    EmptyGrounded(sources, policies);
    var s := Run(Empty(sources, policies), before);
    RunOwned(Empty(sources, policies), before);
    RemasterIndexed(s, domain, domain);
    NextGrounded(s, RemasterStep(domain));
    RunIndexed(Next(s, RemasterStep(domain)), since, domain);
  }

  /** Under the policies the store began with, the index is exact at every commit. */
  lemma IndexedFromTheStart(sources: map<string, int>, policies: map<string, Rules>, domain: string, steps: seq<Step>)
    requires domain in policies
    requires forall i :: 0 <= i < |steps| && steps[i].ActivateStep? ==> steps[i].domain != domain
    ensures var s := Run(Empty(sources, policies), steps); Grounded(s) && Indexed(s, domain) && BlocksOwned(s)
  {
    EmptyGrounded(sources, policies);
    EmptyIndexed(sources, policies, domain);
    RunIndexed(Empty(sources, policies), steps, domain);
  }

  /** With an exact index, the first accepted observation of an object is resolved against every current, placed record
      of its domain that shares a key with it, or the ingestion aborts with an overflow. */
  lemma ResolutionIsComplete(s: Store, k: ObjectKey, item: Item, pick: Option<ObjectKey>)
    requires Grounded(s) && k.source in s.sources && Indexed(s, k.domain) && BlocksOwned(s)
    requires RecordKey(k, item.version) !in s.records
    requires JustReceived(Received(s, k, item), k, RecordKey(k, item.version))
    ensures var rid := RecordKey(k, item.version);
      var s1 := Received(s, k, item);
      var n := s1.records[rid].normalized;
      var keys := s1.policies[k.domain].keys(n);
      && (Observe(s, k, item, pick).Commit? ==> IsBest(s1, s1.policies[k.domain], k, n, FullScan(s1, k, keys), pick))
      && (|CandidateRows(s1, rid, keys)| > CANDIDATE_LIMIT ==>
          Observe(s, k, item, pick) == Abort("candidate_block_overflow"))
  {
    ReceivedGrounded(s, k, item);
    ReceivedIndexed(s, k, item, k.domain);
    NeverTruncated(Received(s, k, item), k, RecordKey(k, item.version), pick);
    ObserveResolves(s, k, item, pick);
  }

  lemma ObserveResolves(s: Store, k: ObjectKey, item: Item, pick: Option<ObjectKey>)
    requires k.source in s.sources && k.domain in s.policies && RecordKey(k, item.version) !in s.records
    requires JustReceived(Received(s, k, item), k, RecordKey(k, item.version))
    ensures Observe(s, k, item, pick) == Resolved(Received(s, k, item), k, RecordKey(k, item.version), pick)
  {
  }
}
