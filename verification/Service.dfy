/** The mastering service in its own form: an object whose methods update its database, each proved to be the
    corresponding transaction. */
module Service {
  import opened Prelude
  import opened Survivorship
  import opened Store
  import opened Steps
  import opened Effects
  import opened Grounding
  import opened FullRuns
  import opened Redelivery
  import Drafts

  // ---- loops over rows ----

  /** The open tenure with the latest start is closed. */
  method CloseLatest(rows: seq<Tenure>, now: int) returns (r: seq<Tenure>)
    ensures r == CloseOpen(rows, now)
  {
    var i := |rows|;
    assert rows[..i] == rows && rows[i..] == [];
    while i > 0 && rows[i - 1].until.Some?
      invariant 0 <= i <= |rows|
      invariant CloseOpen(rows, now) == CloseOpen(rows[..i], now) + rows[i..]
    {
      assert rows[..i][..i - 1] == rows[..i - 1];
      assert [rows[i - 1]] + rows[i..] == rows[i - 1..];
      i := i - 1;
    }
    if i > 0 {
      r := rows[i - 1 := rows[i - 1].(until := Some(now))];
      assert rows[..i][..i - 1] == rows[..i - 1];
      assert r == rows[..i - 1] + [rows[i - 1].(until := Some(now))] + rows[i..];
    } else {
      r := rows;
    }
  }

  /** The open approval task, if there is one, goes stale. */
  method StaleFirst(rows: seq<MasterVersion>) returns (r: seq<MasterVersion>)
    ensures r == StaleOpen(rows)
  {
    var i := 0;
    while i < |rows| && rows[i].review != Open
      invariant 0 <= i <= |rows|
      invariant StaleOpen(rows) == rows[..i] + StaleOpen(rows[i..])
    {
      assert rows[i..][1..] == rows[i + 1..];
      assert rows[..i + 1] == rows[..i] + [rows[i]];
      i := i + 1;
    }
    if i < |rows| {
      r := rows[i := rows[i].(review := Stale)];
      assert rows[i..][1..] == rows[i + 1..];
      assert r == rows[..i] + ([rows[i].(review := Stale)] + rows[i + 1..]);
    } else {
      r := rows;
      assert rows[i..] == [];
    }
  }

  function Objects(rows: seq<ObjectKey>): set<ObjectKey> {
    set c | c in rows
  }

  // ---- moving members one by one ----

  lemma MoveStay(s: Store, k: ObjectKey, e: nat)
    requires In(s, k, e)
    ensures Move(s, {k}, e) == s
  {
    var t := Move(s, {k}, e);
    assert t.objects == s.objects && t.history == s.history;
  }

  lemma MoveSingle(s: Store, k: ObjectKey, e: nat)
    requires k in s.objects && s.objects[k].entity != Some(e)
    ensures Move(s, {k}, e) == s.(
      objects := s.objects[k := s.objects[k].(entity := Some(e))],
      history := s.history[k := Enter(HistoryOf(s, k), e, s.clock)])
  {
    var t := Move(s, {k}, e);
    assert t.objects == s.objects[k := s.objects[k].(entity := Some(e))];
    assert t.history == s.history[k := Enter(HistoryOf(s, k), e, s.clock)];
  }

  lemma MoveNone(s: Store, e: nat)
    ensures Move(s, {}, e) == s
  {
    var t := Move(s, {}, e);
    assert t.objects == s.objects && t.history == s.history;
  }

  lemma MoveOneMore(s: Store, ks: set<ObjectKey>, k: ObjectKey, e: nat)
    requires ks <= s.objects.Keys && k in s.objects && k !in ks
    ensures Move(Move(s, ks, e), {k}, e) == Move(s, ks + {k}, e)
  {
    MoreObjects(s, ks, k, e);
    MoreHistory(s, ks, k, e);
  }

  lemma MoreObjects(s: Store, ks: set<ObjectKey>, k: ObjectKey, e: nat)
    requires ks <= s.objects.Keys && k in s.objects && k !in ks
    ensures Move(Move(s, ks, e), {k}, e).objects == Move(s, ks + {k}, e).objects
  {
  }

  lemma MovedHistory(s: Store, ks: set<ObjectKey>, e: nat, j: ObjectKey)
    requires ks <= s.objects.Keys
    ensures HistoryOf(Move(s, ks, e), j) ==
      if j in ks && s.objects[j].entity != Some(e) then Enter(HistoryOf(s, j), e, s.clock) else HistoryOf(s, j)
  {
  }

  lemma MoreHistory(s: Store, ks: set<ObjectKey>, k: ObjectKey, e: nat)
    requires ks <= s.objects.Keys && k in s.objects && k !in ks
    ensures Move(Move(s, ks, e), {k}, e).history == Move(s, ks + {k}, e).history
  {
    var m := Move(s, ks, e);
    var t, u := Move(m, {k}, e).history, Move(s, ks + {k}, e).history;
    assert m.objects[k] == s.objects[k];
    assert t.Keys == u.Keys;
    forall j | j in t ensures t[j] == u[j] {
      MovedHistory(s, ks, e, j);
      MovedHistory(m, {k}, e, j);
      MovedHistory(s, ks + {k}, e, j);
    }
  }

  class MasteringService {
    var db: Store
    var runs: map<RunKey, RunRow>

    constructor (sources: map<string, int>, policies: map<string, Rules>)
      ensures Intake(db, runs) == Fresh(sources, policies)
    {
      db, runs := Empty(sources, policies), map[];
    }

    /** `_set_membership`. */
    method SetMembership(k: ObjectKey, e: nat)
      requires k in db.objects
      modifies this`db
      ensures db == Move(old(db), {k}, e)
    {
      if db.objects[k].entity == Some(e) {
        MoveStay(db, k, e);
        return;
      }
      MoveSingle(db, k, e);
      var rows := CloseLatest(HistoryOf(db, k), db.clock);
      db := db.(objects := db.objects[k := db.objects[k].(entity := Some(e))],
                history := db.history[k := rows + [Tenure(e, db.clock, None)]]);
    }

    /** The loops that hand every member of a set to an entity. */
    method MoveAll(ks: set<ObjectKey>, e: nat)
      requires ks <= db.objects.Keys
      modifies this`db
      ensures db == Move(old(db), ks, e)
    {
      var rest := ks;
      MoveNone(db, e);
      assert ks - rest == {};
      while rest != {}
        invariant rest <= ks
        invariant db == Move(old(db), ks - rest, e)
        decreases rest
      {
        var k :| k in rest;
        MoveOneMore(old(db), ks - rest, k, e);
        SetMembership(k, e);
        assert ks - (rest - {k}) == (ks - rest) + {k};
        rest := rest - {k};
      }
      assert ks - rest == ks;
    }

    /** `_draft_master`: survivorship, the next version, a new approval task in place of the open one. */
    method DraftMaster(e: nat)
      requires e in db.entities && db.entities[e].domain in db.policies && UidsUnique(db)
      modifies this`db
      ensures db == Draft(old(db), e)
    {
      var policy := db.policies[db.entities[e].domain].survivorship;
      FactsHaveDistinctUids(db, e);
      var values, provenance := ComputeMasterValues(policy, db.sources, FactsOf(db, e));
      var rows := StaleFirst(VersionsOf(db, e));
      db := db.(versions := db.versions[e := rows + [MasterVersion(false, values, Open, db.entities[e].version)]]);
    }

    // ---- candidate search ----

    /** The candidate query with its limit of one row more than is accepted; the order is the database's. */
    method CandidateQuery(rid: RecordKey, keys: seq<string>) returns (rows: seq<ObjectKey>)
      ensures |rows| > CANDIDATE_LIMIT <==> |CandidateRows(db, rid, keys)| > CANDIDATE_LIMIT
      ensures |rows| <= CANDIDATE_LIMIT ==> Objects(rows) == Candidates(db, rid, keys)
    {
      var all := CandidateRows(db, rid, keys);
      var rest := all;
      rows := [];
      while rest != {} && |rows| <= CANDIDATE_LIMIT
        invariant rest <= all && |rows| + |rest| == |all|
        invariant forall c :: c in rows <==> exists row :: row in all - rest && row.0 == c
        decreases rest
      {
        var row :| row in rest;
        rows := rows + [row.0];
        assert all - (rest - {row}) == (all - rest) + {row};
        rest := rest - {row};
      }
      if |rows| <= CANDIDATE_LIMIT {
        assert all - rest == all;
      }
    }

    /** Whether some current member of the entity contradicts the record. */
    method ClusterConflict(rules: Rules, normalized: Values, e: nat) returns (conflict: bool)
      ensures conflict <==> !ClusterFree(db, rules, normalized, e)
    {
      var rest := Contributors(db, e);
      while rest != {}
        invariant rest <= Contributors(db, e)
        invariant forall m :: m in Contributors(db, e) && m !in rest ==>
          !rules.compare(normalized, CurrentRecord(db, m).normalized).contradicted
        decreases rest
      {
        var m :| m in rest;
        if rules.compare(normalized, CurrentRecord(db, m).normalized).contradicted { return true; }
        rest := rest - {m};
      }
      conflict := false;
    }

    /** The candidate loop of `_resolve`: skip repeated objects, cannot-links, weak verdicts and conflicting
        clusters; keep the first candidate of the highest score. */
    method ChooseCandidate(rules: Rules, k: ObjectKey, normalized: Values, rows: seq<ObjectKey>)
      returns (best: Option<ObjectKey>)
      requires forall c :: c in rows ==> IsCurrent(db, c) && db.objects[c].entity.Some?
      ensures IsBest(db, rules, k, normalized, Objects(rows), best)
    {
      best := None;
      var bestScore := 0.0;
      var seen: set<ObjectKey> := {};
      for i := 0 to |rows|
        invariant seen == Objects(rows[..i])
        invariant IsBest(db, rules, k, normalized, seen, best)
        invariant best.Some? ==> bestScore == VerdictOn(db, rules, normalized, best.value).score
      {
        var c := rows[i];
        assert rows[..i + 1] == rows[..i] + [c];
        if c in seen {
          assert Objects(rows[..i + 1]) == seen;
          continue;
        }
        seen := seen + {c};
        assert seen == Objects(rows[..i + 1]);
        var verdict := rules.compare(normalized, CurrentRecord(db, c).normalized);
        if Pair(k, c) in db.cannot { continue; }
        if verdict.decision in {AutoLink, Review} {
          var conflict := ClusterConflict(rules, normalized, db.objects[c].entity.value);
          if conflict { continue; }
          if best.None? || verdict.score > bestScore {
            best, bestScore := Some(c), verdict.score;
          }
        }
      }
      assert rows[..|rows|] == rows;
    }

    /** `_resolve` with the membership and the first draft that follow it. `pick` is the candidate chosen. */
    method Resolve(k: ObjectKey, rid: RecordKey) returns (code: Option<string>, pick: Option<ObjectKey>)
      requires Grounded(db) && JustReceived(db, k, rid)
      modifies this`db
      ensures Resolved(old(db), k, rid, pick) == Answer(db, code, false)
      ensures code.Some? ==> db == old(db)
    {
      var rules := db.policies[k.domain];
      var normalized := db.records[rid].normalized;
      var keys := rules.keys(normalized);
      var rows := CandidateQuery(rid, keys);
      if |rows| > CANDIDATE_LIMIT {
        return Some("candidate_block_overflow"), None;
      }
      CandidatesArePlaced(db, rid, keys, rows);
      pick := ChooseCandidate(rules, k, normalized, rows);
      code := None;
      if pick.Some? {
        assert pick.value in Objects(rows);
        assert AtHome(db, pick.value);
        ResolvesTo(db, k, rid, pick);
        if VerdictOn(db, rules, normalized, pick.value).decision == AutoLink {
          Join(k, db.objects[pick.value].entity.value);
        } else {
          OpenReview(k, rid, pick.value);
        }
      } else {
        ResolvesTo(db, k, rid, pick);
        Create(k);
      }
    }

    method Join(k: ObjectKey, e: nat)
      requires k in db.objects && e in db.entities && db.entities[e].domain in db.policies && UidsUnique(db)
      modifies this`db
      ensures db == Joining(old(db), k, e)
    {
      db := Bump(db, e);
      SetMembership(k, e);
      DraftMaster(e);
    }

    method Create(k: ObjectKey)
      requires k in db.objects && k.domain in db.policies && UidsUnique(db)
      modifies this`db
      ensures db == Creating(old(db), k)
    {
      var e := db.next;
      db := NewEntity(db, k.domain);
      SetMembership(k, e);
      DraftMaster(e);
    }

    method OpenReview(k: ObjectKey, rid: RecordKey, c: ObjectKey)
      requires k in db.objects && k.domain in db.policies && UidsUnique(db)
      requires IsCurrent(db, c) && db.objects[c].entity.Some? && db.objects[c].entity.value in db.entities
      modifies this`db
      ensures db == Reviewing(old(db), k, rid, c)
    {
      var task := TaskFor(db, k, rid, c);
      var e := db.next;
      db := NewEntity(db, k.domain);
      db := db.(matches := db.matches[e := task]);
      SetMembership(k, e);
      DraftMaster(e);
    }

    /** One turn of the ingestion loop. A raised error rolls back. */
    method ObserveItem(k: ObjectKey, item: Item) returns (code: Option<string>, pick: Option<ObjectKey>)
      requires Grounded(db)
      modifies this`db
      ensures Observe(old(db), k, item, pick) == Answer(db, code, false)
      ensures code.Some? ==> db == old(db)
      ensures item.deleted ==> pick.None?
    {
      code, pick := None, None;
      var before := db;
      if k.source !in db.sources || k.domain !in db.policies {
        return Some("source_or_domain_not_found"), None;
      }
      var rid := RecordKey(k, item.version);
      if rid in db.records {
        if db.records[rid].payload != item { return Some("source_version_conflict"), None; }
        db := db.(objects := db.objects[k := ObjectOr(db, k)]);
        return;
      }
      var isCurrent, quarantined := WriteObservation(k, item);
      ghost var s1 := db;
      assert s1 == Received(old(db), k, item);
      if quarantined || !isCurrent { return; }
      var obj := db.objects[k];
      ReceivedGrounded(old(db), k, item);
      if obj.entity.Some? {
        assert Placed(db, k) && AtHome(db, k);
        db := Bump(db, obj.entity.value);
        DraftMaster(obj.entity.value);
        UpdateObserves(before, k, item);
        return;
      }
      if item.deleted { return; }
      code, pick := Resolve(k, rid);
      ArrivalObserves(before, k, item, pick);
      if code.Some? { db := before; }
    }

    /** The new observation: composed values, normal form, state. */
    method BuildRecord(k: ObjectKey, item: Item) returns (rec: SourceRecord, isCurrent: bool, quarantined: bool)
      requires k.domain in db.policies
      ensures rec == RecordOf(db, k, item)
      ensures isCurrent <==> Supersedes(ObjectOr(db, k), item)
      ensures quarantined <==> rec.state == Quarantine
    {
      var obj := ObjectOr(db, k);
      var rules := db.policies[k.domain];
      var values := Composed(db, obj, item);
      quarantined := !item.deleted && rules.invalid(values);
      isCurrent := Supersedes(obj, item);
      var state := if item.deleted then Deleted else if quarantined then Quarantine else if isCurrent then Valid
          else Superseded;
      rec := SourceRecord(Facts(db.next, k.source, values, item.verification, db.clock), rules.normalize(values), state,
          item);
    }

    /** The observation, its keys and the object row are written; whether it becomes current, and whether it is
        quarantined. */
    method WriteObservation(k: ObjectKey, item: Item) returns (isCurrent: bool, quarantined: bool)
      requires k.domain in db.policies
      modifies this`db
      ensures db == Received(old(db), k, item)
      ensures isCurrent <==> Supersedes(ObjectOr(old(db), k), item)
      ensures quarantined <==> RecordOf(old(db), k, item).state == Quarantine
    {
      var rid := RecordKey(k, item.version);
      var rec: SourceRecord;
      rec, isCurrent, quarantined := BuildRecord(k, item);
      var obj := ObjectOr(db, k);
      obj := obj.(latest := Some(rid));
      if !quarantined && isCurrent {
        obj := obj.(sequence := item.sequence, effective := item.effective);
        if item.deleted {
          obj := obj.(current := None, retired := true);
        } else {
          obj := obj.(current := Some(rid), retired := false);
        }
      }
      db := db.(objects := db.objects[k := obj], records := db.records[rid := rec],
                blocks := db.blocks + BlocksOf(db.policies[k.domain], rid, rec.normalized), next := db.next + 1);
    }

    // ---- pages ----

    /** One row, after the rows `done` of the same page. */
    method IngestRow(ghost before: Store, p: Page, ghost done: seq<Row>, given: Row)
      returns (code: Option<string>, row: Row)
      requires Grounded(db) && AllCommit(before, RowSteps(p, done)) && db == Run(before, RowSteps(p, done))
      modifies this`db
      ensures row == given.(pick := row.pick) && (given.item.deleted ==> row.pick.None?)
      ensures AllCommit(before, RowSteps(p, done + [row])) <==> code.None?
      ensures code.None? ==> db == Run(before, RowSteps(p, done + [row])) && Grounded(db)
    {
      var pick: Option<ObjectKey>;
      code, pick := ObserveItem(ObjectKey(p.source, p.domain, given.local), given.item);
      row := given.(pick := pick);
      OneMoreRow(before, p, done, row, old(db), code.None?, db);
    }

    /** The ingestion loop over the rows of a page; one error undoes the whole page. `done` has the chosen
        candidates. */
    method IngestRows(p: Page, rows: seq<Row>) returns (code: Option<string>, done: seq<Row>)
      requires Grounded(db)
      modifies this`db
      ensures Fills(done, rows) && NoPicks(done, rows)
      ensures code.None? ==>
          AllCommit(old(db), RowSteps(p, done)) && db == Run(old(db), RowSteps(p, done)) && Grounded(db)
      ensures code.Some? ==> !AllCommit(old(db), RowSteps(p, done)) && db == old(db)
    {
      var before := db;
      done := [];
      for i := 0 to |rows|
        invariant |done| == i && Fills(done, rows[..i]) && NoPicks(done, rows[..i])
        invariant AllCommit(before, RowSteps(p, done)) && db == Run(before, RowSteps(p, done)) && Grounded(db)
      {
        var row: Row;
        code, row := IngestRow(before, p, done, rows[i]);
        FillsStep(done, rows, i, row);
        if code.Some? {
          TailFails(before, p, done + [row], rows[i + 1..]);
          done := done + [row] + rows[i + 1..];
          db := before;
          return;
        }
        done := done + [row];
      }
      assert rows[..|rows|] == rows;
      code := None;
    }

    /** The active objects of the page's source and domain that the run never showed, in the database's order. */
    method ListUnseen(p: Page, seen: set<string>) returns (order: seq<ObjectKey>)
      ensures Lists(order, Unseen(db, p, seen)) && forall i :: 0 <= i < |order| ==> Belongs(p, order[i])
    {
      var rest := Unseen(db, p, seen);
      order := [];
      while rest != {}
        invariant rest <= Unseen(db, p, seen) && |order| + |rest| == |Unseen(db, p, seen)|
        invariant Objects(order) == Unseen(db, p, seen) - rest
        decreases rest
      {
        var k :| k in rest;
        assert Objects(order + [k]) == Objects(order) + {k};
        order := order + [k];
        rest := rest - {k};
      }
      assert forall i :: 0 <= i < |order| ==> order[i] in Objects(order);
    }

    /** `ingest`: one page, with tombstones for unseen objects when it completes a full run; one transaction. */
    method IngestPage(p: Page) returns (code: Option<string>, done: Page, order: seq<ObjectKey>)
      requires Grounded(db)
      modifies this
      ensures done == p.(rows := done.rows) && Fills(done.rows, p.rows)
      ensures code.None? ==> Ingest(Intake(old(db), old(runs)), done, order) == Commit(Intake(db, runs)) && Grounded(db)
      ensures code.Some? ==>
        Ingest(Intake(old(db), old(runs)), done, order).Abort? && db == old(db) && runs == old(runs)
    {
      done, order := p, [];
      if p.source !in db.sources || p.domain !in db.policies { return Some("source_or_domain_not_found"), done, order; }
      var o := OpenRun(Intake(db, runs), p);
      if o.Refused? { return Some(o.code), done, order; }
      if o.Duplicate? { return None, done, order; }
      if !Allowed(p) { return Some("snapshot_completion_refused"), done, order; }
      code, done, order := ProcessPage(p, o);
    }

    /** The work of a page whose run is open. */
    method ProcessPage(p: Page, o: Opening) returns (code: Option<string>, done: Page, order: seq<ObjectKey>)
      requires Grounded(db) && p.source in db.sources && p.domain in db.policies
      requires o == OpenRun(Intake(db, runs), p) && (o.NoRun? || o.Ready?) && Allowed(p)
      modifies this
      ensures done == p.(rows := done.rows) && Fills(done.rows, p.rows)
      ensures code.None? ==> Ingest(Intake(old(db), old(runs)), done, order) == Commit(Intake(db, runs)) && Grounded(db)
      ensures code.Some? ==>
        Ingest(Intake(old(db), old(runs)), done, order).Abort? && db == old(db) && runs == old(runs)
    {
      order := [];
      ghost var w := Intake(db, runs);
      if o.Ready? && Completes(p) {
        order := ListUnseen(p, SeenAfter(o.row, p));
      }
      var work := p.rows + TombRows(order, RunId(p));
      var rows: seq<Row>;
      code, rows := IngestRows(p, work);
      done := p.(rows := rows[..|p.rows|]);
      PageIngested(w, p, done, order, rows, code.None?, db);
      if code.None? && o.Ready? {
        runs := runs[KeyOf(p) := Checkpointed(o.row, p)];
      }
    }

    // ---- decisions ----

    /** `_link_match`. */
    method LinkMatch(e: nat) returns (code: Option<string>)
      requires Grounded(db) && e in db.matches
      modifies this`db
      ensures Linked(old(db), e) == Answer(db, code, false)
      ensures code.Some? ==> db == old(db)
    {
      var t := db.matches[e];
      if e !in db.entities || t.target !in db.entities { return Some("entity_unavailable"); }
      if db.entities[e].domain != db.entities[t.target].domain { return Some("cross_domain_merge_forbidden"); }
      if db.entities[t.target].version != t.boundTarget { return Some("stale_target_entity"); }
      if Pair(t.left, t.right) in db.cannot { return Some("cannot_link_constraint"); }
      if t.leftRecord !in db.records || t.rightRecord !in db.records || db.entities[e].domain !in db.policies {
        return Some("match_evidence_unavailable");
      }
      var left, right := db.records[t.leftRecord].normalized, db.records[t.rightRecord].normalized;
      if db.policies[db.entities[e].domain].compare(left, right).contradicted { return Some("match_contradiction"); }
      JoinTarget(e, t.target);
      code := None;
    }

    method JoinTarget(e: nat, target: nat)
      requires e in db.entities && target in db.entities && db.entities[target].domain in db.policies && UidsUnique(db)
      modifies this`db
      ensures db == LinkInto(old(db), e, target)
    {
      MoveAll(MembersOf(db, e), target);
      db := SetStatus(db, e, Merged);
      db := Bump(db, target);
      DraftMaster(target);
    }

    /** `decide_task` on a duplicate_match task. */
    method DecideMatchTask(e: nat, link: bool) returns (code: Option<string>, kept: bool)
      requires Grounded(db)
      modifies this`db
      ensures DecideMatch(old(db), e, link) == Answer(db, code, kept)
      ensures code.Some? && !kept ==> db == old(db)
    {
      code, kept := None, false;
      if e !in db.matches { return Some("task_not_found"), false; }
      var t := db.matches[e];
      if t.status != Open { return Some("task_not_open"), false; }
      if e in db.entities && db.entities[e].version != t.bound {
        db := CloseMatch(db, e, Stale);
        return Some("stale_approval"), true;
      }
      if link { code := AcceptMatch(e); } else { code := KeepSeparate(e); }
    }

    /** The link of an open, current match, and its closing. */
    method AcceptMatch(e: nat) returns (code: Option<string>)
      requires Grounded(db) && e in db.matches && db.matches[e].status == Open
      requires !BoundStale(db, e, db.matches[e].bound)
      modifies this`db
      ensures DecideMatch(old(db), e, true) == Answer(db, code, false)
      ensures code.Some? ==> db == old(db)
    {
      ghost var before := db;
      code := LinkMatch(e);
      LinkDecides(before, e, code, db);
      if code.None? { db := CloseMatch(db, e, Accepted); }
    }

    /** The cannot-link row of an open, current match, and its closing. */
    method KeepSeparate(e: nat) returns (code: Option<string>)
      requires e in db.matches && db.matches[e].status == Open && !BoundStale(db, e, db.matches[e].bound)
      modifies this`db
      ensures DecideMatch(old(db), e, false) == Answer(db, code, false)
      ensures code.Some? ==> db == old(db)
    {
      ghost var before := db;
      var t := db.matches[e];
      if Pair(t.left, t.right) in db.cannot { return Some("unique_violation"); }
      db := db.(cannot := db.cannot + {Pair(t.left, t.right)});
      db := CloseMatch(db, e, Rejected);
      RejectDecides(before, e, db);
      code := None;
    }

    /** `decide_task` on a master_approval task. */
    method DecideMasterTask(e: nat, v: nat, approve: bool) returns (code: Option<string>, kept: bool)
      modifies this`db
      ensures DecideMaster(old(db), e, v, approve) == Answer(db, code, kept)
      ensures code.Some? && !kept ==> db == old(db)
    {
      code, kept := None, false;
      if e !in db.versions || v >= |db.versions[e]| { return Some("task_not_found"), false; }
      var row := db.versions[e][v];
      if row.review != Open { return Some("task_not_open"), false; }
      if e in db.entities && db.entities[e].version != row.bound {
        db := SetVersion(db, e, v, row.(review := Stale));
        return Some("stale_approval"), true;
      }
      if !approve {
        db := SetVersion(db, e, v, row.(review := Rejected));
        return;
      }
      if row.approved || e !in db.entities { return Some("draft_unavailable"), false; }
      db := SetVersion(db, e, v, row.(review := Accepted, approved := true));
      db := SetStatus(db, e, Approved);
      db := db.(outbox := db.outbox + [MasterApproved(e, v + 1, row.values)]);
    }

    // ---- merge ----

    method ProposeMergeTask(ids: seq<nat>, actor: string) returns (code: Option<string>)
      modifies this`db
      ensures ProposeMerge(old(db), ids, actor) == Answer(db, code, false)
      ensures code.Some? ==> db == old(db)
    {
      for i := 0 to |ids|
        invariant forall j :: 0 <= j < i ==> Live(db, ids[j])
      {
        if !Live(db, ids[i]) { return Some("entity_not_found"); }
      }
      if ids == [] { return Some("cross_domain_merge_forbidden"); }
      for i := 0 to |ids|
        invariant forall j :: 0 <= j < i ==> SameDomain(db, ids[j], ids[0])
      {
        if db.entities[ids[i]].domain != db.entities[ids[0]].domain {
          assert ids[i] in ids && !SameDomain(db, ids[i], ids[0]);
          return Some("cross_domain_merge_forbidden");
        }
      }
      var task := MergeTask(Open, actor, ids[0], ids[1..], map e | e in ids :: db.entities[e].version);
      db := db.(merges := db.merges[db.next := task], next := db.next + 1);
      code := None;
    }

    /** The loop of `_apply_merge`. */
    method AbsorbAll(primary: nat, absorbed: seq<nat>, bound: map<nat, nat>) returns (code: Option<string>)
      modifies this`db
      ensures Absorb(old(db), primary, absorbed, bound) == Answer(db, code, false)
      ensures code.Some? ==> db == old(db)
    {
      var before := db;
      assert absorbed[0..] == absorbed;
      for i := 0 to |absorbed|
        invariant Absorb(before, primary, absorbed, bound) == Absorb(db, primary, absorbed[i..], bound)
      {
        var b := absorbed[i];
        assert absorbed[i..][0] == b && absorbed[i..][1..] == absorbed[i + 1..];
        if !Live(db, b) || b !in bound || bound[b] != db.entities[b].version {
          db := before;
          return Some("merge_entity_changed");
        }
        MoveAll(MembersOf(db, b), primary);
        db := SetStatus(db, b, Merged);
      }
      assert absorbed[|absorbed|..] == [];
      code := None;
    }

    /** `_apply_merge`. */
    method ApplyMergeTask(t: MergeTask) returns (code: Option<string>)
      requires UidsUnique(db) && (forall e :: e in db.entities ==> db.entities[e].domain in db.policies)
      modifies this`db
      ensures ApplyMerge(old(db), t) == Answer(db, code, false)
      ensures code.Some? ==> db == old(db)
    {
      if t.primary !in db.entities { return Some("primary_entity_missing"); }
      if t.primary !in t.bound || t.bound[t.primary] != db.entities[t.primary].version {
        return Some("merge_entity_changed");
      }
      ghost var before := db;
      code := AbsorbAll(t.primary, t.absorbed, t.bound);
      if code.Some? {
        MergeRefuses(before, t);
        return;
      }
      ghost var absorbed := db;
      AbsorbKeepsDomains(before, t.primary, t.absorbed, t.bound);
      db := Bump(db, t.primary);
      DraftMaster(t.primary);
      db := db.(outbox := db.outbox + [IdentityMerged(t.primary, |VersionsOf(db, t.primary)|, t.absorbed)]);
      MergeApplies(before, t, absorbed, db);
    }

    /** `decide_task` on a merge_approval task. */
    method DecideMergeTask(id: nat, approve: bool, actor: string) returns (code: Option<string>, kept: bool)
      requires Grounded(db)
      modifies this`db
      ensures DecideMerge(old(db), id, approve, actor) == Answer(db, code, kept)
      ensures code.Some? && !kept ==> db == old(db)
    {
      code, kept := None, false;
      if id !in db.merges { return Some("task_not_found"), false; }
      var t := db.merges[id];
      if t.status != Open { return Some("task_not_open"), false; }
      if t.primary in t.bound && BoundStale(db, t.primary, t.bound[t.primary]) {
        db := CloseMerge(db, id, Stale);
        return Some("stale_approval"), true;
      }
      if actor == t.proposedBy { return Some("separation_of_duties"), false; }
      if !approve {
        db := CloseMerge(db, id, Rejected);
        return;
      }
      ghost var before := db;
      code := ApplyMergeTask(t);
      if code.Some? { return; }
      MergeKeepsTask(before, t, id);
      db := CloseMerge(db, id, Accepted);
    }

    // ---- split ----

    /** `_apply_split`, once the members are known to be the proposed ones. */
    method SplitMembersOff(e: nat, ks: set<ObjectKey>)
      requires e in db.entities && ks <= db.objects.Keys && db.entities[e].domain in db.policies && UidsUnique(db) &&
          Allocated(db)
      modifies this`db
      ensures db == SplitOff(old(db), e, ks)
    {
      var split := db.next;
      db := NewEntity(db, db.entities[e].domain);
      MoveAll(ks, split);
      db := Bump(db, e);
      var version := db.entities[e].version;
      DraftMaster(e);
      DraftMaster(split);
      db := db.(outbox := db.outbox + [IdentitySplit(e, version, split)]);
    }

    /** `decide_task` on a split_approval task. */
    method DecideSplitTask(id: nat, approve: bool, actor: string) returns (code: Option<string>, kept: bool)
      requires Grounded(db)
      modifies this`db
      ensures DecideSplit(old(db), id, approve, actor) == Answer(db, code, kept)
      ensures code.Some? && !kept ==> db == old(db)
    {
      code, kept := None, false;
      if id !in db.splits { return Some("task_not_found"), false; }
      var t := db.splits[id];
      if t.status != Open { return Some("task_not_open"), false; }
      if BoundStale(db, t.entity, t.bound) {
        db := CloseSplit(db, id, Stale);
        return Some("stale_approval"), true;
      }
      if actor == t.proposedBy { return Some("separation_of_duties"), false; }
      if !approve {
        db := CloseSplit(db, id, Rejected);
        return;
      }
      if t.entity !in db.entities { return Some("entity_missing"), false; }
      var members := StillMembers(db, t.entity, t.objects);
      if |members| != |t.objects| { return Some("split_membership_changed"), false; }
      SplitMembersOff(t.entity, members);
      db := CloseSplit(db, id, Accepted);
    }

    /** `propose_split`: the members are listed in the order the query returns them. */
    method ProposeSplitTask(e: nat, rids: seq<RecordKey>, actor: string)
      returns (code: Option<string>, order: seq<ObjectKey>)
      modifies this`db
      ensures ProposeSplit(old(db), e, rids, order, actor) == Answer(db, code, false)
      ensures code.Some? ==> db == old(db)
    {
      code, order := None, [];
      if !Live(db, e) { return Some("entity_not_found"), []; }
      var members := SplitMembers(db, e, rids);
      if |members| != |RidSet(rids)| { return Some("source_record_not_in_entity"), []; }
      var rest := members;
      while rest != {}
        invariant rest <= members && |order| + |rest| == |members| && Objects(order) == members - rest
        decreases rest
      {
        var k :| k in rest;
        assert Objects(order + [k]) == Objects(order) + {k};
        order := order + [k];
        rest := rest - {k};
      }
      var task := SplitTask(Open, actor, e, db.entities[e].version, order);
      db := db.(splits := db.splits[db.next := task], next := db.next + 1);
    }

    // ---- remaster ----

    method DropIndex(domain: string)
      requires domain in db.policies
      modifies this`db
      ensures db == PartlyReindexed(old(db), domain, {})
    {
      ReindexNone(db, domain);
      db := db.(blocks := set b | b in db.blocks && b.record.owner.domain != domain);
    }

    /** The index loop of `remaster_domain`: the domain's rows are dropped and rebuilt object by object. */
    method RebuildIndex(domain: string)
      requires domain in db.policies && Owned(db)
      modifies this`db
      ensures db == Reindex(old(db), domain)
    {
      ghost var before := db;
      var all := set k | k in db.objects && Indexable(db, domain, k);
      DropIndex(domain);
      var rest := all;
      ghost var done: set<ObjectKey> := {};
      while rest != {}
        invariant rest <= all && done == all - rest
        invariant db == PartlyReindexed(before, domain, done)
        decreases rest
      {
        var k :| k in rest;
        ReindexObject(before, done, domain, k);
        rest := rest - {k};
        done := done + {k};
      }
      assert done == all;
      ReindexAll(before, domain, all);
    }

    /** One object of the loop: its current record is normalized again and its keys are added. */
    method ReindexObject(ghost before: Store, ghost done: set<ObjectKey>, domain: string, k: ObjectKey)
      requires domain in before.policies && Owned(before) && k !in done && Indexable(before, domain, k)
      requires db == PartlyReindexed(before, domain, done)
      modifies this`db
      ensures db == PartlyReindexed(before, domain, done + {k})
    {
      ReindexRecords(before, domain, done, k);
      ReindexBlocks(before, domain, done, k);
      var rules := db.policies[domain];
      var rid := db.objects[k].current.value;
      var normalized := rules.normalize(db.records[rid].facts.original);
      db := db.(records := db.records[rid := db.records[rid].(normalized := normalized)],
                blocks := db.blocks + BlocksOf(rules, rid, normalized));
    }

    /** The entity loop of `remaster_domain`. */
    method RefreshEntities(es: set<nat>)
      requires es <= db.entities.Keys && UidsUnique(db) &&
          (forall e :: e in es ==> db.entities[e].domain in db.policies)
      modifies this`db
      ensures db == RefreshAll(old(db), es)
    {
      var before := db;
      var rest := es;
      RefreshNone(db);
      assert es - rest == {};
      while rest != {}
        invariant rest <= es
        invariant db == RefreshAll(before, es - rest)
        decreases rest
      {
        var e :| e in rest;
        RefreshOneMore(before, es - rest, e);
        db := Bump(db, e);
        DraftMaster(e);
        assert es - (rest - {e}) == (es - rest) + {e};
        rest := rest - {e};
      }
      assert es - rest == es;
    }

    /** `remaster_domain`. */
    method RemasterDomain(domain: string) returns (code: Option<string>)
      requires Grounded(db)
      modifies this`db
      ensures Remaster(old(db), domain) == Answer(db, code, false)
      ensures code.Some? ==> db == old(db)
    {
      if domain !in db.policies { return Some("domain_missing"); }
      ghost var before := db;
      RebuildIndex(domain);
      ReindexGrounded(before, domain);
      RefreshEntities(LiveIn(db, domain));
      code := None;
    }

    // ---- the object refines the runs ----

    /** Any request of the service is a step of the run, and the referential facts hold after it. `done` is the
        request with the outcome of its query. */
    method Perform(step: Step) returns (done: Step)
      requires Grounded(db) && !step.ActivateStep?
      modifies this`db
      ensures SameRequest(step, done)
      ensures db == Next(old(db), done) && Grounded(db)
    {
      ghost var before := db;
      var code: Option<string>;
      var kept := false;
      done := step;
      match step {
        case Tick(elapsed) =>
          db := db.(clock := db.clock + elapsed);
          code := None;
        case ObserveStep(k, item, _) =>
          var pick: Option<ObjectKey>;
          code, pick := ObserveItem(k, item);
          done := ObserveStep(k, item, pick);
          ObserveIsNext(before, k, item, pick, code, db);
        case MatchStep(e, link) =>
          code, kept := DecideMatchTask(e, link);
          MatchIsNext(before, e, link, code, kept, db);
        case MasterStep(e, v, approve) =>
          code, kept := DecideMasterTask(e, v, approve);
          MasterIsNext(before, e, v, approve, code, kept, db);
        case ProposeMergeStep(ids, actor) =>
          code := ProposeMergeTask(ids, actor);
          ProposeMergeIsNext(before, ids, actor, code, db);
        case MergeStep(id, approve, actor) =>
          code, kept := DecideMergeTask(id, approve, actor);
          MergeIsNext(before, id, approve, actor, code, kept, db);
        case ProposeSplitStep(e, rids, _, actor) =>
          var order: seq<ObjectKey>;
          code, order := ProposeSplitTask(e, rids, actor);
          done := ProposeSplitStep(e, rids, order, actor);
          ProposeSplitIsNext(before, e, rids, order, actor, code, db);
        case SplitStep(id, approve, actor) =>
          code, kept := DecideSplitTask(id, approve, actor);
          SplitIsNext(before, id, approve, actor, code, kept, db);
        case RemasterStep(domain) =>
          code := RemasterDomain(domain);
          RemasterIsNext(before, domain, code, db);
      }
      NextGrounded(before, done);
    }

  }

  function PartRecords(s: Store, domain: string, done: set<ObjectKey>): map<RecordKey, SourceRecord>
    requires domain in s.policies
  {
    map rid | rid in s.records ::
      if Reindexed(s, domain, rid) && rid.owner in done
      then s.records[rid].(normalized := s.policies[domain].normalize(s.records[rid].facts.original))
          else s.records[rid]
  }

  function PartBlocks(s: Store, domain: string, done: set<ObjectKey>): set<Block>
    requires domain in s.policies
  {
    var rules := s.policies[domain];
    (set b | b in s.blocks && b.record.owner.domain != domain) +
    (set rid, key | rid in s.records && Reindexed(s, domain, rid) && rid.owner in done &&
       key in rules.keys(rules.normalize(s.records[rid].facts.original)) :: Block(rid, key))
  }

  /** The index after the objects `done` were processed. */
  function PartlyReindexed(s: Store, domain: string, done: set<ObjectKey>): Store
    requires domain in s.policies
  {
    s.(records := PartRecords(s, domain, done), blocks := PartBlocks(s, domain, done))
  }

  lemma ReindexNone(s: Store, domain: string)
    requires domain in s.policies
    ensures PartlyReindexed(s, domain, {}) == s.(blocks := set b | b in s.blocks && b.record.owner.domain != domain)
  {
    assert PartRecords(s, domain, {}) == s.records;
    assert PartBlocks(s, domain, {}) == set b | b in s.blocks && b.record.owner.domain != domain;
  }

  predicate Indexable(s: Store, domain: string, k: ObjectKey) {
    k in s.objects && k.domain == domain && !s.objects[k].retired && s.objects[k].current.Some?
  }

  lemma ReindexRecords(s: Store, domain: string, done: set<ObjectKey>, k: ObjectKey)
    requires domain in s.policies && Owned(s) && k !in done && Indexable(s, domain, k)
    ensures var rid := s.objects[k].current.value;
      var t := PartRecords(s, domain, done);
      && rid in t && t[rid] == s.records[rid]
      && PartRecords(s, domain, done + {k}) ==
           t[rid := t[rid].(normalized := s.policies[domain].normalize(s.records[rid].facts.original))]
  {
    var rid := s.objects[k].current.value;
    assert IsCurrent(s, k) && rid.owner == k && Reindexed(s, domain, rid);
    assert forall r :: Reindexed(s, domain, r) && r.owner == k ==> r == rid;
  }

  lemma ReindexBlocks(s: Store, domain: string, done: set<ObjectKey>, k: ObjectKey)
    requires domain in s.policies && Owned(s) && k !in done && Indexable(s, domain, k)
    ensures var rid := s.objects[k].current.value;
      && rid in s.records
      && PartBlocks(s, domain, done + {k}) == PartBlocks(s, domain, done) +
           BlocksOf(s.policies[domain], rid, s.policies[domain].normalize(s.records[rid].facts.original))
  {
    var rid := s.objects[k].current.value;
    assert IsCurrent(s, k) && rid.owner == k && Reindexed(s, domain, rid);
    var rules := s.policies[domain];
    var left := PartBlocks(s, domain, done + {k});
    var right := PartBlocks(s, domain, done) + BlocksOf(rules, rid, rules.normalize(s.records[rid].facts.original));
    forall b ensures b in left <==> b in right {
      assert b.record.owner == k && Reindexed(s, domain, b.record) ==> b.record == rid;
      assert b in left && b.record.owner == k && b.record.owner.domain == domain ==> b.record == rid;
    }
  }

  lemma ReindexAll(s: Store, domain: string, all: set<ObjectKey>)
    requires domain in s.policies
    requires all == set k | k in s.objects && Indexable(s, domain, k)
    ensures PartlyReindexed(s, domain, all) == Reindex(s, domain)
  {
    assert forall rid :: Reindexed(s, domain, rid) ==> rid.owner in all;
    assert PartRecords(s, domain, all) == Renormalized(s, domain, s.policies[domain]);
    assert PartBlocks(s, domain, all) == Rebuilt(s, domain, s.policies[domain]);
  }

  lemma RefreshNone(s: Store)
    ensures RefreshAll(s, {}) == s
  {
    var t := RefreshAll(s, {});
    assert t.entities == s.entities && t.versions == s.versions;
  }

  lemma RefreshOneMore(s: Store, es: set<nat>, e: nat)
    requires es <= s.entities.Keys && e in s.entities && e !in es
    ensures Draft(Bump(RefreshAll(s, es), e), e) == RefreshAll(s, es + {e})
  {
    var b := Bump(RefreshAll(s, es), e);
    Drafts.RefreshAllFacts(s, es, e);
    SameFacts(RefreshAll(s, es), b, e);
    assert b.entities[e].domain == s.entities[e].domain;
    assert FreshValues(b, e) == FreshValues(s, e);
    RefreshedEntities(s, es, e);
    RefreshedVersions(s, es, e, FreshValues(s, e));
  }

  lemma RefreshedEntities(s: Store, es: set<nat>, e: nat)
    requires es <= s.entities.Keys && e in s.entities && e !in es
    ensures Bump(RefreshAll(s, es), e).entities == RefreshAll(s, es + {e}).entities
  {
  }

  /** The row set of an entity after a refresh of `es`. */
  lemma RefreshedRows(s: Store, es: set<nat>, f: nat)
    requires es <= s.entities.Keys
    ensures VersionsOf(RefreshAll(s, es), f) ==
      if f in es then
        StaleOpen(VersionsOf(s, f)) + [MasterVersion(false, FreshValues(s, f), Open, s.entities[f].version + 1)]
      else VersionsOf(s, f)
  {
  }

  lemma OneMoreRefreshed(s: Store, es: set<nat>, e: nat)
    requires es <= s.entities.Keys && e in s.entities && e !in es
    ensures RefreshAll(s, es + {e}).versions ==
      RefreshAll(s, es).versions[e := VersionsOf(RefreshAll(s, es + {e}), e)]
  {
    var t, u := RefreshAll(s, es).versions, RefreshAll(s, es + {e}).versions;
    assert u.Keys == t.Keys + {e};
    forall f | f in u && f != e ensures u[f] == t[f] { OtherRowsStay(s, es, e, f); }
    OneMoreKey(t, u, e);
  }

  lemma OneMoreKey(t: map<nat, seq<MasterVersion>>, u: map<nat, seq<MasterVersion>>, e: nat)
    requires u.Keys == t.Keys + {e} && (forall f :: f in u && f != e ==> u[f] == t[f])
    ensures u == t[e := u[e]]
  {
  }

  lemma OtherRowsStay(s: Store, es: set<nat>, e: nat, f: nat)
    requires es <= s.entities.Keys && e in s.entities && e !in es && f != e
    ensures VersionsOf(RefreshAll(s, es + {e}), f) == VersionsOf(RefreshAll(s, es), f)
  {
    RefreshedRows(s, es, f);
    RefreshedRows(s, es + {e}, f);
  }

  lemma RefreshedVersions(s: Store, es: set<nat>, e: nat, values: Values)
    requires es <= s.entities.Keys && e in s.entities && e !in es && values == FreshValues(s, e)
    ensures WithDraft(Bump(RefreshAll(s, es), e), e, values).versions == RefreshAll(s, es + {e}).versions
  {
    RefreshedRows(s, es, e);
    RefreshedRows(s, es + {e}, e);
    OneMoreRefreshed(s, es, e);
  }

  lemma SameFacts(s: Store, t: Store, e: nat)
    requires t.objects == s.objects && t.records == s.records
    ensures FactsOf(t, e) == FactsOf(s, e)
  {
    assert forall k :: IsCurrent(t, k) <==> IsCurrent(s, k);
    assert Contributors(t, e) == Contributors(s, e);
    assert forall k :: k in Contributors(s, e) ==> CurrentRecord(t, k) == CurrentRecord(s, k);
  }

  lemma RejectDecides(s: Store, e: nat, t: Store)
    requires e in s.matches && s.matches[e].status == Open && !BoundStale(s, e, s.matches[e].bound)
    requires Pair(s.matches[e].left, s.matches[e].right) !in s.cannot
    requires t == CloseMatch(s.(cannot := s.cannot + {Pair(s.matches[e].left, s.matches[e].right)}), e, Rejected)
    ensures DecideMatch(s, e, false) == Commit(t)
  {
  }

  /** An accepted observation of a placed object bumps and drafts its entity. */
  lemma UpdateObserves(s: Store, k: ObjectKey, item: Item)
    requires k.source in s.sources && k.domain in s.policies && RecordKey(k, item.version) !in s.records
    requires Accepts(s, k, item) && ObjectOr(s, k).entity.Some? && ObjectOr(s, k).entity.value in s.entities
    ensures Observe(s, k, item, None) == Commit(Refreshed(Received(s, k, item), ObjectOr(s, k).entity.value))
  {
  }

  /** An accepted observation of an unplaced object is resolved. */
  lemma ArrivalObserves(s: Store, k: ObjectKey, item: Item, pick: Option<ObjectKey>)
    requires k.source in s.sources && k.domain in s.policies && RecordKey(k, item.version) !in s.records
    requires Accepts(s, k, item) && ObjectOr(s, k).entity.None? && !item.deleted
    ensures Observe(s, k, item, pick) == Resolved(Received(s, k, item), k, RecordKey(k, item.version), pick)
  {
  }

  lemma MergeRefuses(s: Store, t: MergeTask)
    requires t.primary in s.entities && t.primary in t.bound && t.bound[t.primary] == s.entities[t.primary].version
    requires Absorb(s, t.primary, t.absorbed, t.bound).Abort?
    ensures ApplyMerge(s, t) == Absorb(s, t.primary, t.absorbed, t.bound)
  {
  }

  lemma MergeApplies(s: Store, t: MergeTask, absorbed: Store, r: Store)
    requires t.primary in s.entities && t.primary in t.bound && t.bound[t.primary] == s.entities[t.primary].version
    requires Absorb(s, t.primary, t.absorbed, t.bound) == Commit(absorbed)
    requires var drafted := Draft(Bump(absorbed, t.primary), t.primary);
      r == Emit(drafted, IdentityMerged(t.primary, |VersionsOf(drafted, t.primary)|, t.absorbed))
    ensures ApplyMerge(s, t) == Commit(r)
  {
  }

  lemma LinkDecides(s: Store, e: nat, code: Option<string>, t: Store)
    requires e in s.matches && s.matches[e].status == Open && !BoundStale(s, e, s.matches[e].bound)
    requires Linked(s, e) == Answer(t, code, false)
    ensures code.None? ==> e in t.matches && DecideMatch(s, e, true) == Commit(CloseMatch(t, e, Accepted))
    ensures code.Some? ==> DecideMatch(s, e, true) == Abort(code.value)
  {
  }

  /** The same request, whatever its query returned. */
  ghost predicate SameRequest(asked: Step, done: Step) {
    || done == asked
    || (asked.ObserveStep? && done.ObserveStep? && done.k == asked.k && done.item == asked.item)
    || (asked.ProposeSplitStep? && done == asked.(order := if done.ProposeSplitStep? then done.order else []))
  }

  lemma ObserveIsNext(s: Store, k: ObjectKey, item: Item, pick: Option<ObjectKey>, code: Option<string>, t: Store)
    requires Observe(s, k, item, pick) == Answer(t, code, false) && (code.Some? ==> t == s)
    ensures t == Next(s, ObserveStep(k, item, pick))
  {
  }

  lemma MatchIsNext(s: Store, e: nat, link: bool, code: Option<string>, kept: bool, t: Store)
    requires DecideMatch(s, e, link) == Answer(t, code, kept) && (code.Some? && !kept ==> t == s)
    ensures t == Next(s, MatchStep(e, link))
  {
  }

  lemma MasterIsNext(s: Store, e: nat, v: nat, approve: bool, code: Option<string>, kept: bool, t: Store)
    requires DecideMaster(s, e, v, approve) == Answer(t, code, kept) && (code.Some? && !kept ==> t == s)
    ensures t == Next(s, MasterStep(e, v, approve))
  {
  }

  lemma ProposeMergeIsNext(s: Store, ids: seq<nat>, actor: string, code: Option<string>, t: Store)
    requires ProposeMerge(s, ids, actor) == Answer(t, code, false) && (code.Some? ==> t == s)
    ensures t == Next(s, ProposeMergeStep(ids, actor))
  {
  }

  lemma MergeIsNext(s: Store, id: nat, approve: bool, actor: string, code: Option<string>, kept: bool, t: Store)
    requires DecideMerge(s, id, approve, actor) == Answer(t, code, kept) && (code.Some? && !kept ==> t == s)
    ensures t == Next(s, MergeStep(id, approve, actor))
  {
  }

  lemma ProposeSplitIsNext(s: Store, e: nat, rids: seq<RecordKey>, order: seq<ObjectKey>, actor: string,
                           code: Option<string>, t: Store)
    requires ProposeSplit(s, e, rids, order, actor) == Answer(t, code, false) && (code.Some? ==> t == s)
    ensures t == Next(s, ProposeSplitStep(e, rids, order, actor))
  {
  }

  lemma SplitIsNext(s: Store, id: nat, approve: bool, actor: string, code: Option<string>, kept: bool, t: Store)
    requires DecideSplit(s, id, approve, actor) == Answer(t, code, kept) && (code.Some? && !kept ==> t == s)
    ensures t == Next(s, SplitStep(id, approve, actor))
  {
  }

  lemma RemasterIsNext(s: Store, domain: string, code: Option<string>, t: Store)
    requires Remaster(s, domain) == Answer(t, code, false) && (code.Some? ==> t == s)
    ensures t == Next(s, RemasterStep(domain))
  {
  }

  /** Absorbing changes no entity's domain and no record. */
  lemma {:induction false} AbsorbKeepsDomains(s: Store, primary: nat, absorbed: seq<nat>, bound: map<nat, nat>)
    requires Absorb(s, primary, absorbed, bound).Commit?
    ensures var t := Absorb(s, primary, absorbed, bound).db;
      t.entities.Keys == s.entities.Keys && forall e :: e in s.entities ==> t.entities[e].domain == s.entities[e].domain
    decreases |absorbed|
  {
    if absorbed != [] {
      var s1 := SetStatus(Move(s, MembersOf(s, absorbed[0]), primary), absorbed[0], Merged);
      AbsorbKeepsDomains(s1, primary, absorbed[1..], bound);
    }
  }

  lemma MergeKeepsTask(s: Store, t: MergeTask, id: nat)
    requires ApplyMerge(s, t).Commit? && id in s.merges
    ensures id in ApplyMerge(s, t).db.merges
  {
  }

  function TombRows(order: seq<ObjectKey>, run: string): seq<Row> {
    seq(|order|, i requires 0 <= i < |order| => Row(order[i].local, Tombstone(run), None))
  }

  lemma {:induction false} TombRowSteps(p: Page, order: seq<ObjectKey>, run: string)
    requires forall i :: 0 <= i < |order| ==> Belongs(p, order[i])
    ensures RowSteps(p, TombRows(order, run)) == TombSteps(order, run)
    decreases |order|
  {
    if order != [] {
      TombRowSteps(p, order[1..], run);
      assert TombRows(order, run)[1..] == TombRows(order[1..], run);
    }
  }

  lemma FilledParts(rows: seq<Row>, given: seq<Row>, tombs: seq<Row>)
    requires Fills(rows, given + tombs) && NoPicks(rows, given + tombs)
    requires forall i :: 0 <= i < |tombs| ==> tombs[i].item.deleted && tombs[i].pick.None?
    ensures Fills(rows[..|given|], given) && rows[|given|..] == tombs
  {
    var n := |given|;
    forall i | 0 <= i < n ensures rows[..n][i] == given[i].(pick := rows[..n][i].pick) {
      assert (given + tombs)[i] == given[i];
    }
    forall i | 0 <= i < |tombs| ensures rows[n..][i] == tombs[i] {
      assert (given + tombs)[n + i] == tombs[i];
    }
  }

  /** The rows processed are the page's rows, then its tombstones. */
  lemma DoneWork(p: Page, done: Page, order: seq<ObjectKey>, rows: seq<Row>)
    requires Fills(rows, p.rows + TombRows(order, RunId(p))) && NoPicks(rows, p.rows + TombRows(order, RunId(p)))
    requires done == p.(rows := rows[..|p.rows|])
    requires forall i :: 0 <= i < |order| ==> Belongs(p, order[i])
    ensures Fills(done.rows, p.rows) && RowSteps(p, rows) == Work(done, order)
  {
    var n := |p.rows|;
    var tombs := TombRows(order, RunId(p));
    FilledParts(rows, p.rows, tombs);
    assert rows[..n] + rows[n..] == rows;
    RowStepsAppend(p, rows[..n], tombs);
    TombRowSteps(p, order, RunId(p));
    SameRowSteps(p, done, rows[..n]);
  }

  lemma {:induction false} SameRowSteps(p: Page, q: Page, rows: seq<Row>)
    requires q.source == p.source && q.domain == p.domain
    ensures RowSteps(p, rows) == RowSteps(q, rows)
    decreases |rows|
  {
    if rows != [] { SameRowSteps(p, q, rows[1..]); }
  }

  /** Opening a run and what it has seen do not depend on the candidates chosen. */
  lemma SameOpening(w: Intake, p: Page, done: Page)
    requires done == p.(rows := done.rows) && Fills(done.rows, p.rows)
    ensures OpenRun(w, done) == OpenRun(w, p) && Allowed(done) == Allowed(p) && Completes(done) == Completes(p)
    ensures Shown(done.rows) == Shown(p.rows) && KeyOf(done) == KeyOf(p) && RunId(done) == RunId(p)
    ensures forall row: RunRow ::
        SeenAfter(row, done) == SeenAfter(row, p) && Checkpointed(row, done) == Checkpointed(row, p)
    ensures Doomed(w, done, OpenRun(w, p)) == Doomed(w, p, OpenRun(w, p))
  {
    forall local ensures local in Shown(done.rows) <==> local in Shown(p.rows) {
      if local in Shown(done.rows) {
        var i :| 0 <= i < |done.rows| && !done.rows[i].item.deleted && done.rows[i].local == local;
        assert p.rows[i].local == local && !p.rows[i].item.deleted;
      }
      if local in Shown(p.rows) {
        var i :| 0 <= i < |p.rows| && !p.rows[i].item.deleted && p.rows[i].local == local;
        assert done.rows[i].local == local && !done.rows[i].item.deleted;
      }
    }
    assert Shown(done.rows) == Shown(p.rows);
  }

  /** The page the loop processed is the page of the specification. */
  lemma PageIngested(w: Intake, p: Page, done: Page, order: seq<ObjectKey>, rows: seq<Row>, committed: bool, t: Store)
    requires Fills(rows, p.rows + TombRows(order, RunId(p))) && NoPicks(rows, p.rows + TombRows(order, RunId(p)))
    requires done == p.(rows := rows[..|p.rows|]) && p.source in w.db.sources && p.domain in w.db.policies
    requires forall i :: 0 <= i < |order| ==> Belongs(p, order[i])
    requires var o := OpenRun(w, p); (o.NoRun? || o.Ready?) && Allowed(p) && Lists(order, Doomed(w, p, o))
    requires committed <==> AllCommit(w.db, RowSteps(p, rows))
    requires committed ==> t == Run(w.db, RowSteps(p, rows))
    ensures Fills(done.rows, p.rows)
    ensures var o := OpenRun(w, p);
      if committed then Ingest(w, done, order) ==
        Commit(Intake(t, if o.Ready? then w.runs[KeyOf(p) := Checkpointed(o.row, p)] else w.runs))
      else Ingest(w, done, order).Abort?
  {
    DoneWork(p, done, order, rows);
    SameOpening(w, p, done);
    IngestedWork(w, done, order, committed, t);
  }

  lemma IngestedWork(w: Intake, done: Page, order: seq<ObjectKey>, committed: bool, t: Store)
    requires done.source in w.db.sources && done.domain in w.db.policies
    requires var o := OpenRun(w, done); (o.NoRun? || o.Ready?) && Allowed(done) && Lists(order, Doomed(w, done, o))
    requires committed <==> AllCommit(w.db, Work(done, order))
    requires committed ==> t == Run(w.db, Work(done, order))
    ensures var o := OpenRun(w, done);
      if committed then Ingest(w, done, order) ==
        Commit(Intake(t, if o.Ready? then w.runs[KeyOf(done) := Checkpointed(o.row, done)] else w.runs))
      else Ingest(w, done, order).Abort?
  {
  }

  /** `inbound_webhook`, from its look-up of earlier answers on. */
  class WebhookInbox {
    const service: MasteringService
    var answered: map<string, (ObjectKey, Item)>

    constructor (owner: MasteringService)
      ensures service == owner && answered == map[]
    {
      service, answered := owner, map[];
    }

    /** Ingestion commits first, the answer is recorded in a second commit; `crash` ends the call between the two. */
    method Handle(id: string, k: ObjectKey, item: Item, crash: bool)
      returns (code: Option<string>, crashed: bool, pick: Option<ObjectKey>)
      requires Grounded(service.db)
      modifies this, service`db
      ensures var h := Hook(old(service.db), old(answered));
        Call(h, id, k, item, pick, crash) ==
          if crashed then CommitThenRaise(Hook(service.db, answered), "crash")
          else if code.None? then Commit(Hook(service.db, answered)) else Abort(code.value)
      ensures code.Some? ==> service.db == old(service.db) && answered == old(answered)
    {
      code, crashed, pick := None, false, None;
      if id in answered {
        if answered[id] != (k, item) { code := Some("webhook_event_id_conflict"); }
        return;
      }
      var refusal: Option<string>;
      refusal, pick := service.ObserveItem(k, item);
      if refusal.Some? { return Some("ingestion_failed"), false, pick; }
      if crash { return None, true, pick; }
      answered := answered[id := (k, item)];
    }
  }

  /** The same rows, with the outcome of each candidate query filled in. */
  predicate Fills(done: seq<Row>, rows: seq<Row>) {
    |done| == |rows| && forall i :: 0 <= i < |rows| ==> done[i] == rows[i].(pick := done[i].pick)
  }

  /** Deletions search for no candidates. */
  predicate NoPicks(done: seq<Row>, rows: seq<Row>) {
    |done| == |rows| && forall i :: 0 <= i < |rows| && rows[i].item.deleted && rows[i].pick.None? ==> done[i].pick.None?
  }

  lemma FillsStep(done: seq<Row>, rows: seq<Row>, i: nat, row: Row)
    requires i < |rows| && |done| == i && Fills(done, rows[..i]) && row == rows[i].(pick := row.pick)
    requires NoPicks(done, rows[..i]) && (rows[i].item.deleted ==> row.pick.None?)
    ensures Fills(done + [row], rows[..i + 1]) && NoPicks(done + [row], rows[..i + 1])
    ensures Fills(done + [row] + rows[i + 1..], rows) && NoPicks(done + [row] + rows[i + 1..], rows)
  {
    var all := done + [row] + rows[i + 1..];
    forall j | 0 <= j < |rows|
      ensures all[j] == rows[j].(pick := all[j].pick)
      ensures rows[j].item.deleted && rows[j].pick.None? ==> all[j].pick.None?
    {
      if j < i { assert rows[..i][j] == rows[j]; }
    }
  }

  lemma TailFails(before: Store, p: Page, a: seq<Row>, b: seq<Row>)
    requires !AllCommit(before, RowSteps(p, a))
    ensures !AllCommit(before, RowSteps(p, a + b))
  {
    RowStepsAppend(p, a, b);
    CommitAppend(before, RowSteps(p, a), RowSteps(p, b));
  }

  lemma {:induction false} RowStepsAppend(p: Page, a: seq<Row>, b: seq<Row>)
    ensures RowSteps(p, a + b) == RowSteps(p, a) + RowSteps(p, b)
    decreases |a|
  {
    if a == [] {
      assert a + b == b;
    } else {
      assert (a + b)[1..] == a[1..] + b;
      RowStepsAppend(p, a[1..], b);
    }
  }

  /** A row processed after a committed prefix. */
  lemma OneMoreRow(before: Store, p: Page, done: seq<Row>, row: Row, s: Store, committed: bool, t: Store)
    requires AllCommit(before, RowSteps(p, done)) && s == Run(before, RowSteps(p, done)) && Grounded(s)
    requires var r := Observe(s, ObjectKey(p.source, p.domain, row.local), row.item, row.pick);
      if committed then r == Commit(t) else r.Abort?
    ensures AllCommit(before, RowSteps(p, done + [row])) <==> committed
    ensures committed ==> t == Run(before, RowSteps(p, done + [row])) && Grounded(t)
  {
    var step := ObserveStep(ObjectKey(p.source, p.domain, row.local), row.item, row.pick);
    RowStepsAppend(p, done, [row]);
    assert RowSteps(p, [row]) == [step];
    CommitAppend(before, RowSteps(p, done), [step]);
    OneStep(s, step);
    NextGrounded(s, step);
  }

  lemma OneStep(s: Store, step: Step)
    ensures AllCommit(s, [step]) <==> Attempt(s, step).Commit?
    ensures Run(s, [step]) == Next(s, step)
  {
    assert [step][1..] == [];
  }

  /** How a method answers: committed, committed and then raised, or rolled back. */
  function Answer(db: Store, code: Option<string>, kept: bool): Reply<Store> {
    if code.None? then Commit(db) else if kept then CommitThenRaise(db, code.value) else Abort(code.value)
  }

  /** The outcome for a best pick within the limit. */
  lemma ResolvesTo(s: Store, k: ObjectKey, rid: RecordKey, pick: Option<ObjectKey>)
    requires JustReceived(s, k, rid)
    requires var keys := s.policies[k.domain].keys(s.records[rid].normalized);
      && |CandidateRows(s, rid, keys)| <= CANDIDATE_LIMIT
      && IsBest(s, s.policies[k.domain], k, s.records[rid].normalized, Candidates(s, rid, keys), pick)
    requires pick.Some? ==> s.objects[pick.value].entity.value in s.entities
    ensures Resolved(s, k, rid, pick) == Commit(
      if pick.None? then Creating(s, k)
      else if VerdictOn(s, s.policies[k.domain], s.records[rid].normalized, pick.value).decision == AutoLink
      then Joining(s, k, s.objects[pick.value].entity.value)
      else Reviewing(s, k, rid, pick.value))
  {
  }

  lemma CandidatesArePlaced(s: Store, rid: RecordKey, keys: seq<string>, rows: seq<ObjectKey>)
    requires Objects(rows) == Candidates(s, rid, keys)
    ensures forall c :: c in rows ==> IsCurrent(s, c) && s.objects[c].entity.Some?
  {
    forall c | c in rows ensures IsCurrent(s, c) && s.objects[c].entity.Some? {
      assert c in Objects(rows);
      var row :| row in CandidateRows(s, rid, keys) && row.0 == c;
    }
  }
}
