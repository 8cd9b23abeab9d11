/** When a proposal is accepted and when a decision commits: every guard of the review work, and nothing else. */
module Decisions {
  import opened Prelude
  import opened Survivorship
  import opened Store
  import opened Steps
  import opened Effects
  import opened Grounding
  import opened PolicyCompiler
  import opened Activation
  import opened Wiring

  // ---- stale tasks ----

  /** The entity a task is bound to has changed its version. */
  predicate Moved(s: Store, e: nat, bound: nat) {
    e in s.entities && s.entities[e].version != bound
  }

  /** The decision is refused for a stale task; the mark is committed and nothing else. */
  lemma StaleMatchIff(s: Store, e: nat, link: bool)
    ensures DecideMatch(s, e, link).CommitThenRaise? <==>
      e in s.matches && s.matches[e].status == Open && Moved(s, e, s.matches[e].bound)
    ensures DecideMatch(s, e, link).CommitThenRaise? ==>
      DecideMatch(s, e, link).db == s.(matches := s.matches[e := s.matches[e].(status := Stale)])
  {
  }

  lemma StaleApprovalIff(s: Store, e: nat, v: nat, approve: bool)
    ensures DecideMaster(s, e, v, approve).CommitThenRaise? <==>
      e in s.versions && v < |s.versions[e]| && s.versions[e][v].review == Open && Moved(s, e, s.versions[e][v].bound)
    ensures DecideMaster(s, e, v, approve).CommitThenRaise? ==>
      DecideMaster(s, e, v, approve).db ==
        s.(versions := s.versions[e := s.versions[e][v := s.versions[e][v].(review := Stale)]])
  {
  }

  lemma StaleMergeIff(s: Store, id: nat, approve: bool, actor: string)
    ensures DecideMerge(s, id, approve, actor).CommitThenRaise? <==>
      && id in s.merges && s.merges[id].status == Open && s.merges[id].primary in s.merges[id].bound
      && Moved(s, s.merges[id].primary, s.merges[id].bound[s.merges[id].primary])
    ensures DecideMerge(s, id, approve, actor).CommitThenRaise? ==>
      DecideMerge(s, id, approve, actor).db == s.(merges := s.merges[id := s.merges[id].(status := Stale)])
  {
  }

  lemma StaleSplitIff(s: Store, id: nat, approve: bool, actor: string)
    ensures DecideSplit(s, id, approve, actor).CommitThenRaise? <==>
      id in s.splits && s.splits[id].status == Open && Moved(s, s.splits[id].entity, s.splits[id].bound)
    ensures DecideSplit(s, id, approve, actor).CommitThenRaise? ==>
      DecideSplit(s, id, approve, actor).db == s.(splits := s.splits[id := s.splits[id].(status := Stale)])
  {
  }

  // ---- refusals ----

  /** Keeping a pair separate commits exactly for an open, current task whose pair has no row yet, and adds that row. */
  lemma SeparationCommitsIff(s: Store, e: nat)
    ensures DecideMatch(s, e, false).Commit? <==>
      && e in s.matches && s.matches[e].status == Open && !Moved(s, e, s.matches[e].bound)
      && {s.matches[e].left, s.matches[e].right} !in s.cannot
    ensures DecideMatch(s, e, false).Commit? ==>
      DecideMatch(s, e, false).db ==
        s.(cannot := s.cannot + {{s.matches[e].left, s.matches[e].right}},
           matches := s.matches[e := s.matches[e].(status := Rejected)])
  {
  }

  lemma ApprovalRefusedIff(s: Store, e: nat, v: nat)
    ensures DecideMaster(s, e, v, false).Commit? <==>
      e in s.versions && v < |s.versions[e]| && s.versions[e][v].review == Open && !Moved(s, e, s.versions[e][v].bound)
    ensures DecideMaster(s, e, v, false).Commit? ==>
      DecideMaster(s, e, v, false).db ==
        s.(versions := s.versions[e := s.versions[e][v := s.versions[e][v].(review := Rejected)]])
  {
  }

  /** A merge is refused by anyone but its proposer. */
  lemma MergeRefusedIff(s: Store, id: nat, actor: string)
    ensures DecideMerge(s, id, false, actor).Commit? <==>
      && id in s.merges && s.merges[id].status == Open && actor != s.merges[id].proposedBy
      && (s.merges[id].primary in s.merges[id].bound ==>
            !Moved(s, s.merges[id].primary, s.merges[id].bound[s.merges[id].primary]))
    ensures DecideMerge(s, id, false, actor).Commit? ==>
      DecideMerge(s, id, false, actor).db == s.(merges := s.merges[id := s.merges[id].(status := Rejected)])
  {
  }

  lemma SplitRefusedIff(s: Store, id: nat, actor: string)
    ensures DecideSplit(s, id, false, actor).Commit? <==>
      && id in s.splits && s.splits[id].status == Open && actor != s.splits[id].proposedBy
      && !Moved(s, s.splits[id].entity, s.splits[id].bound)
    ensures DecideSplit(s, id, false, actor).Commit? ==>
      DecideSplit(s, id, false, actor).db == s.(splits := s.splits[id := s.splits[id].(status := Rejected)])
  {
  }

  // ---- proposals of a merge ----

  /** A merge may be proposed of at least one entity, all unmerged and of one domain; the first is the primary, and the
      versions of all are recorded. */
  lemma MergeProposedIff(s: Store, ids: seq<nat>, actor: string)
    ensures ProposeMerge(s, ids, actor).Commit? <==>
      && ids != []
      && forall e :: e in ids ==>
           && e in s.entities && s.entities[e].status != Merged
           && ids[0] in s.entities && s.entities[e].domain == s.entities[ids[0]].domain
    ensures ProposeMerge(s, ids, actor).Commit? ==>
      var t := ProposeMerge(s, ids, actor).db;
      && t == s.(merges := t.merges, next := s.next + 1) && t.merges == s.merges[s.next := t.merges[s.next]]
      && t.merges[s.next].status == Open && t.merges[s.next].proposedBy == actor
      && t.merges[s.next].primary == ids[0] && t.merges[s.next].absorbed == ids[1..]
      && t.merges[s.next].bound.Keys == (set e | e in ids)
      && forall e :: e in ids ==> t.merges[s.next].bound[e] == s.entities[e].version
  {
    if forall e :: e in ids ==> Live(s, e) && SameDomain(s, e, ids[0]) {
      assert ids != [] ==> ids[0] in ids;
    }
  }

  // ---- proposals of a split ----

  /** The record is the current one of a member of the entity. */
  ghost predicate NamesMember(s: Store, e: nat, rid: RecordKey) {
    rid.owner in s.objects && s.objects[rid.owner].entity == Some(e) && s.objects[rid.owner].current == Some(rid)
  }

  lemma {:induction false} InjectiveCount(s: Store, ks: set<ObjectKey>, rids: set<RecordKey>)
    requires forall k :: k in ks ==> k in s.objects && s.objects[k].current.Some?
    requires forall k :: k in ks ==> s.objects[k].current.value.owner == k
    requires rids == set k | k in ks :: s.objects[k].current.value
    ensures |ks| == |rids|
  {
    if ks != {} {
      var k :| k in ks;
      var rest := ks - {k};
      var images := set j | j in rest :: s.objects[j].current.value;
      InjectiveCount(s, rest, images);
      assert rids == images + {s.objects[k].current.value};
    }
  }

  lemma SubsetCount<T>(a: set<T>, b: set<T>)
    requires a <= b && |a| == |b|
    ensures a == b
  {
    if x :| x in b && x !in a { SmallerCount(a, b - {x}); }
  }

  lemma {:induction false} SmallerCount<T>(a: set<T>, b: set<T>)
    requires a <= b
    ensures |a| <= |b|
  {
    if a != {} {
      var x :| x in a;
      SmallerCount(a - {x}, b - {x});
    }
  }

  /** The count of the selected members equals that of the named records exactly when every named record is the current
      one of a member. */
  lemma CountsAgreeIff(s: Store, e: nat, rids: seq<RecordKey>)
    requires Owned(s)
    ensures |SplitMembers(s, e, rids)| == |RidSet(rids)| <==> forall r :: r in rids ==> NamesMember(s, e, r)
  {
    var ks := SplitMembers(s, e, rids);
    var images := set k | k in ks :: s.objects[k].current.value;
    forall k | k in ks ensures s.objects[k].current.value.owner == k && s.objects[k].current.value in rids {
      assert IsCurrent(s, k);
    }
    InjectiveCount(s, ks, images);
    assert images <= RidSet(rids);
    if |ks| == |RidSet(rids)| {
      SubsetCount(images, RidSet(rids));
      forall r | r in rids ensures NamesMember(s, e, r) {
        assert r in images;
        var k :| k in ks && s.objects[k].current.value == r;
      }
    }
    if forall r :: r in rids ==> NamesMember(s, e, r) {
      forall r | r in RidSet(rids) ensures r in images {
        assert NamesMember(s, e, r) && r.owner in ks;
      }
      assert images == RidSet(rids);
    }
  }

  /** A split may be proposed of an unmerged entity by naming current records of its members, and lists just those. */
  lemma SplitProposedIff(s: Store, e: nat, rids: seq<RecordKey>, order: seq<ObjectKey>, actor: string)
    requires Grounded(s)
    ensures ProposeSplit(s, e, rids, order, actor).Commit? <==>
      && e in s.entities && s.entities[e].status != Merged && (forall r :: r in rids ==> NamesMember(s, e, r))
      && Lists(order, SplitMembers(s, e, rids))
    ensures ProposeSplit(s, e, rids, order, actor).Commit? ==>
      ProposeSplit(s, e, rids, order, actor).db ==
        s.(splits := s.splits[s.next := SplitTask(Open, actor, e, s.entities[e].version, order)], next := s.next + 1)
  {
    CountsAgreeIff(s, e, rids);
  }

  // ---- approval of a split ----

  predicate AllDistinct(ks: seq<ObjectKey>) {
    forall i, j :: 0 <= i < j < |ks| ==> ks[i] != ks[j]
  }

  lemma {:induction false} DistinctCount(ks: seq<ObjectKey>)
    ensures |set k | k in ks| <= |ks|
    ensures |set k | k in ks| == |ks| <==> AllDistinct(ks)
  {
    if ks != [] {
      var n := |ks| - 1;
      DistinctCount(ks[..n]);
      assert ks == ks[..n] + [ks[n]];
      var before := set k | k in ks[..n];
      assert (set k | k in ks) == before + {ks[n]};
      if ks[n] in before {
        var i :| 0 <= i < n && ks[..n][i] == ks[n];
        assert ks[i] == ks[n];
      }
    }
  }

  lemma StillMembersIff(s: Store, e: nat, ks: seq<ObjectKey>)
    ensures |StillMembers(s, e, ks)| == |ks| <==> AllDistinct(ks) && forall k :: k in ks ==> In(s, k, e)
  {
    var all := set k | k in ks;
    DistinctCount(ks);
    SmallerCount(StillMembers(s, e, ks), all);
    if |StillMembers(s, e, ks)| == |ks| { SubsetCount(StillMembers(s, e, ks), all); }
    if forall k :: k in ks ==> In(s, k, e) { assert StillMembers(s, e, ks) == all; }
  }

  /** An approved split commits exactly when its task is open, the decider is not the proposer, the entity is at its
      bound version, and every listed object is listed once and still a member. */
  lemma SplitCommitsIff(s: Store, id: nat, actor: string)
    ensures DecideSplit(s, id, true, actor).Commit? <==>
      && id in s.splits && s.splits[id].status == Open && actor != s.splits[id].proposedBy
      && s.splits[id].entity in s.entities && s.entities[s.splits[id].entity].version == s.splits[id].bound
      && AllDistinct(s.splits[id].objects)
      && forall k :: k in s.splits[id].objects ==> k in s.objects && s.objects[k].entity == Some(s.splits[id].entity)
  {
    if id in s.splits { StillMembersIff(s, s.splits[id].entity, s.splits[id].objects); }
  }

  // ---- what a merge and a split announce ----

  lemma AppliedMergeAnnounces(s: Store, t: MergeTask)
    requires ApplyMerge(s, t).Commit?
    ensures var u := ApplyMerge(s, t).db;
      && t.primary in s.entities && t.primary in u.entities && VersionsOf(u, t.primary) != []
      && u.outbox == s.outbox + [IdentityMerged(t.primary, |VersionsOf(u, t.primary)|, t.absorbed)]
      && u.entities[t.primary].version == s.entities[t.primary].version + 1
      && VersionsOf(u, t.primary)[|VersionsOf(u, t.primary)| - 1].review == Open
      && VersionsOf(u, t.primary)[|VersionsOf(u, t.primary)| - 1].bound == u.entities[t.primary].version
      && |VersionsOf(u, t.primary)| == |VersionsOf(s, t.primary)| + 1
  {
    AbsorbKeepsPrimary(s, t.primary, t.absorbed, t.bound);
  }

  lemma {:induction false} AbsorbKeepsPrimary(s: Store, primary: nat, absorbed: seq<nat>, bound: map<nat, nat>)
    requires Absorb(s, primary, absorbed, bound).Commit? && primary in s.entities
    ensures Absorb(s, primary, absorbed, bound).db.entities[primary].version == s.entities[primary].version
    decreases |absorbed|
  {
    if absorbed != [] {
      AbsorbKeepsPrimary(SetStatus(Move(s, MembersOf(s, absorbed[0]), primary), absorbed[0], Merged), primary,
                         absorbed[1..], bound);
    }
  }

  /** A committed merge bumps its primary, gives it one new version to approve, and announces the number of that
      version and the absorbed entities. */
  lemma MergeAnnounces(s: Store, id: nat, actor: string)
    requires DecideMerge(s, id, true, actor).Commit?
    ensures var u := DecideMerge(s, id, true, actor).db;
      var task := s.merges[id];
      && task.primary in s.entities && task.primary in u.entities && VersionsOf(u, task.primary) != []
      && u.outbox == s.outbox + [IdentityMerged(task.primary, |VersionsOf(u, task.primary)|, task.absorbed)]
      && u.entities[task.primary].version == s.entities[task.primary].version + 1
      && VersionsOf(u, task.primary)[|VersionsOf(u, task.primary)| - 1].review == Open
      && VersionsOf(u, task.primary)[|VersionsOf(u, task.primary)| - 1].bound == u.entities[task.primary].version
      && |VersionsOf(u, task.primary)| == |VersionsOf(s, task.primary)| + 1
  {
    AppliedMergeAnnounces(s, s.merges[id]);
  }

  lemma SplitOffAnnounces(s: Store, e: nat, ks: set<ObjectKey>)
    requires e in s.entities && ks <= s.objects.Keys && s.next !in s.entities
    ensures var u := SplitOff(s, e, ks);
      && u.outbox == s.outbox + [IdentitySplit(e, s.entities[e].version + 1, s.next)]
      && u.entities ==
           s.entities[s.next := Entity(s.entities[e].domain, Candidate, 1)]
                     [e := s.entities[e].(version := s.entities[e].version + 1)]
      && u.objects.Keys == s.objects.Keys
      && forall k :: k in s.objects ==> u.objects[k] == if k in ks then s.objects[k].(entity := Some(s.next))
          else s.objects[k]
  {
  }

  /** A committed split moves exactly the listed objects to a new candidate of the same domain, bumps the entity, and
      announces both. */
  lemma SplitAnnounces(s: Store, id: nat, actor: string)
    requires Allocated(s) && DecideSplit(s, id, true, actor).Commit?
    ensures var u := DecideSplit(s, id, true, actor).db;
      var task := s.splits[id];
      && task.entity in s.entities
      && u.outbox == s.outbox + [IdentitySplit(task.entity, s.entities[task.entity].version + 1, s.next)]
      && u.entities ==
           s.entities[s.next := Entity(s.entities[task.entity].domain, Candidate, 1)]
                     [task.entity := s.entities[task.entity].(version := s.entities[task.entity].version + 1)]
      && u.objects.Keys == s.objects.Keys
      && forall k :: k in s.objects ==>
           u.objects[k] == if k in task.objects then s.objects[k].(entity := Some(s.next)) else s.objects[k]
  {
    SplitCommitsIff(s, id, actor);
    DecideSplitCases(s, id, true, actor);
    var task := s.splits[id];
    SplitOffAnnounces(s, task.entity, StillMembers(s, task.entity, task.objects));
    assert StillMembers(s, task.entity, task.objects) == set k | k in task.objects;
  }

  // ---- the choice of a candidate ----

  /** The row of the candidate query for object `c`: it is current and placed, of the domain, and one of its index rows
      has one of the keys. */
  ghost predicate Found(s: Store, k: ObjectKey, rid: RecordKey, keys: seq<string>, c: ObjectKey) {
    && IsCurrent(s, c) && s.objects[c].entity.Some? && c.domain == rid.owner.domain && s.objects[c].current != Some(rid)
    && exists key :: key in keys && Block(s.objects[c].current.value, key) in s.blocks
  }

  /** The comparison links or reviews the candidate, no cannot-link row names the two, and no current member of its
      entity contradicts the record. */
  ghost predicate MayLink(s: Store, rules: Rules, k: ObjectKey, n: Values, c: ObjectKey)
    requires IsCurrent(s, c) && s.objects[c].entity.Some?
  {
    && rules.compare(n, CurrentRecord(s, c).normalized).decision in {AutoLink, Review} && {k, c} !in s.cannot
    && forall m :: IsCurrent(s, m) && s.objects[m].entity == s.objects[c].entity ==>
         !rules.compare(n, CurrentRecord(s, m).normalized).contradicted
  }

  lemma FoundIff(s: Store, k: ObjectKey, rid: RecordKey, keys: seq<string>, c: ObjectKey)
    ensures c in Candidates(s, rid, keys) <==> Found(s, k, rid, keys, c)
  {
    if Found(s, k, rid, keys, c) {
      var key :| key in keys && Block(s.objects[c].current.value, key) in s.blocks;
      assert Joined(s, rid, keys, c, Block(s.objects[c].current.value, key));
      assert (c, key) in CandidateRows(s, rid, keys);
    }
    if c in Candidates(s, rid, keys) {
      var row :| row in CandidateRows(s, rid, keys) && row.0 == c;
      var b :| b in s.blocks && Joined(s, rid, keys, c, b) && b.key == row.1;
      assert b == Block(s.objects[c].current.value, b.key);
    }
  }

  lemma MayLinkIff(s: Store, rules: Rules, k: ObjectKey, n: Values, c: ObjectKey)
    requires IsCurrent(s, c) && s.objects[c].entity.Some?
    ensures Eligible(s, rules, k, n, c) <==> MayLink(s, rules, k, n, c)
  {
    forall m
      ensures m in Contributors(s, s.objects[c].entity.value) <==>
        IsCurrent(s, m) && s.objects[m].entity == s.objects[c].entity
    {
    }
  }

  /** Resolution that commits without a candidate found none that may be linked; with one, the candidate may be linked,
      and none that may be linked scores higher. */
  lemma ChoiceIsBest(s: Store, k: ObjectKey, rid: RecordKey, pick: Option<ObjectKey>)
    requires k in s.objects && k.domain in s.policies && rid in s.records && Resolved(s, k, rid, pick).Commit?
    ensures var rules, n := s.policies[k.domain], s.records[rid].normalized;
      if pick.None? then forall c :: Found(s, k, rid, rules.keys(n), c) ==> !MayLink(s, rules, k, n, c)
      else
        && Found(s, k, rid, rules.keys(n), pick.value) && MayLink(s, rules, k, n, pick.value)
        && forall c :: Found(s, k, rid, rules.keys(n), c) && MayLink(s, rules, k, n, c) ==>
             rules.compare(n, CurrentRecord(s, c).normalized).score <=
             rules.compare(n, CurrentRecord(s, pick.value).normalized).score
  {
    var rules, n := s.policies[k.domain], s.records[rid].normalized;
    if pick.Some? {
      FoundIff(s, k, rid, rules.keys(n), pick.value);
      MayLinkIff(s, rules, k, n, pick.value);
    }
    forall c | Found(s, k, rid, rules.keys(n), c)
      ensures c in Candidates(s, rid, rules.keys(n)) && (Eligible(s, rules, k, n, c) <==> MayLink(s, rules, k, n, c))
    {
      FoundIff(s, k, rid, rules.keys(n), c);
      MayLinkIff(s, rules, k, n, c);
    }
  }

  // ---- the candidate limit ----

  /** Resolution is given up exactly when the candidate query has more than two hundred rows. */
  lemma OverflowIff(s: Store, k: ObjectKey, rid: RecordKey, pick: Option<ObjectKey>)
    requires k in s.objects && k.domain in s.policies && rid in s.records
    ensures Resolved(s, k, rid, pick) == Abort("candidate_block_overflow") <==>
      |CandidateRows(s, rid, s.policies[k.domain].keys(s.records[rid].normalized))| > 200
  {
  }

  // ---- configurations ----

  /** A configuration is proposed exactly as a draft with a simulation of its own whose data have not changed since;
      older proposals go stale. */
  lemma ConfigProposedIff(d: Desk, config: nat, simulation: nat, actor: string)
    ensures ProposeConfig(d, config, simulation, actor).Commit? <==>
      && config < |d.configs| && d.configs[config].status == Drafted
      && simulation < |d.simulations| && d.simulations[simulation].config == config
      && d.simulations[simulation].snapshot == SnapshotOf(d)
    ensures ProposeConfig(d, config, simulation, actor).Commit? ==>
      var t := ProposeConfig(d, config, simulation, actor).db;
      && t == d.(tasks := t.tasks) && |t.tasks| == |d.tasks| + 1
      && t.tasks[|d.tasks|] == ConfigTask(Open, actor, config, simulation, d.configs[config].document)
      && forall i :: 0 <= i < |d.tasks| ==>
           t.tasks[i] == if d.tasks[i].status == Open then d.tasks[i].(status := Stale) else d.tasks[i]
  {
  }

  /** An approved configuration commits exactly when its task is open, the decider is not the proposer, draft,
      simulation and document are those proposed, the data are those simulated, and it compiles. */
  lemma ConfigApprovedIff(lib: Library, d: Desk, task: nat, actor: string, jobs: seq<RemasterJob>)
    ensures DecideConfig(lib, d, task, true, actor, jobs).Commit? <==>
      && task < |d.tasks| && d.tasks[task].status == Open && actor != d.tasks[task].proposedBy
      && d.tasks[task].config < |d.configs| && d.configs[d.tasks[task].config].status == Drafted
      && d.tasks[task].simulation < |d.simulations|
      && d.simulations[d.tasks[task].simulation].config == d.tasks[task].config
      && d.configs[d.tasks[task].config].document == d.tasks[task].checksum
      && d.simulations[d.tasks[task].simulation].snapshot == SnapshotOf(d)
      && Compiles(lib, d.definitions, d.configs[d.tasks[task].config].document)
      && JobsOf(lib, d.configs[d.tasks[task].config].document, jobs)
  {
  }

  /** The fingerprint is the same exactly when every object has the same records, place and retirement, every entity the
      same version and status, and the cannot-link rows and the definitions are the same. */
  lemma SnapshotsAgreeIff(d: Desk, t: Desk)
    ensures SnapshotOf(d) == SnapshotOf(t) <==>
      && d.db.objects.Keys == t.db.objects.Keys && d.db.entities.Keys == t.db.entities.Keys
      && (forall k :: k in d.db.objects ==>
            && d.db.objects[k].current == t.db.objects[k].current && d.db.objects[k].latest == t.db.objects[k].latest
            && d.db.objects[k].entity == t.db.objects[k].entity && d.db.objects[k].retired == t.db.objects[k].retired)
      && (forall e :: e in d.db.entities ==>
            && d.db.entities[e].version == t.db.entities[e].version
            && d.db.entities[e].status == t.db.entities[e].status)
      && d.db.cannot == t.db.cannot && d.definitions == t.definitions
  {
    var a, b := SnapshotOf(d), SnapshotOf(t);
    if a == b {
      assert a.objects.Keys == d.db.objects.Keys && b.objects.Keys == t.db.objects.Keys;
      assert a.entities.Keys == d.db.entities.Keys && b.entities.Keys == t.db.entities.Keys;
      forall k | k in d.db.objects
        ensures d.db.objects[k].current == t.db.objects[k].current && d.db.objects[k].latest == t.db.objects[k].latest
        ensures d.db.objects[k].entity == t.db.objects[k].entity && d.db.objects[k].retired == t.db.objects[k].retired
      {
        assert a.objects[k] == b.objects[k];
      }
      forall e | e in d.db.entities
        ensures d.db.entities[e].version == t.db.entities[e].version
        ensures d.db.entities[e].status == t.db.entities[e].status
      {
        assert a.entities[e] == b.entities[e];
      }
    }
  }

  lemma ActivatedDomains(lib: Library, d: Desk, task: nat, config: nat, jobs: seq<RemasterJob>, domain: string)
    requires task < |d.tasks| && config < |d.configs| && Compiles(lib, d.definitions, d.configs[config].document)
    ensures var t := Activated(lib, d, task, config, jobs);
      var document := d.configs[config].document;
      && (domain in document ==>
            && domain in t.definitions && t.definitions[domain] == Plain(Compile(lib, document[domain]).value.document)
            && domain in t.db.policies
            && t.db.policies[domain] == RulesOf(lib, Compile(lib, document[domain]).value.document))
      && (domain !in document && domain in d.definitions ==>
            domain in t.definitions && t.definitions[domain] == d.definitions[domain])
      && (domain !in document && domain in d.db.policies ==>
            domain in t.db.policies && t.db.policies[domain] == d.db.policies[domain])
  {
  }

  lemma ActivatedRest(lib: Library, d: Desk, task: nat, config: nat, jobs: seq<RemasterJob>)
    requires task < |d.tasks| && config < |d.configs| && Compiles(lib, d.definitions, d.configs[config].document)
    ensures var t := Activated(lib, d, task, config, jobs);
      && t.db == d.db.(policies := t.db.policies) && t.jobs == d.jobs + jobs && t.simulations == d.simulations
      && t.tasks == d.tasks[task := d.tasks[task].(status := Accepted)]
      && |t.configs| == |d.configs| && t.configs[config] == d.configs[config].(status := Active)
      && forall i :: 0 <= i < |d.configs| && i != config ==>
           t.configs[i] == if d.configs[i].status == Active then d.configs[i].(status := Retired) else d.configs[i]
  {
  }

  lemma ApprovalActivates(lib: Library, d: Desk, task: nat, actor: string, jobs: seq<RemasterJob>)
    requires DecideConfig(lib, d, task, true, actor, jobs).Commit?
    ensures task < |d.tasks| && d.tasks[task].config < |d.configs|
    ensures Compiles(lib, d.definitions, d.configs[d.tasks[task].config].document)
    ensures DecideConfig(lib, d, task, true, actor, jobs).db == Activated(lib, d, task, d.tasks[task].config, jobs)
  {
  }

  /** An activation replaces the definition and the policy of each domain its document names by the compiled ones and
      leaves those of the others alone. */
  lemma ActivationReplaces(lib: Library, d: Desk, task: nat, actor: string, jobs: seq<RemasterJob>, domain: string)
    requires DecideConfig(lib, d, task, true, actor, jobs).Commit?
    ensures task < |d.tasks| && d.tasks[task].config < |d.configs|
    ensures Compiles(lib, d.definitions, d.configs[d.tasks[task].config].document)
    ensures var t := DecideConfig(lib, d, task, true, actor, jobs).db;
      var document := d.configs[d.tasks[task].config].document;
      && (domain in document ==>
            && domain in t.definitions && t.definitions[domain] == Plain(Compile(lib, document[domain]).value.document)
            && domain in t.db.policies
            && t.db.policies[domain] == RulesOf(lib, Compile(lib, document[domain]).value.document))
      && (domain !in document && domain in d.definitions ==>
            domain in t.definitions && t.definitions[domain] == d.definitions[domain])
      && (domain !in document && domain in d.db.policies ==>
            domain in t.db.policies && t.db.policies[domain] == d.db.policies[domain])
  {
    ApprovalActivates(lib, d, task, actor, jobs);
    ActivatedDomains(lib, d, task, d.tasks[task].config, jobs, domain);
  }

  /** It touches no data, retires the configuration active before, accepts its task and files its jobs. */
  lemma ActivationKeepsData(lib: Library, d: Desk, task: nat, actor: string, jobs: seq<RemasterJob>)
    requires DecideConfig(lib, d, task, true, actor, jobs).Commit?
    ensures task < |d.tasks| && d.tasks[task].config < |d.configs|
    ensures var t := DecideConfig(lib, d, task, true, actor, jobs).db;
      var c := d.tasks[task].config;
      && t.db == d.db.(policies := t.db.policies) && t.jobs == d.jobs + jobs && t.simulations == d.simulations
      && t.tasks == d.tasks[task := d.tasks[task].(status := Accepted)]
      && |t.configs| == |d.configs| && t.configs[c] == d.configs[c].(status := Active)
      && forall i :: 0 <= i < |d.configs| && i != c ==>
           t.configs[i] == if d.configs[i].status == Active then d.configs[i].(status := Retired) else d.configs[i]
  {
    ApprovalActivates(lib, d, task, actor, jobs);
    ActivatedRest(lib, d, task, d.tasks[task].config, jobs);
  }

  /** A remaster job runs exactly under the definition it was filed for: the domain's stored definition still compiles
      to the document of the job. */
  lemma JobRunsIff(lib: Library, d: Desk, job: RemasterJob)
    ensures RunRemaster(lib, d, job).Commit? <==>
      && job.domain in d.definitions && job.domain in d.db.policies
      && Compile(lib, d.definitions[job.domain]).Ok?
      && Compile(lib, d.definitions[job.domain]).value.document == job.checksum
    ensures RunRemaster(lib, d, job).Commit? ==>
      RunRemaster(lib, d, job).db == d.(db := Next(d.db, RemasterStep(job.domain)))
  {
  }

  /** Sources are replaced with a priority from 1 to 10000, and nothing else changes. */
  lemma PriorityReplacedIff(d: Desk, source: string, priority: int)
    ensures ReplacePriority(d, source, priority).Commit? <==> 1 <= priority <= 10000 && source in d.db.sources
    ensures ReplacePriority(d, source, priority).Commit? ==>
      ReplacePriority(d, source, priority).db == d.(db := d.db.(sources := d.db.sources[source := priority]))
  {
  }
}
