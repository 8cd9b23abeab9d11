/** An approved merge of `b` into `a`, followed by an approved split of exactly the current
    contributions `b` had, restores the partition of current objects. */
module MergeSplit {
  import opened Prelude
  import opened Store
  import opened Steps
  import opened Grounding

  // ---- the four transactions ----

  function MergeProposed(s: Store, a: nat, b: nat, actor: string): Store
    requires a in s.entities && b in s.entities
  {
    var task := MergeTask(Open, actor, a, [b], map e | e in [a, b] :: s.entities[e].version);
    s.(merges := s.merges[s.next := task], next := s.next + 1)
  }

  lemma ProposeMergeCommits(s: Store, a: nat, b: nat, actor: string)
    requires Live(s, a) && Live(s, b) && s.entities[a].domain == s.entities[b].domain
    ensures Attempt(s, ProposeMergeStep([a, b], actor)) == Commit(MergeProposed(s, a, b, actor))
  {
    assert [a, b][1..] == [b];
    var r := ProposeMerge(s, [a, b], actor);
    assert r.Commit?;
    assert (map e | e in [a, b] :: s.entities[e].version) == r.db.merges[s.next].bound;
  }

  /** Both entities are as they were when the merge was proposed. */
  ghost predicate MergeReady(s: Store, id: nat, a: nat, b: nat) {
    && id in s.merges && a != b && Live(s, a) && Live(s, b)
    && s.merges[id].status == Open && s.merges[id].primary == a && s.merges[id].absorbed == [b]
    && a in s.merges[id].bound && s.merges[id].bound[a] == s.entities[a].version
    && b in s.merges[id].bound && s.merges[id].bound[b] == s.entities[b].version
  }

  function Swallowed(s: Store, a: nat, b: nat): Store
    requires b in s.entities
  {
    SetStatus(Move(s, MembersOf(s, b), a), b, Merged)
  }

  lemma AbsorbOne(s: Store, id: nat, a: nat, b: nat)
    requires MergeReady(s, id, a, b)
    ensures Absorb(s, a, [b], s.merges[id].bound) == Commit(Swallowed(s, a, b))
  {
    var bound := s.merges[id].bound;
    assert [b][1..] == [];
    assert Absorb(s, a, [b], bound) == Absorb(Swallowed(s, a, b), a, [], bound);
  }

  ghost function MergeDone(s: Store, id: nat, a: nat, b: nat): Store
    requires MergeReady(s, id, a, b)
  {
    var t := Refreshed(Swallowed(s, a, b), a);
    CloseMerge(Emit(t, IdentityMerged(a, |VersionsOf(t, a)|, [b])), id, Accepted)
  }

  lemma DecideMergeCommits(s: Store, id: nat, a: nat, b: nat, actor: string)
    requires MergeReady(s, id, a, b) && actor != s.merges[id].proposedBy
    ensures Attempt(s, MergeStep(id, true, actor)) == Commit(MergeDone(s, id, a, b))
    ensures Next(s, MergeStep(id, true, actor)) == MergeDone(s, id, a, b)
  {
    AbsorbOne(s, id, a, b);
    var t := s.merges[id];
    assert ApplyMerge(s, t) == Commit(Emit(Refreshed(Swallowed(s, a, b), a),
      IdentityMerged(a, |VersionsOf(Refreshed(Swallowed(s, a, b), a), a)|, [b])));
  }

  // ---- what the merge does to memberships ----

  lemma MergedMembers(s: Store, id: nat, a: nat, b: nat)
    requires MergeReady(s, id, a, b)
    ensures var t := MergeDone(s, id, a, b);
      && t.objects.Keys == s.objects.Keys && t.records == s.records && t.next == s.next
      && (forall k :: k in s.objects ==>
            t.objects[k] == s.objects[k].(entity := if In(s, k, b) then Some(a) else s.objects[k].entity))
      && Live(t, a)
  {
  }

  // ---- selecting the contributions to split off ----

  /** Distinct objects have distinct current records. */
  lemma {:induction false} CurrentsCount(s: Store, ks: set<ObjectKey>, rids: set<RecordKey>)
    requires forall k :: k in ks ==>
        k in s.objects && s.objects[k].current.Some? && s.objects[k].current.value.owner == k
    requires rids == set k | k in ks :: s.objects[k].current.value
    ensures |rids| == |ks|
    decreases ks
  {
    if ks != {} {
      var k :| k in ks;
      var r := s.objects[k].current.value;
      var rest := set j | j in ks - {k} :: s.objects[j].current.value;
      CurrentsCount(s, ks - {k}, rest);
      assert rids == rest + {r};
      assert r !in rest by {
        forall j | j in ks - {k} ensures s.objects[j].current.value != r {
          assert s.objects[j].current.value.owner == j;
        }
      }
    }
  }

  /** The list names the current records of exactly the objects `ks`. */
  ghost predicate Names(s: Store, ks: set<ObjectKey>, rids: seq<RecordKey>) {
    && (forall k :: k in ks ==> IsCurrent(s, k))
    && RidSet(rids) == set k | k in ks :: CurrentKey(s, k)
  }

  function CurrentKey(s: Store, k: ObjectKey): RecordKey {
    if k in s.objects && s.objects[k].current.Some? then s.objects[k].current.value else RecordKey(k, "")
  }

  lemma SelectsExactly(s: Store, a: nat, ks: set<ObjectKey>, rids: seq<RecordKey>)
    requires Owned(s) && Names(s, ks, rids) && (forall k :: k in ks ==> In(s, k, a))
    ensures SplitMembers(s, a, rids) == ks
    ensures |SplitMembers(s, a, rids)| == |RidSet(rids)|
  {
    forall k | k in SplitMembers(s, a, rids) ensures k in ks {
      assert s.objects[k].current.value in RidSet(rids);
      var j :| j in ks && CurrentKey(s, j) == s.objects[k].current.value;
      assert CurrentKey(s, j).owner == j && s.objects[k].current.value.owner == k;
    }
    forall k | k in ks ensures k in SplitMembers(s, a, rids) {
      assert IsCurrent(s, k) && In(s, k, a);
      assert CurrentKey(s, k) in RidSet(rids);
    }
    assert RidSet(rids) == set k | k in ks :: s.objects[k].current.value;
    CurrentsCount(s, ks, RidSet(rids));
  }

  function SplitProposed(s: Store, a: nat, order: seq<ObjectKey>, actor: string): Store
    requires a in s.entities
  {
    s.(splits := s.splits[s.next := SplitTask(Open, actor, a, s.entities[a].version, order)], next := s.next + 1)
  }

  lemma ProposeSplitCommits(s: Store, a: nat, ks: set<ObjectKey>, rids: seq<RecordKey>, order: seq<ObjectKey>,
                            actor: string)
    requires Live(s, a) && SplitMembers(s, a, rids) == ks && |ks| == |RidSet(rids)| && Lists(order, ks)
    ensures Attempt(s, ProposeSplitStep(a, rids, order, actor)) == Commit(SplitProposed(s, a, order, actor))
  {
  }

  lemma DecideSplitCommits(s: Store, id: nat, a: nat, ks: set<ObjectKey>, actor: string)
    requires id in s.splits && s.splits[id].status == Open && s.splits[id].entity == a && a in s.entities
    requires s.splits[id].bound == s.entities[a].version && actor != s.splits[id].proposedBy
    requires Lists(s.splits[id].objects, ks) && (forall k :: k in ks ==> In(s, k, a))
    ensures ks <= s.objects.Keys
    ensures StillMembers(s, a, s.splits[id].objects) == ks
    ensures Attempt(s, SplitStep(id, true, actor)) == Commit(CloseSplit(SplitOff(s, a, ks), id, Accepted))
  {
    var order := s.splits[id].objects;
    assert forall k :: k in order <==> k in (set j | j in order);
    assert StillMembers(s, a, order) == ks;
  }

  lemma SplitMembership(s: Store, a: nat, ks: set<ObjectKey>)
    requires a in s.entities && ks <= s.objects.Keys
    requires forall k :: k in ks ==> s.objects[k].entity != Some(s.next)
    ensures var t := SplitOff(s, a, ks);
      && t.objects.Keys == s.objects.Keys && t.records == s.records
      && (forall k :: k in s.objects ==>
            t.objects[k] == s.objects[k].(entity := if k in ks then Some(s.next) else s.objects[k].entity))
  {
  }

  // ---- the round trip ----

  /** The four committed transactions in a row. */
  ghost function RoundTrip(s: Store, a: nat, b: nat, rids: seq<RecordKey>, order: seq<ObjectKey>,
                           proposer: string, approver: string): seq<Step>
  {
    [ProposeMergeStep([a, b], proposer), MergeStep(s.next, true, approver),
     ProposeSplitStep(a, rids, order, proposer), SplitStep(s.next + 1, true, approver)]
  }

  /** Where each object ends. */
  function Destination(s: Store, a: nat, b: nat, k: ObjectKey): Option<nat>
    requires k in s.objects
  {
    if k in Contributors(s, b) then Some(s.next + 2)
    else if In(s, k, b) then Some(a)
    else s.objects[k].entity
  }

  lemma MergeHalf(s: Store, a: nat, b: nat, proposer: string, approver: string)
    requires Grounded(s) && a != b && Live(s, a) && Live(s, b) && s.entities[a].domain == s.entities[b].domain
    requires proposer != approver
    ensures var s1 := MergeProposed(s, a, b, proposer);
      && MergeReady(s1, s.next, a, b)
      && Attempt(s, ProposeMergeStep([a, b], proposer)) == Commit(s1)
      && Attempt(s1, MergeStep(s.next, true, approver)) == Commit(MergeDone(s1, s.next, a, b))
      && Grounded(MergeDone(s1, s.next, a, b))
  {
    var s1 := MergeProposed(s, a, b, proposer);
    ProposeMergeCommits(s, a, b, proposer);
    DecideMergeCommits(s1, s.next, a, b, approver);
    NextGrounded(s, ProposeMergeStep([a, b], proposer));
    NextGrounded(s1, MergeStep(s.next, true, approver));
  }

  lemma SplitHalf(s2: Store, a: nat, ks: set<ObjectKey>, rids: seq<RecordKey>, order: seq<ObjectKey>,
                  proposer: string, approver: string)
    requires Grounded(s2) && Live(s2, a) && proposer != approver
    requires Names(s2, ks, rids) && Lists(order, ks) && (forall k :: k in ks ==> In(s2, k, a))
    ensures var s3 := SplitProposed(s2, a, order, proposer);
      && ks <= s3.objects.Keys
      && Attempt(s2, ProposeSplitStep(a, rids, order, proposer)) == Commit(s3)
      && Attempt(s3, SplitStep(s2.next, true, approver)) == Commit(CloseSplit(SplitOff(s3, a, ks), s2.next, Accepted))
  {
    SelectsExactly(s2, a, ks, rids);
    ProposeSplitCommits(s2, a, ks, rids, order, proposer);
    DecideSplitCommits(SplitProposed(s2, a, order, proposer), s2.next, a, ks, approver);
  }

  lemma MergeJourney(s: Store, a: nat, b: nat, proposer: string, approver: string) returns (s1: Store, s2: Store)
    requires Grounded(s) && a != b && Live(s, a) && Live(s, b) && s.entities[a].domain == s.entities[b].domain
    requires proposer != approver
    ensures Attempt(s, ProposeMergeStep([a, b], proposer)) == Commit(s1)
    ensures Attempt(s1, MergeStep(s.next, true, approver)) == Commit(s2)
    ensures Grounded(s2) && Live(s2, a) && s2.next == s.next + 1
    ensures Merges(s, s2, a, b)
  {
    s1 := MergeProposed(s, a, b, proposer);
    MergeHalf(s, a, b, proposer, approver);
    s2 := MergeDone(s1, s.next, a, b);
    MergeDoneObjects(s, a, b, proposer);
  }

  lemma MergeDoneObjects(s: Store, a: nat, b: nat, proposer: string)
    requires a != b && Live(s, a) && Live(s, b)
    requires MergeReady(MergeProposed(s, a, b, proposer), s.next, a, b)
    ensures var t := MergeDone(MergeProposed(s, a, b, proposer), s.next, a, b);
      Live(t, a) && t.next == s.next + 1 && Merges(s, t, a, b)
  {
    var s1 := MergeProposed(s, a, b, proposer);
    MergedMembers(s1, s.next, a, b);
    assert s1.objects == s.objects;
    assert forall k :: In(s1, k, b) == In(s, k, b);
  }

  lemma SplitJourney(s: Store, a: nat, ks: set<ObjectKey>, rids: seq<RecordKey>, order: seq<ObjectKey>,
                     proposer: string, approver: string) returns (s1: Store, s2: Store)
    requires Grounded(s) && Live(s, a) && proposer != approver
    requires Names(s, ks, rids) && Lists(order, ks) && (forall k :: k in ks ==> In(s, k, a))
    ensures Attempt(s, ProposeSplitStep(a, rids, order, proposer)) == Commit(s1)
    ensures Attempt(s1, SplitStep(s.next, true, approver)) == Commit(s2)
    ensures Splits(s, s2, ks)
  {
    s1 := SplitProposed(s, a, order, proposer);
    s2 := SplitDone(s, a, ks, order, proposer);
    SplitHalf(s, a, ks, rids, order, proposer, approver);
    SplitDoneObjects(s, a, ks, order, proposer);
  }

  ghost function SplitDone(s: Store, a: nat, ks: set<ObjectKey>, order: seq<ObjectKey>, proposer: string): Store
    requires a in s.entities && ks <= s.objects.Keys
  {
    CloseSplit(SplitOff(SplitProposed(s, a, order, proposer), a, ks), s.next, Accepted)
  }

  lemma SplitDoneObjects(s: Store, a: nat, ks: set<ObjectKey>, order: seq<ObjectKey>, proposer: string)
    requires Allocated(s) && a in s.entities && ks <= s.objects.Keys && (forall k :: k in ks ==> In(s, k, a))
    ensures Splits(s, SplitDone(s, a, ks, order, proposer), ks)
  {
    var s1 := SplitProposed(s, a, order, proposer);
    forall k | k in ks ensures s1.objects[k].entity != Some(s1.next) { assert In(s, k, a) && a < s.next; }
    SplitMembership(s1, a, ks);
  }

  /** The four steps of a round trip, each of which commits. */
  lemma WholeTrip(s: Store, a: nat, b: nat, rids: seq<RecordKey>, order: seq<ObjectKey>, proposer: string,
                  approver: string)
    returns (s2: Store, t: Store)
    requires Grounded(s) && a != b && Live(s, a) && Live(s, b) && s.entities[a].domain == s.entities[b].domain
    requires proposer != approver
    requires Names(s, Contributors(s, b), rids) && Lists(order, Contributors(s, b))
    ensures Run(s, RoundTrip(s, a, b, rids, order, proposer, approver)) == t
    ensures Merges(s, s2, a, b) && s2.next == s.next + 1 && Splits(s2, t, Contributors(s, b))
  {
    var s1, s3: Store;
    s1, s2 := MergeJourney(s, a, b, proposer, approver);
    MergedNames(s, s2, a, b, rids);
    s3, t := SplitJourney(s2, a, Contributors(s, b), rids, order, proposer, approver);
    var steps := RoundTrip(s, a, b, rids, order, proposer, approver);
    assert Run(s, steps) == t by {
      assert steps[0] == ProposeMergeStep([a, b], proposer) && steps[1] == MergeStep(s.next, true, approver);
      assert steps[2] == ProposeSplitStep(a, rids, order, proposer) &&
          steps[3] == SplitStep(s.next + 1, true, approver);
      FourSteps(s, s1, s2, s3, t, steps);
    }
  }

  /** The members of `b` are in `a`, and nothing else about objects and records changed. */
  ghost predicate Merges(s: Store, t: Store, a: nat, b: nat) {
    && t.objects.Keys == s.objects.Keys && t.records == s.records
    && forall k :: k in s.objects ==>
         t.objects[k] == s.objects[k].(entity := if In(s, k, b) then Some(a) else s.objects[k].entity)
  }

  /** The objects `ks` are in the new entity, and nothing else about objects and records changed. */
  ghost predicate Splits(s: Store, t: Store, ks: set<ObjectKey>) {
    && t.objects.Keys == s.objects.Keys && t.records == s.records
    && forall k :: k in s.objects ==>
         t.objects[k] == s.objects[k].(entity := if k in ks then Some(s.next + 1) else s.objects[k].entity)
  }

  /** The whole journey: every transaction commits, no object or record is created or lost, and each
      object ends at its destination. */
  lemma RoundTripMoves(s: Store, a: nat, b: nat, rids: seq<RecordKey>, order: seq<ObjectKey>,
                       proposer: string, approver: string)
    requires Grounded(s) && a != b && Live(s, a) && Live(s, b) && s.entities[a].domain == s.entities[b].domain
    requires proposer != approver
    requires Names(s, Contributors(s, b), rids) && Lists(order, Contributors(s, b))
    ensures var t := Run(s, RoundTrip(s, a, b, rids, order, proposer, approver));
      && t.objects.Keys == s.objects.Keys && t.records == s.records
      && (forall k :: k in s.objects ==> t.objects[k] == s.objects[k].(entity := Destination(s, a, b, k)))
  {
    var s2, t := WholeTrip(s, a, b, rids, order, proposer, approver);
    TwoMoves(s, s2, t, a, b);
  }

  lemma TwoMoves(s: Store, s2: Store, t: Store, a: nat, b: nat)
    requires s2.next == s.next + 1 && Merges(s, s2, a, b) && Splits(s2, t, Contributors(s, b))
    ensures forall k :: k in s.objects ==> t.objects[k] == s.objects[k].(entity := Destination(s, a, b, k))
  {
  }

  lemma MergedNames(s: Store, s2: Store, a: nat, b: nat, rids: seq<RecordKey>)
    requires Names(s, Contributors(s, b), rids)
    requires Merges(s, s2, a, b)
    ensures Names(s2, Contributors(s, b), rids)
    ensures forall k :: k in Contributors(s, b) ==> In(s2, k, a)
  {
    forall k | k in Contributors(s, b)
      ensures IsCurrent(s2, k) && In(s2, k, a) && CurrentKey(s2, k) == CurrentKey(s, k)
    {
      assert In(s, k, b);
    }
    assert RidSet(rids) == set k | k in Contributors(s, b) :: CurrentKey(s2, k);
  }

  lemma FourSteps(s: Store, s1: Store, s2: Store, s3: Store, s4: Store, steps: seq<Step>)
    requires |steps| == 4
    requires Attempt(s, steps[0]) == Commit(s1) && Attempt(s1, steps[1]) == Commit(s2)
    requires Attempt(s2, steps[2]) == Commit(s3) && Attempt(s3, steps[3]) == Commit(s4)
    ensures Run(s, steps) == s4
  {
    var t1, t2, t3 := steps[1..], steps[1..][1..], steps[1..][1..][1..];
    assert Run(s, steps) == Run(s1, t1);
    assert t1[0] == steps[1] && Run(s1, t1) == Run(s2, t2);
    assert t2[0] == steps[2] && Run(s2, t2) == Run(s3, t3);
    assert t3[0] == steps[3] && Run(s3, t3) == Run(s4, t3[1..]);
  }

  ghost predicate Together(s: Store, j: ObjectKey, k: ObjectKey) {
    j in s.objects && k in s.objects && s.objects[j].entity.Some? && s.objects[j].entity == s.objects[k].entity
  }

  /** The partition of current objects into entities is restored, up to the name of `b`. */
  lemma PartitionRestored(s: Store, a: nat, b: nat, rids: seq<RecordKey>, order: seq<ObjectKey>,
                          proposer: string, approver: string, j: ObjectKey, k: ObjectKey)
    requires Grounded(s) && a != b && Live(s, a) && Live(s, b) && s.entities[a].domain == s.entities[b].domain
    requires proposer != approver
    requires Names(s, Contributors(s, b), rids) && Lists(order, Contributors(s, b))
    requires IsCurrent(s, j) && IsCurrent(s, k)
    ensures var t := Run(s, RoundTrip(s, a, b, rids, order, proposer, approver));
      && IsCurrent(t, j) && CurrentRecord(t, j) == CurrentRecord(s, j)
      && (Together(t, j, k) <==> Together(s, j, k))
  {
    RoundTripMoves(s, a, b, rids, order, proposer, approver);
    assert forall i :: IsCurrent(s, i) && In(s, i, b) ==> i in Contributors(s, b);
    assert Placed(s, j) ==> s.objects[j].entity.value < s.next;
    assert Placed(s, k) ==> s.objects[k].entity.value < s.next;
  }
}
