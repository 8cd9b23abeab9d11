/** How an entity without members gets members again. A merged entity is not empty for good: nothing tests the status of
    a link's target or of a merge's primary. */
module Refilling {
  import opened Prelude
  import opened Store
  import opened Steps
  import opened Effects
  import opened Grounding
  import opened Separation
  import opened MergeSplit
  import opened Limits

  ghost predicate Peopled(s: Store, e: nat) {
    exists k :: In(s, k, e)
  }

  // ---- the guards of a merge ----

  /** Every absorbed entity is unmerged, at its bound version, and named once. */
  ghost predicate Absorbable(s: Store, absorbed: seq<nat>, bound: map<nat, nat>) {
    && (forall b :: b in absorbed ==> Live(s, b) && b in bound && bound[b] == s.entities[b].version)
    && (forall i, j :: 0 <= i < j < |absorbed| ==> absorbed[i] != absorbed[j])
  }

  lemma AbsorbableTail(s: Store, s1: Store, absorbed: seq<nat>, bound: map<nat, nat>)
    requires absorbed != [] && Live(s, absorbed[0]) && absorbed[0] in bound
    requires bound[absorbed[0]] == s.entities[absorbed[0]].version
    requires s1.entities == s.entities[absorbed[0] := s.entities[absorbed[0]].(status := Merged)]
    ensures Absorbable(s, absorbed, bound) <==> Absorbable(s1, absorbed[1..], bound)
  {
    var rest := absorbed[1..];
    assert absorbed == [absorbed[0]] + rest;
    if Absorbable(s1, rest, bound) {
      assert absorbed[0] !in rest by { assert !Live(s1, absorbed[0]); }
      forall b | b in absorbed ensures Live(s, b) && b in bound && bound[b] == s.entities[b].version {
        assert b == absorbed[0] || b in rest;
      }
    }
    if Absorbable(s, absorbed, bound) {
      forall i, j | 0 <= i < j < |rest| ensures rest[i] != rest[j] { assert absorbed[i + 1] != absorbed[j + 1]; }
      forall b | b in rest ensures Live(s1, b) && b in bound && bound[b] == s1.entities[b].version {
        var i :| 0 <= i < |rest| && rest[i] == b;
        assert absorbed[0] != absorbed[i + 1] && b in absorbed;
      }
    }
  }

  lemma {:induction false} AbsorbCommitsIff(s: Store, primary: nat, absorbed: seq<nat>, bound: map<nat, nat>)
    ensures Absorb(s, primary, absorbed, bound).Commit? <==> Absorbable(s, absorbed, bound)
    decreases |absorbed|
  {
    if absorbed != [] {
      var b := absorbed[0];
      if Live(s, b) && b in bound && bound[b] == s.entities[b].version {
        var s1 := SetStatus(Move(s, MembersOf(s, b), primary), b, Merged);
        AbsorbCommitsIff(s1, primary, absorbed[1..], bound);
        AbsorbableTail(s, s1, absorbed, bound);
      } else {
        assert b in absorbed;
      }
    }
  }

  /** The guards of a merge, in the order of the source; the primary's status is not among them. */
  ghost predicate MergeHolds(s: Store, id: nat, actor: string) {
    && id in s.merges && s.merges[id].status == Open && actor != s.merges[id].proposedBy
    && s.merges[id].primary in s.entities && s.merges[id].primary in s.merges[id].bound
    && s.merges[id].bound[s.merges[id].primary] == s.entities[s.merges[id].primary].version
    && Absorbable(s, s.merges[id].absorbed, s.merges[id].bound)
  }

  lemma MergeCommitsIff(s: Store, id: nat, actor: string)
    ensures DecideMerge(s, id, true, actor).Commit? <==> MergeHolds(s, id, actor)
  {
    if id in s.merges { AbsorbCommitsIff(s, s.merges[id].primary, s.merges[id].absorbed, s.merges[id].bound); }
  }

  lemma LinkCommitsIff(s: Store, e: nat)
    ensures DecideMatch(s, e, true).Commit? <==> LinkHolds(s, e)
  {
  }

  // ---- what each step does to an entity without members ----

  /** The two steps that put members into `e`. */
  ghost predicate Refills(s: Store, step: Step, e: nat) {
    || (step.MatchStep? && step.link && LinkHolds(s, step.e)
        && s.matches[step.e].target == e && Peopled(s, step.e))
    || (step.MergeStep? && step.approve && MergeHolds(s, step.id, step.actor)
        && s.merges[step.id].primary == e && exists b :: b in s.merges[step.id].absorbed && Peopled(s, b))
  }

  /** No object enters `e`. */
  ghost predicate NobodyEnters(s: Store, t: Store, e: nat) {
    forall k :: In(t, k, e) ==> In(s, k, e)
  }

  lemma PlacedElsewhere(s: Store, t: Store, k: ObjectKey, f: nat, e: nat)
    requires k in s.objects && t.objects == s.objects[k := s.objects[k].(entity := Some(f))] && f != e
    ensures NobodyEnters(s, t, e)
  {
  }

  lemma PlacingEnters(s: Store, k: ObjectKey, rid: RecordKey, pick: Option<ObjectKey>, t: Store, e: nat)
    requires Allocated(s) && Placing(s, k, rid, pick, t) && e in s.entities && !Peopled(s, e)
    ensures NobodyEnters(s, t, e)
  {
    if t == Creating(s, k) {
      CreatingRows(s, k);
      PlacedElsewhere(s, t, k, s.next, e);
    } else {
      var f := s.objects[pick.value].entity.value;
      assert In(s, pick.value, f);
      if t == Joining(s, k, f) {
        JoiningRows(s, k, f);
        PlacedElsewhere(s, t, k, f, e);
      } else {
        ReviewingRows(s, k, rid, pick.value);
        PlacedElsewhere(s, t, k, s.next, e);
      }
    }
  }

  lemma SettlesEnters(s: Store, k: ObjectKey, rid: RecordKey, pick: Option<ObjectKey>, t: Store, e: nat)
    requires Allocated(s) && Settles(s, k, rid, pick, t) && e in s.entities && !Peopled(s, e)
    ensures NobodyEnters(s, t, e)
  {
    if t == s {
    } else if Placing(s, k, rid, pick, t) {
      PlacingEnters(s, k, rid, pick, t, e);
    } else {
      assert t.objects == s.objects;
    }
  }

  lemma ReceivedEnters(s: Store, k: ObjectKey, item: Item, e: nat)
    requires k.domain in s.policies && !Peopled(s, e)
    ensures NobodyEnters(s, Received(s, k, item), e) && !Peopled(Received(s, k, item), e)
  {
  }

  lemma ObserveEnters(s: Store, k: ObjectKey, item: Item, pick: Option<ObjectKey>, r: Reply<Store>, e: nat)
    requires Grounded(s) && ObserveOutcome(s, k, item, pick, r) && e in s.entities && !Peopled(s, e)
    ensures NobodyEnters(s, After(s, r), e)
  {
    if r.Commit? && RecordKey(k, item.version) !in s.records {
      var s1 := Received(s, k, item);
      ReceivedGrounded(s, k, item);
      ReceivedEnters(s, k, item, e);
      SettlesEnters(s1, k, RecordKey(k, item.version), pick, r.db, e);
    }
  }

  lemma SamePeople(s: Store, t: Store, e: nat)
    requires t.objects == s.objects
    ensures Peopled(t, e) <==> Peopled(s, e)
  {
    assert forall k :: In(t, k, e) <==> In(s, k, e);
  }

  lemma LinkPeople(s: Store, t: Store, f: nat, target: nat, e: nat)
    requires t.objects.Keys == s.objects.Keys && !Peopled(s, e)
    requires forall j :: j in t.objects ==>
        t.objects[j].entity == if In(s, j, f) then Some(target) else s.objects[j].entity
    ensures Peopled(t, e) <==> target == e && Peopled(s, f)
  {
    if k :| In(t, k, e) { assert !In(s, k, e) && In(s, k, f); }
    if k :| In(s, k, f) { assert In(t, k, target); }
  }

  lemma MatchEnters(s: Store, f: nat, link: bool, r: Reply<Store>, e: nat)
    requires MatchOutcome(s, f, link, r) && !Peopled(s, e)
    ensures Peopled(After(s, r), e) <==> r.Commit? && link && s.matches[f].target == e && Peopled(s, f)
  {
    if r.Commit? && link {
      LinkIntoRows(s, f, s.matches[f].target);
      LinkPeople(s, r.db, f, s.matches[f].target, e);
    } else {
      SamePeople(s, After(s, r), e);
    }
  }

  lemma MergeEnters(s: Store, id: nat, approve: bool, r: Reply<Store>, e: nat)
    requires MergeOutcome(s, id, approve, r) && !Peopled(s, e)
    ensures Peopled(After(s, r), e) <==>
      r.Commit? && approve && s.merges[id].primary == e && exists b :: b in s.merges[id].absorbed && Peopled(s, b)
  {
    if r.Commit? && approve {
      ApplyMergeGathers(s, s.merges[id]);
      GathersPeople(s, r.db, s.merges[id].primary, s.merges[id].absorbed, e);
    } else {
      SamePeople(s, After(s, r), e);
    }
  }

  lemma GathersPeople(s: Store, t: Store, primary: nat, absorbed: seq<nat>, e: nat)
    requires Gathers(s, t, primary, absorbed) && !Peopled(s, e)
    ensures Peopled(t, e) <==> primary == e && exists b :: b in absorbed && Peopled(s, b)
  {
    if k :| In(t, k, e) {
      assert !In(s, k, e) && Swept(s, absorbed, k);
      var i :| 0 <= i < |absorbed| && In(s, k, absorbed[i]);
      assert absorbed[i] in absorbed && Peopled(s, absorbed[i]);
    }
    if primary == e && exists b :: b in absorbed && Peopled(s, b) {
      var b :| b in absorbed && Peopled(s, b);
      var k :| In(s, k, b);
      var i :| 0 <= i < |absorbed| && absorbed[i] == b;
      assert In(s, k, absorbed[i]) && Swept(s, absorbed, k);
      assert In(t, k, e);
    }
  }

  lemma SplitEnters(s: Store, id: nat, approve: bool, r: Reply<Store>, e: nat)
    requires Allocated(s) && SplitOutcome(s, id, approve, r) && e in s.entities
    ensures NobodyEnters(s, After(s, r), e)
  {
    if r.Commit? && approve { SplittingEnters(s, id, e); }
  }

  lemma SplittingEnters(s: Store, id: nat, e: nat)
    requires id in s.splits && s.splits[id].entity in s.entities && e != s.next
    ensures NobodyEnters(s, Splitting(s, id), e)
  {
  }

  lemma MasterEnters(s: Store, f: nat, v: nat, approve: bool, r: Reply<Store>, e: nat)
    requires MasterOutcome(s, f, v, approve, r)
    ensures NobodyEnters(s, After(s, r), e)
  {
    if r.Commit? && approve { assert r.db.objects == s.objects; }
  }

  lemma RemasterEnters(s: Store, domain: string, e: nat)
    ensures NobodyEnters(s, Next(s, RemasterStep(domain)), e)
  {
    assert Next(s, RemasterStep(domain)).objects == s.objects;
  }

  lemma ActivateEnters(s: Store, domain: string, rules: Rules, e: nat)
    ensures NobodyEnters(s, Next(s, ActivateStep(domain, rules)), e)
  {
    assert Next(s, ActivateStep(domain, rules)).objects == s.objects;
  }

  lemma OthersEnter(s: Store, step: Step, e: nat)
    requires Grounded(s) && e in s.entities && !Peopled(s, e) && !step.MatchStep? && !step.MergeStep?
    ensures NobodyEnters(s, Next(s, step), e)
  {
    match step
    case ObserveStep(k, item, pick) =>
      ObserveCases(s, k, item, pick);
      ObserveEnters(s, k, item, pick, Attempt(s, step), e);
    case MasterStep(f, v, approve) =>
      DecideMasterCases(s, f, v, approve);
      MasterEnters(s, f, v, approve, Attempt(s, step), e);
    case SplitStep(id, approve, actor) =>
      DecideSplitCases(s, id, approve, actor);
      SplitEnters(s, id, approve, Attempt(s, step), e);
    case RemasterStep(domain) => RemasterEnters(s, domain, e);
    case ActivateStep(domain, rules) => ActivateEnters(s, domain, rules, e);
    case _ => AdministrativeAside(s, step);
  }

  /** An entity without members gets members exactly by a link into it from an entity that has some, or by a merge
      into it that absorbs an entity that has some, each under its guards. */
  lemma EmptyEntityRefillsIff(s: Store, step: Step, e: nat)
    requires Grounded(s) && e in s.entities && !Peopled(s, e)
    ensures Peopled(Next(s, step), e) <==> Refills(s, step, e)
  {
    match step
    case MatchStep(f, link) =>
      DecideMatchCases(s, f, link);
      MatchEnters(s, f, link, Attempt(s, step), e);
      LinkCommitsIff(s, f);
    case MergeStep(id, approve, actor) =>
      DecideMergeCases(s, id, approve, actor);
      MergeEnters(s, id, approve, Attempt(s, step), e);
      MergeCommitsIff(s, id, actor);
    case _ =>
      OthersEnter(s, step, e);
  }

  /** It fills without leaving "merged". */
  lemma MergedEntityRefills(s: Store, step: Step, e: nat)
    requires Grounded(s) && e in s.entities && !Peopled(s, e) && s.entities[e].status == Merged && Refills(s, step, e)
    ensures var t := Next(s, step); Peopled(t, e) && e in t.entities && t.entities[e].status == Merged
  {
    EmptyEntityRefillsIff(s, step, e);
    MergedIsLeftByApproval(s, step, e);
  }
}
