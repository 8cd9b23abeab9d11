/** Negative identity decisions survive every run without approved merges. */
module Separation {
  import opened Prelude
  import opened Store
  import opened Steps
  import opened Effects
  import opened Grounding

  // ---- the invariant ----

  ghost predicate TaskSound(s: Store, e: nat)
    requires e in s.matches
  {
    var t := s.matches[e];
    && e in s.entities && t.target in s.entities
    && Placed(s, t.left) && Placed(s, t.right) && t.left != t.right
    && t.bound <= s.entities[e].version
    && t.boundTarget <= s.entities[t.target].version
  }

  ghost predicate TasksSound(s: Store) {
    forall e :: e in s.matches ==> TaskSound(s, e)
  }

  /** Each object is resolved once, so it is the left side of at most one task. */
  ghost predicate ResolvedOnce(s: Store) {
    forall e, f :: e in s.matches && f in s.matches && s.matches[e].left == s.matches[f].left ==> e == f
  }

  ghost predicate Undisturbed(s: Store, e: nat) {
    e in s.matches && e in s.entities && s.matches[e].status == Open && s.entities[e].version == s.matches[e].bound
  }

  /** While the bound version stands, the match's entity holds the left object and nothing else. */
  ghost predicate Alone(s: Store) {
    forall e, k :: Undisturbed(s, e) && k in s.objects ==> (In(s, k, e) <==> k == s.matches[e].left)
  }

  ghost predicate TargetUntouched(s: Store, e: nat) {
    && e in s.matches && s.matches[e].status == Open && s.matches[e].target in s.entities
    && s.entities[s.matches[e].target].version == s.matches[e].boundTarget
  }

  /** While the bound target version stands, no member of the target was ever matched against the left object. */
  ghost predicate TargetsUnmatched(s: Store) {
    forall e, f :: TargetUntouched(s, e) && f in s.matches && In(s, s.matches[f].left, s.matches[e].target) ==>
      s.matches[f].right != s.matches[e].left
  }

  ghost predicate ClosedTaskFor(s: Store, p: set<ObjectKey>, e: nat) {
    e in s.matches && s.matches[e].status != Open && Pair(s.matches[e].left, s.matches[e].right) == p
  }

  ghost predicate RowsFromTasks(s: Store) {
    forall p :: p in s.cannot ==> exists e :: ClosedTaskFor(s, p, e)
  }

  /** The two objects of a cannot-link row are in different entities. */
  ghost predicate Apart(s: Store) {
    forall a, b :: Pair(a, b) in s.cannot ==> Placed(s, a) && Placed(s, b) && s.objects[a].entity != s.objects[b].entity
  }

  ghost predicate Inv(s: Store) {
    && Allocated(s) && TasksSound(s) && ResolvedOnce(s) && Alone(s) && TargetsUnmatched(s)
    && RowsFromTasks(s) && Apart(s)
  }

  /** Tasks keep their pair and stay closed. */
  ghost predicate KeepsTasks(s: Store, t: Store) {
    forall e :: e in s.matches ==>
      && e in t.matches && t.matches[e].left == s.matches[e].left && t.matches[e].right == s.matches[e].right
      && (s.matches[e].status != Open ==> t.matches[e].status != Open)
  }

  lemma RowsKept(s: Store, t: Store)
    requires RowsFromTasks(s) && t.cannot == s.cannot && KeepsTasks(s, t)
    ensures RowsFromTasks(t)
  {
    forall p | p in t.cannot ensures exists e :: ClosedTaskFor(t, p, e) {
      var e :| ClosedTaskFor(s, p, e);
      assert ClosedTaskFor(t, p, e);
    }
  }

  // ---- steps that do not place objects ----

  /** Memberships, tasks and rows stay; versions may only grow; new objects are unplaced. */
  ghost predicate Grows(s: Store, t: Store) {
    && t.matches == s.matches && t.cannot == s.cannot && s.next <= t.next
    && t.entities.Keys == s.entities.Keys
    && (forall e :: e in s.entities ==> s.entities[e].version <= t.entities[e].version)
    && s.objects.Keys <= t.objects.Keys
    && (forall k :: k in t.objects ==> t.objects[k].entity == ObjectOr(s, k).entity)
  }

  lemma GrowsKeepsTasks(s: Store, t: Store)
    requires Allocated(s) && TasksSound(s) && ResolvedOnce(s) && RowsFromTasks(s) && Grows(s, t)
    ensures Allocated(t) && TasksSound(t) && ResolvedOnce(t) && RowsFromTasks(t)
  {
    assert forall k :: Placed(t, k) <==> Placed(s, k);
    forall e | e in t.matches ensures TaskSound(t, e) { assert TaskSound(s, e); }
    RowsKept(s, t);
  }

  lemma GrowsKeeps(s: Store, t: Store)
    requires Inv(s) && Grows(s, t)
    ensures Inv(t)
  {
    GrowsKeepsTasks(s, t);
    assert forall k, e :: In(t, k, e) <==> In(s, k, e);
    forall e | Undisturbed(t, e) ensures Undisturbed(s, e) { assert TaskSound(s, e); }
    forall e | TargetUntouched(t, e) ensures TargetUntouched(s, e) { assert TaskSound(s, e); }
  }

  // ---- placing an unplaced object ----

  /** `k`, unplaced before, is now in `e`; an entity that existed has a higher version than before. */
  ghost predicate Places(s: Store, t: Store, k: ObjectKey, e: nat) {
    && k in s.objects && s.objects[k].entity.None?
    && t.cannot == s.cannot && s.next <= t.next && e < t.next
    && t.objects.Keys == s.objects.Keys
    && (forall j :: j in t.objects ==> t.objects[j].entity == if j == k then Some(e) else s.objects[j].entity)
    && t.entities.Keys == s.entities.Keys + {e}
    && (forall f :: f in s.entities ==>
          s.entities[f].version <= t.entities[f].version && (f == e ==> s.entities[f].version < t.entities[f].version))
  }

  lemma PlacesKeepsTasks(s: Store, t: Store, k: ObjectKey, e: nat)
    requires Allocated(s) && TasksSound(s) && ResolvedOnce(s) && RowsFromTasks(s)
    requires Places(s, t, k, e) && t.matches == s.matches
    ensures Allocated(t) && TasksSound(t) && ResolvedOnce(t) && RowsFromTasks(t)
  {
    assert forall j :: Placed(s, j) ==> Placed(t, j) && j != k;
    forall f | f in t.matches ensures TaskSound(t, f) { assert TaskSound(s, f); }
    RowsKept(s, t);
  }

  lemma PlacesKeepsBindings(s: Store, t: Store, k: ObjectKey, e: nat)
    requires Allocated(s) && TasksSound(s) && Alone(s) && TargetsUnmatched(s)
    requires Places(s, t, k, e) && t.matches == s.matches
    ensures Alone(t) && TargetsUnmatched(t)
  {
    assert forall j, f :: j != k ==> (In(t, j, f) <==> In(s, j, f));
    forall f | Undisturbed(t, f) ensures Undisturbed(s, f) && f != e { assert TaskSound(s, f); }
    forall f | TargetUntouched(t, f) ensures TargetUntouched(s, f) && t.matches[f].target != e {
      assert TaskSound(s, f);
    }
    forall f | f in t.matches ensures t.matches[f].left != k && t.matches[f].right != k { assert TaskSound(s, f); }
  }

  lemma PlacesKeeps(s: Store, t: Store, k: ObjectKey, e: nat)
    requires Inv(s) && Places(s, t, k, e) && t.matches == s.matches
    ensures Inv(t)
  {
    PlacesKeepsTasks(s, t, k, e);
    PlacesKeepsBindings(s, t, k, e);
    PlacesKeepsApart(s, t, k, e);
  }

  lemma PlacesKeepsApart(s: Store, t: Store, k: ObjectKey, e: nat)
    requires Apart(s) && Places(s, t, k, e)
    ensures Apart(t)
  {
    forall a, b | Pair(a, b) in t.cannot
      ensures Placed(t, a) && Placed(t, b) && t.objects[a].entity != t.objects[b].entity
    {
      assert Placed(s, a) && Placed(s, b) && s.objects[a].entity != s.objects[b].entity;
    }
  }

  /** The task is opened for the entity, which holds its left object alone and is named by no other task. */
  ghost predicate Opens(s: Store, t: Store, e: nat, task: MatchTask) {
    && e in s.entities && e !in s.matches && t == s.(matches := s.matches[e := task])
    && task.status == Open && task.bound == s.entities[e].version
    && Placed(s, task.left) && Placed(s, task.right) && task.right != task.left && task.target in s.entities
    && task.boundTarget == s.entities[task.target].version && task.target != e
    && (forall j :: j in s.objects ==> (In(s, j, e) <==> j == task.left))
    && (forall f :: f in s.matches ==>
          s.matches[f].left != task.left && s.matches[f].right != task.left && s.matches[f].target != e)
  }

  lemma OpensTasks(s: Store, t: Store, e: nat, task: MatchTask)
    requires TasksSound(s) && ResolvedOnce(s) && RowsFromTasks(s) && Opens(s, t, e, task)
    ensures TasksSound(t) && ResolvedOnce(t) && RowsFromTasks(t)
  {
    forall f | f in t.matches ensures TaskSound(t, f) { if f != e { assert TaskSound(s, f); } }
    RowsKept(s, t);
  }

  lemma OpensBindings(s: Store, t: Store, e: nat, task: MatchTask)
    requires Alone(s) && TargetsUnmatched(s) && Opens(s, t, e, task)
    ensures Alone(t) && TargetsUnmatched(t)
  {
    assert forall j, f :: In(t, j, f) <==> In(s, j, f);
    forall f, j | Undisturbed(t, f) && j in t.objects ensures In(t, j, f) <==> j == t.matches[f].left {
      if f != e { assert Undisturbed(s, f); }
    }
    forall f, g | TargetUntouched(t, f) && g in t.matches && In(t, t.matches[g].left, t.matches[f].target)
      ensures t.matches[g].right != t.matches[f].left
    {
      assert In(s, t.matches[g].left, t.matches[f].target);
      if f != e { assert TargetUntouched(s, f); }
    }
  }

  /** A review task opened in the same transaction as its entity. */
  lemma TaskKeeps(s: Store, t: Store, e: nat, task: MatchTask)
    requires Inv(s) && Opens(s, t, e, task)
    ensures Inv(t)
  {
    OpensTasks(s, t, e, task);
    OpensBindings(s, t, e, task);
  }

  // ---- closing a task ----

  /** The same objects, entities and tasks, some tasks perhaps closed; the rows are free. */
  ghost predicate Closes(s: Store, t: Store) {
    && t.objects == s.objects && t.entities == s.entities && t.next == s.next && t.matches.Keys == s.matches.Keys
    && forall e :: e in s.matches ==>
         || t.matches[e] == s.matches[e]
         || (t.matches[e] == s.matches[e].(status := t.matches[e].status) && t.matches[e].status != Open)
  }

  lemma ClosesTasks(s: Store, t: Store)
    requires Allocated(s) && TasksSound(s) && ResolvedOnce(s) && Closes(s, t)
    ensures Allocated(t) && TasksSound(t) && ResolvedOnce(t)
  {
    assert forall k :: Placed(t, k) <==> Placed(s, k);
    forall e | e in t.matches ensures TaskSound(t, e) { assert TaskSound(s, e); }
  }

  lemma ClosesBindings(s: Store, t: Store)
    requires Alone(s) && TargetsUnmatched(s) && Closes(s, t)
    ensures Alone(t) && TargetsUnmatched(t)
  {
    assert forall j, f :: In(t, j, f) <==> In(s, j, f);
    forall f | Undisturbed(t, f) ensures Undisturbed(s, f) && t.matches[f] == s.matches[f] { }
    forall f | TargetUntouched(t, f) ensures TargetUntouched(s, f) && t.matches[f] == s.matches[f] { }
    forall f, g | TargetUntouched(t, f) && g in t.matches && In(t, t.matches[g].left, t.matches[f].target)
      ensures t.matches[g].right != t.matches[f].left
    {
      assert In(s, s.matches[g].left, s.matches[f].target);
    }
  }

  lemma CloseKeeps(s: Store, e: nat, status: TaskStatus)
    requires Inv(s) && e in s.matches && status != Open
    ensures Inv(CloseMatch(s, e, status))
  {
    var t := CloseMatch(s, e, status);
    assert Closes(s, t);
    ClosesTasks(s, t);
    ClosesBindings(s, t);
    RowsKept(s, t);
  }

  lemma SamePair(a: ObjectKey, b: ObjectKey, l: ObjectKey, r: ObjectKey)
    requires Pair(a, b) == Pair(l, r)
    ensures (a == l && b == r) || (a == r && b == l)
  {
    assert a in Pair(l, r) && b in Pair(l, r) && l in Pair(a, b) && r in Pair(a, b);
  }

  /** Keep separate: the left object is alone in the match's entity, so the new row separates. */
  lemma RejectApart(s: Store, e: nat)
    requires Inv(s) && Undisturbed(s, e)
    ensures Apart(s.(cannot := s.cannot + {Pair(s.matches[e].left, s.matches[e].right)}))
  {
    var l, r := s.matches[e].left, s.matches[e].right;
    var t := s.(cannot := s.cannot + {Pair(l, r)});
    assert TaskSound(s, e);
    assert In(s, l, e) && !In(s, r, e);
    forall a, b | Pair(a, b) in t.cannot
      ensures Placed(t, a) && Placed(t, b) && t.objects[a].entity != t.objects[b].entity
    {
      if Pair(a, b) !in s.cannot {
        SamePair(a, b, l, r);
      } else {
        assert Placed(s, a) && Placed(s, b) && s.objects[a].entity != s.objects[b].entity;
      }
    }
  }

  lemma RejectKeeps(s: Store, e: nat)
    requires Inv(s) && Undisturbed(s, e)
    ensures Inv(CloseMatch(s.(cannot := s.cannot + {Pair(s.matches[e].left, s.matches[e].right)}), e, Rejected))
  {
    CloseKeeps(s, e, Rejected);
    RejectApart(s, e);
    AddRow(CloseMatch(s, e, Rejected), s.cannot + {Pair(s.matches[e].left, s.matches[e].right)}, e);
  }

  lemma AddRow(u: Store, rows: set<set<ObjectKey>>, e: nat)
    requires Inv(u) && e in u.matches && u.matches[e].status != Open
    requires rows == u.cannot + {Pair(u.matches[e].left, u.matches[e].right)}
    requires Apart(u.(cannot := rows))
    ensures Inv(u.(cannot := rows))
  {
    var t := u.(cannot := rows);
    assert Closes(u, t);
    ClosesTasks(u, t);
    ClosesBindings(u, t);
    forall p | p in t.cannot ensures exists f :: ClosedTaskFor(t, p, f) {
      if p in u.cannot {
        var f :| ClosedTaskFor(u, p, f);
        assert ClosedTaskFor(t, p, f);
      } else {
        assert ClosedTaskFor(t, p, e);
      }
    }
  }

  // ---- linking ----

  /** The left object `l` of task `e`, the only member of `e`, joins the match's target. */
  ghost predicate Links(s: Store, t: Store, e: nat) {
    && Undisturbed(s, e) && TargetUntouched(s, e)
    && t.cannot == s.cannot && t.next == s.next
    && t.matches == s.matches[e := s.matches[e].(status := Accepted)]
    && t.objects.Keys == s.objects.Keys
    && (forall j :: j in t.objects ==>
          t.objects[j].entity == if In(s, j, e) then Some(s.matches[e].target) else s.objects[j].entity)
    && t.entities.Keys == s.entities.Keys
    && (forall f :: f in s.entities ==> s.entities[f].version <= t.entities[f].version)
    && s.entities[s.matches[e].target].version < t.entities[s.matches[e].target].version
  }

  lemma LinkKeepsTasks(s: Store, t: Store, e: nat)
    requires Allocated(s) && TasksSound(s) && ResolvedOnce(s) && Links(s, t, e)
    ensures Allocated(t) && TasksSound(t) && ResolvedOnce(t)
  {
    assert TaskSound(s, e);
    assert forall k :: Placed(t, k) <==> Placed(s, k);
    forall f | f in t.matches ensures TaskSound(t, f) { assert TaskSound(s, f); }
  }

  lemma LinkKeepsBindings(s: Store, t: Store, e: nat)
    requires Inv(s) && Links(s, t, e)
    ensures Alone(t) && TargetsUnmatched(t)
  {
    assert TaskSound(s, e);
    assert Alone(t) by {
      forall f, j | Undisturbed(t, f) && j in t.objects ensures In(t, j, f) <==> j == t.matches[f].left {
        assert TaskSound(s, f);
        assert Undisturbed(s, f) && f != e && f != s.matches[e].target;
        assert In(s, j, f) <==> j == s.matches[f].left;
      }
    }
    assert TargetsUnmatched(t) by {
      forall f, g | TargetUntouched(t, f) && g in t.matches && In(t, t.matches[g].left, t.matches[f].target)
        ensures t.matches[g].right != t.matches[f].left
      {
        assert TaskSound(s, f);
        assert TargetUntouched(s, f) && s.matches[f].target != s.matches[e].target;
        assert In(s, s.matches[g].left, s.matches[f].target);
      }
    }
  }

  lemma LinkKeepsApart(s: Store, t: Store, e: nat)
    requires Inv(s) && Links(s, t, e)
    ensures Apart(t)
  {
    assert TaskSound(s, e);
    var l := s.matches[e].left;
    forall a, b | Pair(a, b) in t.cannot
      ensures Placed(t, a) && Placed(t, b) && t.objects[a].entity != t.objects[b].entity
    {
      assert Placed(s, a) && Placed(s, b) && s.objects[a].entity != s.objects[b].entity;
      assert Pair(a, b) == Pair(b, a);
      if a == l && In(s, b, s.matches[e].target) { NoRowIntoTarget(s, e, b); }
      if b == l && In(s, a, s.matches[e].target) { NoRowIntoTarget(s, e, a); }
    }
  }

  /** The version bindings carry the proposal over to the link: no row joins the left object to a target member. */
  lemma NoRowIntoTarget(s: Store, e: nat, y: ObjectKey)
    requires Inv(s) && Undisturbed(s, e) && TargetUntouched(s, e)
    requires In(s, y, s.matches[e].target)
    ensures !CannotLink(s, s.matches[e].left, y)
  {
    var l := s.matches[e].left;
    if Pair(l, y) in s.cannot {
      var f :| ClosedTaskFor(s, Pair(l, y), f);
      SamePair(s.matches[f].left, s.matches[f].right, l, y);
    }
  }

  lemma LinkKeepsRows(s: Store, t: Store, e: nat)
    requires RowsFromTasks(s) && Links(s, t, e)
    ensures RowsFromTasks(t)
  {
    RowsKept(s, t);
  }

  lemma LinkKeeps(s: Store, t: Store, e: nat)
    requires Inv(s) && Links(s, t, e)
    ensures Inv(t)
  {
    LinkKeepsTasks(s, t, e);
    LinkKeepsRows(s, t, e);
    LinkKeepsBindings(s, t, e);
    LinkKeepsApart(s, t, e);
  }

  // ---- splitting ----

  ghost predicate Splits(s: Store, t: Store, e: nat, ks: set<ObjectKey>) {
    && e in s.entities && (forall k :: k in ks ==> In(s, k, e))
    && t.cannot == s.cannot && t.matches == s.matches && t.next == s.next + 1
    && t.objects.Keys == s.objects.Keys
    && (forall j :: j in t.objects ==> t.objects[j].entity == if j in ks then Some(s.next) else s.objects[j].entity)
    && t.entities.Keys == s.entities.Keys + {s.next}
    && (forall f :: f in s.entities ==> s.entities[f].version <= t.entities[f].version)
    && s.entities[e].version < t.entities[e].version
  }

  lemma SplitKeepsTasks(s: Store, t: Store, e: nat, ks: set<ObjectKey>)
    requires Allocated(s) && TasksSound(s) && ResolvedOnce(s) && RowsFromTasks(s) && Splits(s, t, e, ks)
    ensures Allocated(t) && TasksSound(t) && ResolvedOnce(t) && RowsFromTasks(t)
  {
    assert forall k :: Placed(t, k) <==> Placed(s, k);
    forall f | f in t.matches ensures TaskSound(t, f) { assert TaskSound(s, f); }
    RowsKept(s, t);
  }

  lemma SplitKeepsBindings(s: Store, t: Store, e: nat, ks: set<ObjectKey>)
    requires Allocated(s) && TasksSound(s) && Alone(s) && TargetsUnmatched(s) && Splits(s, t, e, ks)
    ensures Alone(t) && TargetsUnmatched(t)
  {
    forall f, j | Undisturbed(t, f) && j in t.objects ensures In(t, j, f) <==> j == t.matches[f].left {
      assert TaskSound(s, f);
      assert Undisturbed(s, f) && f != e && f != s.next;
      assert In(s, j, f) <==> j == s.matches[f].left;
    }
    forall f, g | TargetUntouched(t, f) && g in t.matches && In(t, t.matches[g].left, t.matches[f].target)
      ensures t.matches[g].right != t.matches[f].left
    {
      assert TaskSound(s, f);
      assert TargetUntouched(s, f) && s.matches[f].target != s.next;
      assert In(s, s.matches[g].left, s.matches[f].target);
    }
  }

  lemma SplitKeepsApart(s: Store, t: Store, e: nat, ks: set<ObjectKey>)
    requires Allocated(s) && Apart(s) && Splits(s, t, e, ks)
    ensures Apart(t)
  {
    forall a, b | Pair(a, b) in t.cannot
      ensures Placed(t, a) && Placed(t, b) && t.objects[a].entity != t.objects[b].entity
    {
      assert Placed(s, a) && Placed(s, b) && s.objects[a].entity != s.objects[b].entity;
    }
  }

  lemma SplitKeeps(s: Store, t: Store, e: nat, ks: set<ObjectKey>)
    requires Inv(s) && Splits(s, t, e, ks)
    ensures Inv(t)
  {
    SplitKeepsTasks(s, t, e, ks);
    SplitKeepsBindings(s, t, e, ks);
    SplitKeepsApart(s, t, e, ks);
  }

  // ---- the steps ----

  lemma ReceivedGrows(s: Store, k: ObjectKey, item: Item)
    requires k.domain in s.policies
    ensures Grows(s, Received(s, k, item))
  {
  }

  lemma RefreshedGrows(s: Store, e: nat)
    requires e in s.entities
    ensures Grows(s, Refreshed(s, e))
  {
  }

  lemma JoiningPlaces(s: Store, k: ObjectKey, e: nat)
    requires Allocated(s) && k in s.objects && s.objects[k].entity.None? && e in s.entities
    ensures Places(s, Joining(s, k, e), k, e) && Joining(s, k, e).matches == s.matches
  {
  }

  lemma CreatingPlaces(s: Store, k: ObjectKey)
    requires Allocated(s) && k in s.objects && s.objects[k].entity.None?
    ensures Places(s, Creating(s, k), k, s.next) && Creating(s, k).matches == s.matches
  {
  }

  lemma ReviewingPlaces(s: Store, k: ObjectKey, rid: RecordKey, c: ObjectKey)
    requires Allocated(s) && k in s.objects && s.objects[k].entity.None?
    requires IsCurrent(s, c) && s.objects[c].entity.Some? && s.objects[c].entity.value in s.entities
    ensures Places(s, Reviewing(s, k, rid, c).(matches := s.matches), k, s.next)
  {
  }

  lemma ReviewingKeeps(s: Store, k: ObjectKey, rid: RecordKey, c: ObjectKey)
    requires Inv(s) && k in s.objects && s.objects[k].entity.None?
    requires IsCurrent(s, c) && s.objects[c].entity.Some? && s.objects[c].entity.value in s.entities
    ensures Inv(Reviewing(s, k, rid, c))
  {
    var t := Reviewing(s, k, rid, c);
    var mid := t.(matches := s.matches);
    ReviewingPlaces(s, k, rid, c);
    PlacesKeeps(s, mid, k, s.next);
    forall f | f in s.matches
      ensures f < s.next && s.matches[f].left != k && s.matches[f].right != k && s.matches[f].target != s.next
    {
      assert TaskSound(s, f);
    }
    forall j | j in mid.objects ensures In(mid, j, s.next) <==> j == k {
      if j != k && Placed(s, j) { assert s.objects[j].entity.value in s.entities; }
    }
    TaskKeeps(mid, t, s.next, TaskFor(s, k, rid, c));
  }

  lemma PlacingKeeps(s: Store, k: ObjectKey, rid: RecordKey, pick: Option<ObjectKey>, t: Store)
    requires Inv(s) && Placing(s, k, rid, pick, t)
    ensures Inv(t)
  {
    if t == Creating(s, k) {
      CreatingPlaces(s, k);
      PlacesKeeps(s, t, k, s.next);
    } else {
      var e := s.objects[pick.value].entity.value;
      if t == Joining(s, k, e) {
        JoiningPlaces(s, k, e);
        PlacesKeeps(s, t, k, e);
      } else {
        ReviewingKeeps(s, k, rid, pick.value);
      }
    }
  }

  lemma SettlesKeeps(s1: Store, k: ObjectKey, rid: RecordKey, pick: Option<ObjectKey>, t: Store)
    requires Inv(s1) && Settles(s1, k, rid, pick, t)
    ensures Inv(t)
  {
    if t == s1 {
    } else if Placing(s1, k, rid, pick, t) {
      PlacingKeeps(s1, k, rid, pick, t);
    } else {
      RefreshedGrows(s1, s1.objects[k].entity.value);
      GrowsKeeps(s1, t);
    }
  }

  lemma ObserveKeeps(s: Store, k: ObjectKey, item: Item, pick: Option<ObjectKey>, r: Reply<Store>)
    requires Inv(s) && ObserveOutcome(s, k, item, pick, r)
    ensures Inv(After(s, r))
  {
    if r.Abort? {
    } else if RecordKey(k, item.version) in s.records {
      GrowsKeeps(s, r.db);
    } else {
      ReceivedGrows(s, k, item);
      GrowsKeeps(s, Received(s, k, item));
      SettlesKeeps(Received(s, k, item), k, RecordKey(k, item.version), pick, r.db);
    }
  }

  lemma LinkIntoRows(s: Store, e: nat, target: nat)
    requires e in s.entities && target in s.entities
    ensures var t := LinkInto(s, e, target);
      && t.cannot == s.cannot && t.next == s.next && t.matches == s.matches && t.objects.Keys == s.objects.Keys
      && (forall j :: j in t.objects ==> t.objects[j].entity == if In(s, j, e) then Some(target)
          else s.objects[j].entity)
      && t.entities == s.entities[e := s.entities[e].(status := Merged)][target :=
           s.entities[e := s.entities[e].(status := Merged)][target].(version := s.entities[target].version + 1)]
  {
  }

  lemma LinkingLinks(s: Store, e: nat)
    requires LinkGuards(s, e)
    ensures Undisturbed(s, e) && TargetUntouched(s, e) && Links(s, Linking(s, e), e)
  {
    LinkIntoRows(s, e, s.matches[e].target);
  }

  lemma LinkingKeeps(s: Store, e: nat)
    requires Inv(s) && LinkGuards(s, e)
    ensures Inv(Linking(s, e))
  {
    LinkingLinks(s, e);
    LinkKeeps(s, Linking(s, e), e);
  }

  lemma MatchKeeps(s: Store, e: nat, link: bool, r: Reply<Store>)
    requires Inv(s) && MatchOutcome(s, e, link, r)
    ensures Inv(After(s, r))
  {
    if r.Abort? {
    } else if r.CommitThenRaise? {
      CloseKeeps(s, e, Stale);
    } else if link {
      LinkingKeeps(s, e);
    } else {
      assert TaskSound(s, e);
      RejectKeeps(s, e);
    }
  }

  lemma SplitOffSplits(s: Store, e: nat, ks: set<ObjectKey>)
    requires Allocated(s) && e in s.entities && ks <= s.objects.Keys && (forall k :: k in ks ==> In(s, k, e))
    ensures Splits(s, SplitOff(s, e, ks), e, ks)
  {
  }

  lemma SplittingKeeps(s: Store, id: nat)
    requires Inv(s) && id in s.splits && s.splits[id].entity in s.entities
    ensures Inv(Splitting(s, id))
  {
    var e := s.splits[id].entity;
    var ks := StillMembers(s, e, s.splits[id].objects);
    var u := SplitOff(s, e, ks);
    SplitOffSplits(s, e, ks);
    SplitKeeps(s, u, e, ks);
    SameKeeps(u, Splitting(s, id));
  }

  lemma SplitDecisionKeeps(s: Store, id: nat, approve: bool, r: Reply<Store>)
    requires Inv(s) && SplitOutcome(s, id, approve, r)
    ensures Inv(After(s, r))
  {
    if r.Abort? {
    } else if r.CommitThenRaise? {
      SameKeeps(s, CloseSplit(s, id, Stale));
    } else if approve {
      SplittingKeeps(s, id);
    } else {
      SameKeeps(s, CloseSplit(s, id, Rejected));
    }
  }

  /** Steps that leave memberships, entities, match tasks and rows alone. */
  ghost predicate Same(s: Store, t: Store) {
    && t.objects == s.objects && t.entities == s.entities && t.matches == s.matches && t.cannot == s.cannot
    && s.next <= t.next
  }

  lemma SameKeeps(s: Store, t: Store)
    requires Inv(s) && Same(s, t)
    ensures Inv(t)
  {
    GrowsKeeps(s, t);
  }

  lemma RemasterGrows(s: Store, domain: string)
    ensures Grows(s, After(s, Remaster(s, domain)))
  {
  }

  lemma MasterKeeps(s: Store, e: nat, v: nat, approve: bool, r: Reply<Store>)
    requires Inv(s) && MasterOutcome(s, e, v, approve, r)
    ensures Inv(After(s, r))
  {
    if r.Abort? {
    } else if approve && r.Commit? {
      assert Grows(s, ApproveMaster(s, e, v));
      GrowsKeeps(s, r.db);
    } else {
      SameKeeps(s, r.db);
    }
  }

  predicate MergeFree(step: Step) {
    step.MergeStep? ==> !step.approve
  }

  lemma NextKeeps(s: Store, step: Step)
    requires Inv(s) && MergeFree(step)
    ensures Inv(Next(s, step))
  {
    match step
    case ObserveStep(k, item, pick) => ObserveCases(s, k, item, pick); ObserveKeeps(s, k, item, pick, Attempt(s, step));
    case MatchStep(e, link) => DecideMatchCases(s, e, link); MatchKeeps(s, e, link, Attempt(s, step));
    case MasterStep(e, v, approve) =>
      DecideMasterCases(s, e, v, approve);
      MasterKeeps(s, e, v, approve, Attempt(s, step));
    case SplitStep(id, approve, actor) =>
      DecideSplitCases(s, id, approve, actor);
      SplitDecisionKeeps(s, id, approve, Attempt(s, step));
    case RemasterStep(domain) => RemasterGrows(s, domain); GrowsKeeps(s, Next(s, step));
    case ActivateStep(_, _) => SameKeeps(s, Next(s, step));
    case _ => AdministrativeAside(s, step); SameKeeps(s, Next(s, step));
  }

  lemma {:induction false} RunKeeps(s: Store, steps: seq<Step>)
    requires Inv(s)
    requires forall i :: 0 <= i < |steps| ==> MergeFree(steps[i])
    ensures Inv(Run(s, steps))
    decreases |steps|
  {
    if steps != [] {
      NextKeeps(s, steps[0]);
      RunKeeps(Next(s, steps[0]), steps[1..]);
    }
  }

  lemma EmptyInv(sources: map<string, int>, policies: map<string, Rules>)
    ensures Inv(Empty(sources, policies))
  {
  }

  /** From an empty store, in every run without approved merges, the two objects of a
      cannot-link row are placed in different entities, whatever policies are activated on the way. */
  lemma CannotLinkHolds(sources: map<string, int>, policies: map<string, Rules>, steps: seq<Step>,
                        a: ObjectKey, b: ObjectKey)
    requires forall i :: 0 <= i < |steps| ==> MergeFree(steps[i])
    ensures var s := Run(Empty(sources, policies), steps);
      CannotLink(s, a, b) ==> Placed(s, a) && Placed(s, b) && s.objects[a].entity != s.objects[b].entity
  {
    EmptyInv(sources, policies);
    RunKeeps(Empty(sources, policies), steps);
  }

  /** In such runs the cannot-link filter of the candidate loop never rejects anything:
      only placed objects carry rows, and only unplaced ones are resolved. */
  lemma CandidateFilterIdle(s: Store, k: ObjectKey, c: ObjectKey)
    requires Inv(s) && !Placed(s, k)
    ensures !CannotLink(s, k, c)
  {
  }

  /** Nor does the cannot-link check of a link: once the version checks pass, no row joins
      the left object to any member of the target, the right object included. */
  lemma LinkCheckIdle(s: Store, e: nat, y: ObjectKey)
    requires Inv(s) && Undisturbed(s, e) && TargetUntouched(s, e) && In(s, y, s.matches[e].target)
    ensures !CannotLink(s, s.matches[e].left, y)
  {
    NoRowIntoTarget(s, e, y);
  }
}
