/** A run from an empty store in which the completing page of a full snapshot leaves an object active that the snapshot
    never showed: the version of its tombstone is already on record. */
module SnapshotScenario {
  import opened Prelude
  import opened Survivorship
  import opened Store
  import opened Steps
  import opened Scenarios
  import opened Aftermaths
  import Runs = FullRuns

  /** A page of the full run without rows that completes it. */
  function Completing(cursor: Option<string>, next: Option<string>): Runs.Page {
    Runs.Page("crm", "supplier", [], true, Some("r1"), "full", cursor, next, None, None, true)
  }

  const FIRST := Completing(None, Some("more"))
  const LAST := Completing(Some("more"), None)
  const TOMBSTONE := Runs.Tombstone("r1")

  /** An object is seen; a completing page retires it; it is seen again. */
  const RETURNING := [
    Runs.Stepped(ObserveStep(X, Sighting("1", A), None)), Runs.Paged(FIRST, [X]),
    Runs.Stepped(ObserveStep(X, Sighting("2", A), None))]

  // ---- one object, updated in place ----

  ghost predicate Lone(s: Store) {
    && s.sources == SOURCES && s.policies == map["supplier" := NoKey(SameId)] && 1 in s.entities
    && s.objects.Keys == {X} && s.objects[X].entity == Some(1)
    && s.objects[X].sequence.None? && s.objects[X].effective.None?
  }

  lemma UpdatesLone(s: Store, item: Item)
    requires Lone(s) && RecordKey(X, item.version) !in s.records && item.sequence.None? && item.effective.None?
    ensures Attempt(s, ObserveStep(X, item, None)).Commit?
    ensures var t := Next(s, ObserveStep(X, item, None));
      && Lone(t) && t.objects[X].retired == item.deleted
      && t.records.Keys == s.records.Keys + {RecordKey(X, item.version)}
      && t.records[RecordKey(X, item.version)].payload == item
      && forall r :: r in s.records ==> t.records[r] == s.records[r]
  {
    assert Attempt(s, ObserveStep(X, item, None)) == Commit(Refreshed(Received(s, X, item), 1));
  }

  lemma RecordedIsIdle(s: Store, item: Item)
    requires Lone(s) && RecordKey(X, item.version) in s.records && s.records[RecordKey(X, item.version)].payload == item
    ensures Attempt(s, ObserveStep(X, item, None)) == Commit(s)
  {
    assert s.objects[X := ObjectOr(s, X)] == s.objects;
  }

  // ---- a completing page without rows ----

  lemma OneTombstone(s: Store)
    requires Attempt(s, ObserveStep(X, TOMBSTONE, None)).Commit?
    ensures Runs.AllCommit(s, Runs.TombSteps([X], "r1"))
    ensures Run(s, Runs.TombSteps([X], "r1")) == Next(s, ObserveStep(X, TOMBSTONE, None))
  {
    var step := ObserveStep(X, TOMBSTONE, None);
    assert Runs.TombSteps([X], "r1") == [step] + Runs.TombSteps([], "r1") == [step];
    OneStep(s, step);
    assert [step][1..] == [] && Runs.AllCommit(Next(s, step), []);
  }

  lemma TombstoneWork(p: Runs.Page)
    requires p in {FIRST, LAST}
    ensures Runs.Work(p, [X]) == Runs.TombSteps([X], "r1") && Runs.RowSteps(p, p.rows) == [] && Runs.Allowed(p)
    ensures Runs.RunId(p) == "r1"
  {
  }

  lemma DoomsX(w: Runs.Intake, p: Runs.Page)
    requires p in {FIRST, LAST} && Runs.OpenRun(w, p).Ready? && Runs.OpenRun(w, p).row.seen == {}
    requires w.db.objects.Keys == {X} && !w.db.objects[X].retired
    ensures Lists([X], Runs.Doomed(w, p, Runs.OpenRun(w, p)))
  {
    assert Runs.Doomed(w, p, Runs.OpenRun(w, p)) == {X};
    assert (set k | k in [X]) == {X};
  }

  /** The page lists the object as unseen and sends it its tombstone. */
  lemma PageSendsTombstone(w: Runs.Intake, p: Runs.Page)
    requires p in {FIRST, LAST} && Runs.OpenRun(w, p).Ready? && Runs.OpenRun(w, p).row.seen == {}
    requires Lone(w.db) && !w.db.objects[X].retired && Attempt(w.db, ObserveStep(X, TOMBSTONE, None)).Commit?
    ensures Runs.Ingest(w, p, [X]) ==
      Commit(Runs.Intake(Next(w.db, ObserveStep(X, TOMBSTONE, None)),
                         w.runs[Runs.KeyOf(p) := Runs.Checkpointed(Runs.OpenRun(w, p).row, p)]))
    ensures Runs.AfterRows(w, p) == w.db
  {
    DoomsX(w, p);
    OneTombstone(w.db);
    TombstoneWork(p);
  }

  // ---- the scenario ----

  const R1 := Runs.KeyOf(FIRST)

  lemma OpensFirst(w: Runs.Intake)
    requires w.runs == map[]
    ensures Runs.OpenRun(w, FIRST) == Runs.Ready(Runs.RunRow("full", None, [], None, {}, false, false))
  {
  }

  lemma ChecksFirst()
    ensures Runs.Checkpointed(Runs.RunRow("full", None, [], None, {}, false, false), FIRST) ==
      Runs.RunRow("full", None, ["__start__"], Some("more"), {}, true, true)
  {
    assert Runs.Shown(FIRST.rows) == {};
  }

  lemma OpensLast(w: Runs.Intake)
    requires w.runs == map[R1 := Runs.RunRow("full", None, ["__start__"], Some("more"), {}, true, true)]
    ensures Runs.OpenRun(w, LAST) == Runs.Ready(w.runs[R1])
  {
  }

  /** Before the last page: the object is active again, and its tombstone of this run is on record. */
  ghost predicate Returned(w: Runs.Intake) {
    && Lone(w.db) && !w.db.objects[X].retired
    && RecordKey(X, TOMBSTONE.version) in w.db.records
    && w.db.records[RecordKey(X, TOMBSTONE.version)].payload == TOMBSTONE
    && w.runs == map[R1 := Runs.RunRow("full", None, ["__start__"], Some("more"), {}, true, true)]
  }

  lemma Retires(w: Runs.Intake)
    requires w.runs == map[] && Lone(w.db) && !w.db.objects[X].retired && w.db.records.Keys == {RX}
    ensures var t := Runs.NextIntake(w, Runs.Paged(FIRST, [X]));
      && Lone(t.db) && t.db.records.Keys == {RX, RecordKey(X, TOMBSTONE.version)}
      && t.db.records[RecordKey(X, TOMBSTONE.version)].payload == TOMBSTONE && t.db.objects[X].retired
      && t.runs == map[R1 := Runs.RunRow("full", None, ["__start__"], Some("more"), {}, true, true)]
  {
    OpensFirst(w);
    ChecksFirst();
    assert TOMBSTONE.version[0] != "1"[0];
    UpdatesLone(w.db, TOMBSTONE);
    PageSendsTombstone(w, FIRST);
  }

  lemma Returns(w: Runs.Intake)
    requires Lone(w.db) && w.db.records.Keys == {RX, RecordKey(X, TOMBSTONE.version)}
    requires w.db.records[RecordKey(X, TOMBSTONE.version)].payload == TOMBSTONE
    requires w.runs == map[R1 := Runs.RunRow("full", None, ["__start__"], Some("more"), {}, true, true)]
    ensures Returned(Runs.NextIntake(w, RETURNING[2]))
  {
    assert TOMBSTONE.version[0] != "2"[0] && "1"[0] != "2"[0];
    UpdatesLone(w.db, Sighting("2", A));
  }

  lemma TraceStep(w: Runs.Intake, events: seq<Runs.Event>)
    requires events != []
    ensures Runs.Trace(w, events) == Runs.Trace(Runs.NextIntake(w, events[0]), events[1..])
  {
  }

  lemma TraceThree(w: Runs.Intake, events: seq<Runs.Event>)
    requires |events| == 3
    ensures Runs.Trace(w, events) ==
      Runs.NextIntake(Runs.NextIntake(Runs.NextIntake(w, events[0]), events[1]), events[2])
  {
    var u := Runs.NextIntake(w, events[0]);
    var v := Runs.NextIntake(u, events[1]);
    assert events[1..] == [events[1], events[2]] && events[2..] == [events[2]];
    TraceStep(w, events);
    TraceStep(u, events[1..]);
    assert events[1..][1..] == events[2..] && events[2..][1..] == [];
    TraceStep(v, events[2..]);
  }

  ghost function Beginning(): Runs.Intake {
    Runs.Fresh(SOURCES, map["supplier" := NoKey(SameId)])
  }

  lemma ReturningState()
    ensures Returned(Runs.Trace(Beginning(), RETURNING))
  {
    var w := Runs.NextIntake(Beginning(), RETURNING[0]);
    SeesFirst(SameId);
    assert Lone(w.db) && w.runs == map[];
    TraceThree(Beginning(), RETURNING);
    Retires(w);
    Returns(Runs.NextIntake(w, RETURNING[1]));
  }

  lemma {:induction false} NothingShown(w: Runs.Intake, events: seq<Runs.Event>, r: Runs.RunKey)
    requires forall i :: 0 <= i < |events| && events[i].Paged? ==> events[i].p.rows == []
    ensures Runs.ShownBy(w, events, r) == {}
    decreases |events|
  {
    if events != [] {
      assert events[0].Paged? ==> Runs.Shown(events[0].p.rows) == {};
      NothingShown(Runs.NextIntake(w, events[0]), events[1..], r);
    }
  }

  lemma NeverShown()
    ensures Runs.ShownBy(Beginning(), RETURNING, Runs.KeyOf(LAST)) + Runs.Shown(LAST.rows) == {}
  {
    NothingShown(Beginning(), RETURNING, Runs.KeyOf(LAST));
    assert Runs.Shown(LAST.rows) == {};
  }

  /** The last page completes the full run; no page of the run showed the object; and it stays active. */
  lemma UnshownStaysActive()
    ensures var w := Runs.Trace(Beginning(), RETURNING); var r := Runs.Ingest(w, LAST, [X]);
      && Runs.OpenRun(w, LAST).Ready? && Runs.Completes(LAST) && Runs.Belongs(LAST, X)
      && r.Commit? && Runs.Active(r.db.db, X)
      && X.local !in Runs.ShownBy(Beginning(), RETURNING, Runs.KeyOf(LAST)) + Runs.Shown(LAST.rows)
  {
    ReturningState();
    NeverShown();
    LastIsIdle(Runs.Trace(Beginning(), RETURNING));
  }

  lemma LastIsIdle(w: Runs.Intake)
    requires Returned(w)
    ensures Runs.OpenRun(w, LAST).Ready?
    ensures var r := Runs.Ingest(w, LAST, [X]); r.Commit? && Runs.Active(r.db.db, X)
  {
    OpensLast(w);
    RecordedIsIdle(w.db, TOMBSTONE);
    PageSendsTombstone(w, LAST);
  }
}
