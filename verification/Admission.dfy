/** Which pages an ingestion run admits, and what a delta run may rest on. */
module Admission {
  import opened Prelude
  import opened Store
  import opened Steps
  import opened FullRuns

  predicate Present(x: Option<string>) {
    x.Some? && x.value != ""
  }

  function CursorKey(p: Page): string {
    if Present(p.cursor) then p.cursor.value else "__start__"
  }

  /** The run a delta page builds on is a full one that its source declared complete. */
  predicate Finished(w: Intake, source: string, domain: string, run: string) {
    var r := RunKey(source, domain, run);
    r in w.runs && w.runs[r].mode == "full" && w.runs[r].complete && w.runs[r].sourceComplete
  }

  /** The page continues its run: same mode, a cursor not yet processed, and the one the last page announced. A run
      starts without a cursor. */
  predicate Continues(w: Intake, p: Page)
    requires p.run.Some?
  {
    var r := RunKey(p.source, p.domain, p.run.value);
    if r in w.runs then
      && w.runs[r].mode == p.mode && CursorKey(p) !in w.runs[r].processed
      && (w.runs[r].processed != [] ==> p.cursor == w.runs[r].next)
    else p.cursor in {None, Some(""), Some("0")}
  }

  /** A page of a run is admitted exactly when it continues it and, when it names a snapshot to build on, is no full
      page and, as a delta page, builds on a finished one. */
  lemma PageOpensIff(w: Intake, p: Page)
    ensures OpenRun(w, p).Ready? <==>
      && Present(p.run) && Continues(w, p)
      && (Present(p.handoff) ==>
            p.mode != "full" && (p.mode == "delta" ==> Finished(w, p.source, p.domain, p.handoff.value)))
    ensures OpenRun(w, p).Ready? && Present(p.handoff) && p.mode == "delta" ==>
      OpenRun(w, p).row.position == w.runs[RunKey(p.source, p.domain, p.handoff.value)].position
  {
  }

  /** A page without a run claims no completeness; a page already processed is a duplicate. */
  lemma PageOutsideRuns(w: Intake, p: Page)
    ensures OpenRun(w, p).NoRun? <==> !Present(p.run) && !p.sourceComplete
    ensures OpenRun(w, p).Duplicate? <==>
      && Present(p.run)
      && var r := RunKey(p.source, p.domain, p.run.value);
         r in w.runs && w.runs[r].mode == p.mode && CursorKey(p) in w.runs[r].processed
  {
  }

  /** A page of a run that claims to complete it is taken only from a full run whose source declares it complete. */
  lemma CompletionNeedsEvidence(w: Intake, p: Page, order: seq<ObjectKey>)
    requires Ingest(w, p, order).Commit? && OpenRun(w, p).Ready? && p.complete
    ensures p.mode == "full" && p.sourceComplete
  {
    IngestCases(w, p, order);
    OpenKeeps(w, p);
  }

  // ---- the last page of a run ----

  /** The last page of run `r` that took effect in the trace. */
  ghost function LastPage(w: Intake, events: seq<FullRuns.Event>, r: RunKey): Option<Page> {
    if events == [] then None
    else
      var n := |events| - 1;
      if Lands(Trace(w, events[..n]), events[n], r) then Some(events[n].p) else LastPage(w, events[..n], r)
  }

  lemma {:induction false} TraceLast(w: Intake, events: seq<FullRuns.Event>)
    requires events != []
    ensures Trace(w, events) == NextIntake(Trace(w, events[..|events| - 1]), events[|events| - 1])
    decreases |events|
  {
    var n := |events| - 1;
    if n == 0 {
      assert events[..n] == [] && events[1..] == [];
    } else {
      TraceLast(NextIntake(w, events[0]), events[1..]);
      assert events[1..][..n - 1] == events[..n][1..] && events[1..][n - 1] == events[n] && events[..n][0] == events[0];
    }
  }

  /** The run row tells what its last page said. */
  ghost predicate Recalls(w: Intake, r: RunKey, last: Option<Page>) {
    && (last.None? ==> r !in w.runs)
    && (last.Some? ==>
          && r in w.runs && w.runs[r].mode == last.value.mode && w.runs[r].next == last.value.next
          && w.runs[r].sourceComplete == (last.value.complete && last.value.sourceComplete)
          && w.runs[r].processed != [] && w.runs[r].processed[|w.runs[r].processed| - 1] == CursorKey(last.value))
  }

  lemma PageRecalled(w: Intake, p: Page, order: seq<ObjectKey>, reply: Reply<Intake>, r: RunKey, last: Option<Page>)
    requires IngestOutcome(w, p, order, reply) && Recalls(w, r, last)
    ensures Recalls(After(w, reply), r,
      if reply.Commit? && OpenRun(w, p).Ready? && Given(p.run) && KeyOf(p) == r then Some(p) else last)
  {
    if reply.Commit? && OpenRun(w, p).Ready? {
      OpenKeeps(w, p);
      CheckpointTells(OpenRun(w, p).row, p);
    }
  }

  lemma CheckpointTells(row: RunRow, p: Page)
    ensures var c := Checkpointed(row, p);
      && c.mode == row.mode && c.next == p.next && c.sourceComplete == (p.complete && p.sourceComplete)
      && c.processed != [] && c.processed[|c.processed| - 1] == CursorKey(p)
  {
  }

  lemma EventRecalled(w: Intake, e: FullRuns.Event, r: RunKey, last: Option<Page>)
    requires Recalls(w, r, last)
    ensures Recalls(NextIntake(w, e), r, if Lands(w, e, r) then Some(e.p) else last)
  {
    match e
    case Stepped(step) =>
    case Paged(p, order) =>
      IngestCases(w, p, order);
      PageRecalled(w, p, order, Ingest(w, p, order), r, last);
  }

  lemma {:induction false} RowsRecallTheLastPage(sources: map<string, int>, policies: map<string, Rules>,
                                                 events: seq<FullRuns.Event>, r: RunKey)
    ensures Recalls(Trace(Fresh(sources, policies), events), r, LastPage(Fresh(sources, policies), events, r))
  {
    if events != [] {
      var n := |events| - 1;
      RowsRecallTheLastPage(sources, policies, events[..n], r);
      TraceLast(Fresh(sources, policies), events);
      EventRecalled(Trace(Fresh(sources, policies), events[..n]), events[n], r,
                    LastPage(Fresh(sources, policies), events[..n], r));
    }
  }

  /** In every trace, a delta page that takes effect and names a snapshot comes after that snapshot's completing page:
      the last page of that full run completed it, on the word of its source; and the delta starts at its position. */
  lemma DeltaFollowsSnapshot(sources: map<string, int>, policies: map<string, Rules>, events: seq<FullRuns.Event>,
                             p: Page, order: seq<ObjectKey>)
    requires p.mode == "delta" && Present(p.handoff)
    requires var w := Trace(Fresh(sources, policies), events); OpenRun(w, p).Ready? && Ingest(w, p, order).Commit?
    ensures var w := Trace(Fresh(sources, policies), events);
      var parent := RunKey(p.source, p.domain, p.handoff.value);
      var last := LastPage(Fresh(sources, policies), events, parent);
      && last.Some? && last.value.mode == "full" && last.value.complete && last.value.sourceComplete
      && parent in w.runs && OpenRun(w, p).row.position == w.runs[parent].position
  {
    var w := Trace(Fresh(sources, policies), events);
    PageOpensIff(w, p);
    RowsRecallTheLastPage(sources, policies, events, RunKey(p.source, p.domain, p.handoff.value));
  }

  /** The pages of a run follow each other: the next page that takes effect has the cursor the last one announced. */
  lemma PagesFollowCursors(sources: map<string, int>, policies: map<string, Rules>, events: seq<FullRuns.Event>,
                           p: Page, order: seq<ObjectKey>)
    requires var w := Trace(Fresh(sources, policies), events); OpenRun(w, p).Ready? && Ingest(w, p, order).Commit?
    ensures p.run.Some?
    ensures var last := LastPage(Fresh(sources, policies), events, RunKey(p.source, p.domain, p.run.value));
      if last.Some? then p.cursor == last.value.next && p.mode == last.value.mode
      else p.cursor in {None, Some(""), Some("0")}
  {
    var w := Trace(Fresh(sources, policies), events);
    PageOpensIff(w, p);
    RowsRecallTheLastPage(sources, policies, events, RunKey(p.source, p.domain, p.run.value));
  }

  // ---- completion ----

  /** Some page of run `r` that took effect completed it: by its own word, or as the last page of a delta. */
  ghost predicate CompletedBy(w: Intake, events: seq<FullRuns.Event>, r: RunKey)
    decreases |events|
  {
    events != [] &&
    (|| (Lands(w, events[0], r)
         && (events[0].p.complete || (events[0].p.mode == "delta" && events[0].p.next.None?)))
     || CompletedBy(NextIntake(w, events[0]), events[1..], r))
  }

  predicate IsComplete(w: Intake, r: RunKey) {
    r in w.runs && w.runs[r].complete
  }

  lemma PageCompletes(w: Intake, p: Page, order: seq<ObjectKey>, reply: Reply<Intake>, r: RunKey)
    requires IngestOutcome(w, p, order, reply)
    ensures IsComplete(After(w, reply), r) <==>
      || IsComplete(w, r)
      || (&& reply.Commit? && OpenRun(w, p).Ready? && Given(p.run) && KeyOf(p) == r
          && (p.complete || (p.mode == "delta" && p.next.None?)))
  {
    if OpenRun(w, p).Ready? {
      OpenKeeps(w, p);
      OpensAsBefore(w, p);
    }
  }

  lemma OpensAsBefore(w: Intake, p: Page)
    requires OpenRun(w, p).Ready?
    ensures OpenRun(w, p).row.complete == IsComplete(w, KeyOf(p))
  {
  }

  lemma EventCompletes(w: Intake, e: FullRuns.Event, r: RunKey)
    ensures IsComplete(NextIntake(w, e), r) <==>
      IsComplete(w, r) || (Lands(w, e, r) && (e.p.complete || (e.p.mode == "delta" && e.p.next.None?)))
  {
    match e
    case Stepped(step) =>
    case Paged(p, order) =>
      IngestCases(w, p, order);
      PageCompletes(w, p, order, Ingest(w, p, order), r);
  }

  /** A run counts as complete exactly when one of its pages that took effect completed it. */
  lemma {:induction false} CompleteIff(w: Intake, events: seq<FullRuns.Event>, r: RunKey)
    ensures IsComplete(Trace(w, events), r) <==> IsComplete(w, r) || CompletedBy(w, events, r)
    decreases |events|
  {
    if events != [] {
      EventCompletes(w, events[0], r);
      CompleteIff(NextIntake(w, events[0]), events[1..], r);
    }
  }

  // ---- whom a completing page leaves alone ----

  lemma RowSparesOther(s: Store, j: ObjectKey, item: Item, pick: Option<ObjectKey>, k: ObjectKey)
    requires Kept(Intake(s, map[])) && Attempt(s, ObserveStep(j, item, pick)).Commit? && j != k
    ensures Spares(s, Next(s, ObserveStep(j, item, pick)), k)
  {
    CommittedObserve(s, j, item, pick);
    ObserveSpares(s, j, item, pick, Next(s, ObserveStep(j, item, pick)), k);
  }

  lemma {:induction false} RowsSpareOthers(s: Store, p: Page, rows: seq<Row>, k: ObjectKey)
    requires Kept(Intake(s, map[])) && AllCommit(s, RowSteps(p, rows))
    requires forall i :: 0 <= i < |rows| ==> ObjectKey(p.source, p.domain, rows[i].local) != k
    ensures Spares(s, Run(s, RowSteps(p, rows)), k)
    decreases |rows|
  {
    if rows != [] {
      StepKept(s, RowSteps(p, rows)[0]);
      RowSparesOther(s, ObjectKey(p.source, p.domain, rows[0].local), rows[0].item, rows[0].pick, k);
      RowsSpareOthers(Next(s, RowSteps(p, rows)[0]), p, rows[1..], k);
    }
  }

  /** A page touches only the objects of its rows and, when it completes a full run, active ones: a retired object gets
      no second tombstone, and objects of other sources and domains none at all. */
  lemma PageSparesOthers(w: Intake, p: Page, order: seq<ObjectKey>, t: Intake, k: ObjectKey)
    requires Kept(w) && PageDone(w, p, order, t)
    requires forall i :: 0 <= i < |p.rows| ==> ObjectKey(p.source, p.domain, p.rows[i].local) != k
    requires !(k in w.db.objects && !w.db.objects[k].retired && k.source == p.source && k.domain == p.domain)
      || !(p.complete && Present(p.run) && p.mode == "full")
    ensures Spares(w.db, t.db, k)
  {
    CommitAppend(w.db, RowSteps(p, p.rows), TombSteps(order, RunId(p)));
    RunKept(w.db, RowSteps(p, p.rows));
    RowsSpareOthers(w.db, p, p.rows, k);
    ListsMembers(order, Doomed(w, p, OpenRun(w, p)), k);
    TombstonesRetire(AfterRows(w, p), order, RunId(p), k);
  }
}
