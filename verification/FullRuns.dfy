/** Paged ingestion runs: a page is one transaction, a completing page of a full run retires what the run never saw. */
module FullRuns {
  import opened Prelude
  import opened Survivorship
  import opened Store
  import opened Steps
  import opened Effects
  import opened Grounding
  import opened Delivery
  import opened Redelivery

  datatype RunKey = RunKey(source: string, domain: string, id: string)

  /** An ingestion run: `processed` and `next` are its checkpoint, `seen` its seen local identifiers. */
  datatype RunRow = RunRow(
    mode: string, position: Option<string>, processed: seq<string>, next: Option<string>,
    seen: set<string>, sourceComplete: bool, complete: bool)

  /** One incoming record; `pick` is the outcome of its candidate query. */
  datatype Row = Row(local: string, item: Item, pick: Option<ObjectKey>)

  datatype Page = Page(
    source: string, domain: string, rows: seq<Row>, complete: bool, run: Option<string>, mode: string,
    cursor: Option<string>, next: Option<string>, position: Option<string>, handoff: Option<string>,
    sourceComplete: bool)

  datatype Intake = Intake(db: Store, runs: map<RunKey, RunRow>)

  // ---- opening the run ----

  /** The empty string counts as absent. */
  predicate Given(x: Option<string>) {
    x.Some? && x.value != ""
  }

  function PageKey(p: Page): string {
    if Given(p.cursor) then p.cursor.value else "__start__"
  }

  function KeyOf(p: Page): RunKey {
    RunKey(p.source, p.domain, if p.run.Some? then p.run.value else "")
  }

  datatype Opening = NoRun | Duplicate | Refused(code: string) | Ready(row: RunRow)

  function OpenRun(w: Intake, p: Page): Opening {
    if !Given(p.run) then
      if p.sourceComplete then Refused("completeness_requires_run_id") else NoRun
    else if KeyOf(p) in w.runs then
      var row := w.runs[KeyOf(p)];
      if row.mode != p.mode then Refused("ingestion_run_mode_mismatch")
      else if PageKey(p) in row.processed then Duplicate
      else if row.processed != [] && p.cursor != row.next then Refused("ingestion_cursor_mismatch")
      else Handoff(w, p, row)
    else if p.cursor !in {None, Some(""), Some("0")} then Refused("ingestion_run_not_started")
    else Handoff(w, p, RunRow(p.mode, p.position, [], None, {}, false, false))
  }

  /** A delta run may start only from a complete full run. */
  function Handoff(w: Intake, p: Page, row: RunRow): Opening {
    if !Given(p.handoff) then Ready(row)
    else if p.mode == "full" then Refused("full_run_cannot_have_handoff")
    else if p.mode != "delta" then Ready(row)
    else
      var parent := RunKey(p.source, p.domain, p.handoff.value);
      if parent in w.runs && w.runs[parent].mode == "full" && w.runs[parent].complete && w.runs[parent].sourceComplete
      then Ready(row.(position := w.runs[parent].position))
      else Refused("snapshot_handoff_not_ready")
  }

  predicate Allowed(p: Page) {
    p.complete && Given(p.run) ==> p.mode == "full" && p.sourceComplete
  }

  // ---- the work of a page ----

  /** Local identifiers the page shows undeleted. */
  function Shown(rows: seq<Row>): set<string> {
    set i | 0 <= i < |rows| && !rows[i].item.deleted :: rows[i].local
  }

  predicate Completes(p: Page) {
    p.complete && Given(p.run) && p.mode == "full"
  }

  predicate Belongs(p: Page, k: ObjectKey) {
    k.source == p.source && k.domain == p.domain
  }

  /** Active objects of the source and domain that the run never showed. */
  function Unseen(s: Store, p: Page, seen: set<string>): set<ObjectKey> {
    set k | k in s.objects && Belongs(p, k) && !s.objects[k].retired && k.local !in seen
  }

  function Tombstone(run: string): Item {
    Item("snapshot-delete:" + run, map[], map[], None, None, true, true)
  }

  function RowSteps(p: Page, rows: seq<Row>): (steps: seq<Step>)
    ensures |steps| == |rows|
  {
    if rows == [] then []
    else
      [ObserveStep(ObjectKey(p.source, p.domain, rows[0].local), rows[0].item, rows[0].pick)]
      + RowSteps(p, rows[1..])
  }

  function TombSteps(order: seq<ObjectKey>, run: string): (steps: seq<Step>)
    ensures |steps| == |order|
  {
    if order == [] then [] else [ObserveStep(order[0], Tombstone(run), None)] + TombSteps(order[1..], run)
  }

  ghost predicate AllCommit(s: Store, steps: seq<Step>)
    decreases |steps|
  {
    steps == [] || (Attempt(s, steps[0]).Commit? && AllCommit(Next(s, steps[0]), steps[1..]))
  }

  function SeenAfter(row: RunRow, p: Page): set<string> {
    row.seen + Shown(p.rows)
  }

  /** The run row after a committed page. */
  function Checkpointed(row: RunRow, p: Page): RunRow {
    row.(processed := row.processed + [PageKey(p)], next := p.next, seen := SeenAfter(row, p),
         sourceComplete := p.complete && p.sourceComplete,
         complete := row.complete || p.complete || (p.mode == "delta" && p.next.None?))
  }

  function RunId(p: Page): string { if p.run.Some? then p.run.value else "" }

  function Doomed(w: Intake, p: Page, o: Opening): set<ObjectKey> {
    if o.Ready? && Completes(p) then Unseen(w.db, p, SeenAfter(o.row, p)) else {}
  }

  function Work(p: Page, order: seq<ObjectKey>): seq<Step> {
    RowSteps(p, p.rows) + TombSteps(order, RunId(p))
  }

  /** `ingest`: one page in one transaction. `order` lists the unseen objects as the query returned them. */
  ghost function Ingest(w: Intake, p: Page, order: seq<ObjectKey>): Reply<Intake> {
    if p.source !in w.db.sources || p.domain !in w.db.policies then Abort("source_or_domain_not_found")
    else
      var o := OpenRun(w, p);
      if o.Refused? then Abort(o.code)
      else if o.Duplicate? then Commit(w)
      else if !Allowed(p) then Abort("snapshot_completion_refused")
      else if !Lists(order, Doomed(w, p, o)) then Abort("not_a_query_result")
      else if !AllCommit(w.db, Work(p, order)) then Abort("ingestion_failed")
      else
        var db := Run(w.db, Work(p, order));
        Commit(if o.Ready? then Intake(db, w.runs[KeyOf(p) := Checkpointed(o.row, p)]) else Intake(db, w.runs))
  }

  /** A page that was not processed before has committed. */
  ghost predicate PageDone(w: Intake, p: Page, order: seq<ObjectKey>, t: Intake) {
    var o := OpenRun(w, p);
    && p.source in w.db.sources && p.domain in w.db.policies && (o.Ready? || o.NoRun?) && Allowed(p)
    && Lists(order, Doomed(w, p, o))
    && AllCommit(w.db, Work(p, order)) && t.db == Run(w.db, Work(p, order))
    && t.runs == if o.Ready? then w.runs[KeyOf(p) := Checkpointed(o.row, p)] else w.runs
  }

  ghost predicate IngestOutcome(w: Intake, p: Page, order: seq<ObjectKey>, r: Reply<Intake>) {
    || r.Abort?
    || (r == Commit(w) && OpenRun(w, p).Duplicate?)
    || (r.Commit? && PageDone(w, p, order, r.db))
  }

  lemma IngestCases(w: Intake, p: Page, order: seq<ObjectKey>)
    ensures IngestOutcome(w, p, order, Ingest(w, p, order))
  {
  }

  // ---- traces of pages and other steps ----

  datatype Event = Paged(p: Page, order: seq<ObjectKey>) | Stepped(step: Step)

  ghost function NextIntake(w: Intake, e: Event): Intake {
    match e
    case Paged(p, order) => After(w, Ingest(w, p, order))
    case Stepped(step) => w.(db := Next(w.db, step))
  }

  ghost function Trace(w: Intake, events: seq<Event>): Intake
    decreases |events|
  {
    if events == [] then w else Trace(NextIntake(w, events[0]), events[1..])
  }

  /** The page takes effect: it commits and was not processed before. */
  ghost predicate Lands(w: Intake, e: Event, r: RunKey) {
    && e.Paged? && Given(e.p.run) && KeyOf(e.p) == r
    && Ingest(w, e.p, e.order).Commit? && OpenRun(w, e.p).Ready?
  }

  /** Local identifiers shown undeleted by the committed pages of run `r`. */
  ghost function ShownBy(w: Intake, events: seq<Event>, r: RunKey): set<string>
    decreases |events|
  {
    if events == [] then {}
    else
      (if Lands(w, events[0], r) then Shown(events[0].p.rows) else {})
      + ShownBy(NextIntake(w, events[0]), events[1..], r)
  }

  function SeenOf(w: Intake, r: RunKey): set<string> {
    if r in w.runs then w.runs[r].seen else {}
  }

  lemma PageSeen(w: Intake, p: Page, order: seq<ObjectKey>, reply: Reply<Intake>, r: RunKey)
    requires IngestOutcome(w, p, order, reply)
    ensures SeenOf(After(w, reply), r) ==
      SeenOf(w, r) + if reply.Commit? && Given(p.run) && KeyOf(p) == r && OpenRun(w, p).Ready? then Shown(p.rows)
          else {}
  {
    if OpenRun(w, p).Ready? { OpenKeeps(w, p); }
  }

  /** Opening reads the run row as its committed pages left it. */
  lemma OpenKeeps(w: Intake, p: Page)
    requires OpenRun(w, p).Ready?
    ensures Given(p.run)
    ensures var row := OpenRun(w, p).row;
      && row.seen == SeenOf(w, KeyOf(p)) && row.mode == p.mode
      && row.processed == (if KeyOf(p) in w.runs then w.runs[KeyOf(p)].processed else [])
      && PageKey(p) !in row.processed
  {
  }

  lemma NextSeen(w: Intake, e: Event, r: RunKey)
    ensures SeenOf(NextIntake(w, e), r) == SeenOf(w, r) + if Lands(w, e, r) then Shown(e.p.rows) else {}
  {
    if e.Paged? {
      IngestCases(w, e.p, e.order);
      PageSeen(w, e.p, e.order, Ingest(w, e.p, e.order), r);
    }
  }

  /** The run row remembers exactly what its committed pages showed. */
  lemma {:induction false} SeenIsShown(w: Intake, events: seq<Event>, r: RunKey)
    ensures SeenOf(Trace(w, events), r) == SeenOf(w, r) + ShownBy(w, events, r)
    decreases |events|
  {
    if events != [] {
      NextSeen(w, events[0], r);
      SeenIsShown(NextIntake(w, events[0]), events[1..], r);
    }
  }

  // ---- what the work of a page does ----

  predicate Active(s: Store, k: ObjectKey) {
    k in s.objects && !s.objects[k].retired
  }

  ghost predicate Registered(s: Store) {
    forall r :: r in s.records ==> r.owner in s.objects
  }

  /** A step on other objects: this object's row and records are as before. */
  ghost predicate Spares(s: Store, t: Store, k: ObjectKey) {
    && ObjectOr(t, k) == ObjectOr(s, k) && (k in t.objects <==> k in s.objects)
    && (forall r: RecordKey :: r.owner == k ==> (r in t.records <==> r in s.records))
  }

  lemma FirstSightSpares(s: Store, k: ObjectKey, item: Item, pick: Option<ObjectKey>, t: Store, j: ObjectKey)
    requires Grounded(s) && FirstSight(s, k, item, pick, t) && j != k
    ensures Spares(s, t, j)
  {
    ObserveEffect(s, k, item, pick, t);
    SettledKeys(s, k, item, pick, t);
  }

  lemma SettledKeys(s: Store, k: ObjectKey, item: Item, pick: Option<ObjectKey>, t: Store)
    requires Grounded(s) && FirstSight(s, k, item, pick, t)
    ensures t.objects.Keys == s.objects.Keys + {k}
  {
    ReceivedGrounded(s, k, item);
    SettlesReassigns(Received(s, k, item), k, RecordKey(k, item.version), pick, t);
  }

  lemma ObserveSpares(s: Store, k: ObjectKey, item: Item, pick: Option<ObjectKey>, t: Store, j: ObjectKey)
    requires Grounded(s) && ObserveOutcome(s, k, item, pick, Commit(t)) && j != k
    ensures Spares(s, t, j)
  {
    if RecordKey(k, item.version) in s.records {
      assert t == Known(s, k);
    } else {
      FirstSightSpares(s, k, item, pick, t, j);
    }
  }

  /** A deleted observation never makes an object active, and it is on record afterwards. */
  lemma DeletionRetires(s: Store, k: ObjectKey, item: Item, pick: Option<ObjectKey>, t: Store)
    requires Grounded(s) && Registered(s) && ObserveOutcome(s, k, item, pick, Commit(t)) && item.deleted
    ensures RecordKey(k, item.version) in t.records
    ensures Active(t, k) ==> Active(s, k)
    ensures RecordKey(k, item.version) in s.records ==>
        ObjectOr(t, k) == ObjectOr(s, k) && (k in t.objects <==> k in s.objects)
    ensures RecordKey(k, item.version) !in s.records && item.sequence.None? && item.effective.None? ==> !Active(t, k)
  {
    if RecordKey(k, item.version) in s.records {
      assert t == Known(s, k) && k in s.objects;
    } else {
      ObserveEffect(s, k, item, pick, t);
      var obj := ObjectOr(s, k);
      assert RecordOf(s, k, item).state != Quarantine;
      assert k !in s.objects ==> Supersedes(obj, item);
      assert t.objects[k].retired == Observed(obj, item, RecordKey(k, item.version), false).retired;
    }
  }

  lemma StepKept(s: Store, step: Step)
    requires Grounded(s) && Registered(s)
    ensures Grounded(Next(s, step)) && Registered(Next(s, step))
  {
    NextGrounded(s, step);
    NextKeepsRecords(s, step);
  }

  lemma {:induction false} RunKept(s: Store, steps: seq<Step>)
    requires Grounded(s) && Registered(s)
    ensures Grounded(Run(s, steps)) && Registered(Run(s, steps))
    decreases |steps|
  {
    if steps != [] {
      StepKept(s, steps[0]);
      RunKept(Next(s, steps[0]), steps[1..]);
    }
  }

  lemma CommittedObserve(s: Store, k: ObjectKey, item: Item, pick: Option<ObjectKey>)
    requires Attempt(s, ObserveStep(k, item, pick)).Commit?
    ensures ObserveOutcome(s, k, item, pick, Commit(Next(s, ObserveStep(k, item, pick))))
  {
    ObserveCases(s, k, item, pick);
  }

  /** The page's own rows make no unshown object active. */
  lemma {:induction false} RowsActivateOnlyShown(s: Store, p: Page, rows: seq<Row>, k: ObjectKey)
    requires Grounded(s) && Registered(s) && AllCommit(s, RowSteps(p, rows))
    requires Belongs(p, k) && k.local !in Shown(rows)
    ensures Active(Run(s, RowSteps(p, rows)), k) ==> Active(s, k)
    decreases |rows|
  {
    if rows != [] {
      var j := ObjectKey(p.source, p.domain, rows[0].local);
      var t := Next(s, RowSteps(p, rows)[0]);
      CommittedObserve(s, j, rows[0].item, rows[0].pick);
      StepKept(s, RowSteps(p, rows)[0]);
      if j == k {
        assert rows[0].item.deleted;
        DeletionRetires(s, j, rows[0].item, rows[0].pick, t);
      } else {
        ObserveSpares(s, j, rows[0].item, rows[0].pick, t, k);
      }
      assert k.local !in Shown(rows[1..]) by {
        forall i | 0 <= i < |rows[1..]| && !rows[1..][i].item.deleted ensures rows[1..][i].local != k.local {
          assert rows[i + 1] == rows[1..][i];
        }
      }
      RowsActivateOnlyShown(t, p, rows[1..], k);
    }
  }

  /** Tombstones touch only the objects listed, and retire each one that has no record of that version yet. */
  lemma {:induction false} TombstonesRetire(s: Store, order: seq<ObjectKey>, run: string, k: ObjectKey)
    requires Grounded(s) && Registered(s) && AllCommit(s, TombSteps(order, run))
    ensures var t := Run(s, TombSteps(order, run));
      && (k !in order ==> Spares(s, t, k))
      && (k in order && RecordKey(k, Tombstone(run).version) !in s.records ==> !Active(t, k))
      && (k in order && RecordKey(k, Tombstone(run).version) in s.records ==> (Active(t, k) <==> Active(s, k)))
    decreases |order|
  {
    if order != [] {
      var step := TombSteps(order, run)[0];
      var t := Next(s, step);
      CommittedObserve(s, order[0], Tombstone(run), None);
      StepKept(s, step);
      if order[0] == k { DeletionRetires(s, k, Tombstone(run), None, t); }
      else { ObserveSpares(s, order[0], Tombstone(run), None, t, k); }
      TombstonesRetire(t, order[1..], run, k);
    }
  }

  /** A row retires no other object, nor its own unless it is a deletion. */
  lemma RowSpares(s: Store, j: ObjectKey, item: Item, pick: Option<ObjectKey>, k: ObjectKey)
    requires Grounded(s) && Registered(s) && Attempt(s, ObserveStep(j, item, pick)).Commit?
    requires Active(s, k) && (j == k ==> !item.deleted)
    ensures Active(Next(s, ObserveStep(j, item, pick)), k)
  {
    var t := Next(s, ObserveStep(j, item, pick));
    CommittedObserve(s, j, item, pick);
    if j == k { ObservationKeepsActive(s, j, item, pick, t); } else { ObserveSpares(s, j, item, pick, t, k); }
  }

  /** The page's own rows retire only what they delete. */
  lemma {:induction false} RowsRetireOnlyDeleted(s: Store, p: Page, rows: seq<Row>, k: ObjectKey)
    requires Grounded(s) && Registered(s) && AllCommit(s, RowSteps(p, rows))
    requires forall i :: 0 <= i < |rows| && ObjectKey(p.source, p.domain, rows[i].local) == k ==> !rows[i].item.deleted
    requires Active(s, k)
    ensures Active(Run(s, RowSteps(p, rows)), k)
    decreases |rows|
  {
    if rows != [] {
      StepKept(s, RowSteps(p, rows)[0]);
      RowSpares(s, ObjectKey(p.source, p.domain, rows[0].local), rows[0].item, rows[0].pick, k);
      RowsRetireOnlyDeleted(Next(s, RowSteps(p, rows)[0]), p, rows[1..], k);
    }
  }

  lemma ObservationKeepsActive(s: Store, k: ObjectKey, item: Item, pick: Option<ObjectKey>, t: Store)
    requires Grounded(s) && ObserveOutcome(s, k, item, pick, Commit(t)) && !item.deleted && Active(s, k)
    ensures Active(t, k)
  {
    if RecordKey(k, item.version) !in s.records {
      ObserveEffect(s, k, item, pick, t);
      assert t.objects[k].retired ==
        Observed(s.objects[k], item, RecordKey(k, item.version), RecordOf(s, k, item).state == Quarantine).retired;
    }
  }

  lemma {:induction false} CommitAppend(s: Store, a: seq<Step>, b: seq<Step>)
    ensures Run(s, a + b) == Run(Run(s, a), b)
    ensures AllCommit(s, a + b) <==> AllCommit(s, a) && AllCommit(Run(s, a), b)
    decreases |a|
  {
    if a == [] {
      assert a + b == b;
    } else {
      assert (a + b)[1..] == a[1..] + b;
      CommitAppend(Next(s, a[0]), a[1..], b);
    }
  }

  ghost predicate Kept(w: Intake) {
    Grounded(w.db) && Registered(w.db)
  }

  /** The state between the page's rows and its tombstones. */
  ghost function AfterRows(w: Intake, p: Page): Store {
    Run(w.db, RowSteps(p, p.rows))
  }

  /** A page that does not complete a full run retires only objects that one of its rows deletes. */
  lemma NoInferredRetirement(w: Intake, p: Page, order: seq<ObjectKey>, t: Intake, k: ObjectKey)
    requires Kept(w) && PageDone(w, p, order, t) && !Completes(p)
    requires Active(w.db, k) && !Active(t.db, k)
    ensures exists i ::
        0 <= i < |p.rows| && p.rows[i].item.deleted && ObjectKey(p.source, p.domain, p.rows[i].local) == k
  {
    NothingListed(order, Doomed(w, p, OpenRun(w, p)));
    assert Work(p, order) == RowSteps(p, p.rows);
    if forall i :: 0 <= i < |p.rows| && ObjectKey(p.source, p.domain, p.rows[i].local) == k ==>
        !p.rows[i].item.deleted {
      RowsRetireOnlyDeleted(w.db, p, p.rows, k);
    }
  }

  lemma NothingListed(order: seq<ObjectKey>, none: set<ObjectKey>)
    requires Lists(order, none) && none == {}
    ensures order == []
  {
  }

  lemma ListsMembers(order: seq<ObjectKey>, members: set<ObjectKey>, k: ObjectKey)
    requires Lists(order, members)
    ensures k in order <==> k in members
  {
    assert k in order <==> k in (set j | j in order);
  }

  /** The completing page, object by object: an object the run showed is not retired by inference; an object it never
      showed ends active exactly when it was active and the tombstone's version was already on record. */
  lemma CompletionDecides(w: Intake, p: Page, order: seq<ObjectKey>, t: Intake, k: ObjectKey)
    requires Kept(w) && PageDone(w, p, order, t) && Completes(p) && OpenRun(w, p).Ready? && Belongs(p, k)
    ensures k.local in SeenAfter(OpenRun(w, p).row, p) ==> (Active(t.db, k) <==> Active(AfterRows(w, p), k))
    ensures k.local !in SeenAfter(OpenRun(w, p).row, p) ==>
      (Active(t.db, k) <==>
         Active(AfterRows(w, p), k) && RecordKey(k, Tombstone(RunId(p)).version) in AfterRows(w, p).records)
  {
    var seen := SeenAfter(OpenRun(w, p).row, p);
    var s1 := AfterRows(w, p);
    var doomed := Unseen(w.db, p, seen);
    assert Doomed(w, p, OpenRun(w, p)) == doomed;
    CommitAppend(w.db, RowSteps(p, p.rows), TombSteps(order, RunId(p)));
    RunKept(w.db, RowSteps(p, p.rows));
    TombstonesRetire(s1, order, RunId(p), k);
    ListsMembers(order, doomed, k);
    if k.local !in seen { RowsActivateOnlyShown(w.db, p, p.rows, k); }
  }

  // ---- over whole traces ----

  lemma NextIntakeKept(w: Intake, e: Event)
    requires Kept(w)
    ensures Kept(NextIntake(w, e))
  {
    match e
    case Stepped(step) => StepKept(w.db, step);
    case Paged(p, order) => IngestCases(w, p, order); PageKept(w, p, order, Ingest(w, p, order));
  }

  lemma PageKept(w: Intake, p: Page, order: seq<ObjectKey>, r: Reply<Intake>)
    requires Kept(w) && IngestOutcome(w, p, order, r)
    ensures Kept(After(w, r))
  {
    if r.Commit? && PageDone(w, p, order, r.db) { RunKept(w.db, Work(p, order)); }
  }

  lemma {:induction false} TraceKept(w: Intake, events: seq<Event>)
    requires Kept(w)
    ensures Kept(Trace(w, events))
    decreases |events|
  {
    if events != [] {
      NextIntakeKept(w, events[0]);
      TraceKept(NextIntake(w, events[0]), events[1..]);
    }
  }

  ghost function Fresh(sources: map<string, int>, policies: map<string, Rules>): Intake {
    Intake(Empty(sources, policies), map[])
  }

  /** After any trace, when the completing page of a full run commits and its tombstone versions are new, every
      active object of the source and domain was shown undeleted by a committed page of that run. */
  lemma EveryActiveObjectWasShown(sources: map<string, int>, policies: map<string, Rules>, events: seq<Event>,
                                  p: Page, order: seq<ObjectKey>, t: Intake, k: ObjectKey)
    requires var w := Trace(Fresh(sources, policies), events);
      && Ingest(w, p, order) == Commit(t) && OpenRun(w, p).Ready? && Completes(p)
      && (forall j :: j in order ==> RecordKey(j, Tombstone(RunId(p)).version) !in AfterRows(w, p).records)
    requires Active(t.db, k) && Belongs(p, k)
    ensures k.local in ShownBy(Fresh(sources, policies), events, KeyOf(p)) + Shown(p.rows)
  {
    var w := Trace(Fresh(sources, policies), events);
    EmptyGrounded(sources, policies);
    TraceKept(Fresh(sources, policies), events);
    IngestCases(w, p, order);
    OpenKeeps(w, p);
    SeenIsShown(Fresh(sources, policies), events, KeyOf(p));
    ShownAtCompletion(w, p, order, t, k);
  }

  lemma ShownAtCompletion(w: Intake, p: Page, order: seq<ObjectKey>, t: Intake, k: ObjectKey)
    requires Kept(w) && PageDone(w, p, order, t) && Completes(p) && OpenRun(w, p).Ready? && Belongs(p, k)
    requires forall j :: j in order ==> RecordKey(j, Tombstone(RunId(p)).version) !in AfterRows(w, p).records
    requires Active(t.db, k)
    ensures k.local in SeenAfter(OpenRun(w, p).row, p)
  {
    CompletionDecides(w, p, order, t, k);
    CommitAppend(w.db, RowSteps(p, p.rows), TombSteps(order, RunId(p)));
    if k.local !in SeenAfter(OpenRun(w, p).row, p) {
      RowsActivateOnlyShown(w.db, p, p.rows, k);
      ListsMembers(order, Doomed(w, p, OpenRun(w, p)), k);
    }
  }

  /** Runs keep their mode and never forget a processed page; sources and domains stay. */
  ghost predicate Remembers(w: Intake, u: Intake) {
    && u.db.sources == w.db.sources && u.db.policies.Keys == w.db.policies.Keys
    && forall r :: r in w.runs ==>
         && r in u.runs && u.runs[r].mode == w.runs[r].mode
         && forall c :: c in w.runs[r].processed ==> c in u.runs[r].processed
  }

  lemma PageRemembers(w: Intake, p: Page, order: seq<ObjectKey>, r: Reply<Intake>)
    requires Kept(w) && IngestOutcome(w, p, order, r)
    ensures Remembers(w, After(w, r))
  {
    if r.Commit? && PageDone(w, p, order, r.db) {
      RunKeepsRecords(w.db, Work(p, order));
      if OpenRun(w, p).Ready? { OpenKeeps(w, p); }
    }
  }

  lemma NextRemembers(w: Intake, e: Event)
    requires Kept(w)
    ensures Remembers(w, NextIntake(w, e))
  {
    match e
    case Stepped(step) => NextKeepsRecords(w.db, step);
    case Paged(p, order) => IngestCases(w, p, order); PageRemembers(w, p, order, Ingest(w, p, order));
  }

  lemma {:induction false} TraceRemembers(w: Intake, events: seq<Event>)
    requires Kept(w)
    ensures Remembers(w, Trace(w, events))
    decreases |events|
  {
    if events != [] {
      NextIntakeKept(w, events[0]);
      NextRemembers(w, events[0]);
      TraceRemembers(NextIntake(w, events[0]), events[1..]);
    }
  }

  /** Replaying a committed page of a run, at any later time, changes nothing. */
  lemma ReplayIsIdle(w: Intake, p: Page, order: seq<ObjectKey>, events: seq<Event>, again: seq<ObjectKey>)
    requires Kept(w) && Given(p.run) && Ingest(w, p, order).Commit?
    ensures var u := Trace(Ingest(w, p, order).db, events); Ingest(u, p, again) == Commit(u)
  {
    var t := Ingest(w, p, order).db;
    IngestCases(w, p, order);
    PageKept(w, p, order, Commit(t));
    Processed(w, p, order, t);
    TraceRemembers(t, events);
    ProcessedIsIdle(Trace(t, events), p, again);
  }

  lemma Processed(w: Intake, p: Page, order: seq<ObjectKey>, t: Intake)
    requires Kept(w) && Given(p.run) && IngestOutcome(w, p, order, Commit(t)) && Ingest(w, p, order) == Commit(t)
    ensures KeyOf(p) in t.runs && t.runs[KeyOf(p)].mode == p.mode && PageKey(p) in t.runs[KeyOf(p)].processed
    ensures p.source in t.db.sources && p.domain in t.db.policies
  {
    PageRemembers(w, p, order, Commit(t));
    if OpenRun(w, p).Ready? { OpenKeeps(w, p); }
  }

  lemma ProcessedIsIdle(u: Intake, p: Page, again: seq<ObjectKey>)
    requires Given(p.run) && KeyOf(p) in u.runs && u.runs[KeyOf(p)].mode == p.mode
    requires PageKey(p) in u.runs[KeyOf(p)].processed && p.source in u.db.sources && p.domain in u.db.policies
    ensures Ingest(u, p, again) == Commit(u)
  {
    assert OpenRun(u, p).Duplicate?;
  }

  // ---- paged ingestion is a run of single observations ----

  ghost function Flat(w: Intake, e: Event): seq<Step> {
    match e
    case Stepped(step) => [step]
    case Paged(p, order) =>
      if Ingest(w, p, order).Commit? && !OpenRun(w, p).Duplicate? then Work(p, order) else []
  }

  ghost function Flatten(w: Intake, events: seq<Event>): seq<Step>
    decreases |events|
  {
    if events == [] then [] else Flat(w, events[0]) + Flatten(NextIntake(w, events[0]), events[1..])
  }

  lemma EventIsARun(w: Intake, e: Event)
    ensures NextIntake(w, e).db == Run(w.db, Flat(w, e))
  {
    match e
    case Stepped(step) => assert Run(Next(w.db, step), [step][1..]) == Next(w.db, step);
    case Paged(p, order) => IngestCases(w, p, order); PageIsARun(w, p, order, Ingest(w, p, order));
  }

  lemma PageIsARun(w: Intake, p: Page, order: seq<ObjectKey>, r: Reply<Intake>)
    requires IngestOutcome(w, p, order, r)
    ensures After(w, r).db == Run(w.db, if r.Commit? && !OpenRun(w, p).Duplicate? then Work(p, order) else [])
  {
    if r.Commit? && !PageDone(w, p, order, r.db) { assert OpenRun(w, p).Duplicate?; }
  }

  /** Every trace of pages and other steps is a run, so what holds of all runs holds of paged ingestion. */
  lemma {:induction false} TraceIsARun(w: Intake, events: seq<Event>)
    ensures Trace(w, events).db == Run(w.db, Flatten(w, events))
    decreases |events|
  {
    if events != [] {
      EventIsARun(w, events[0]);
      TraceIsARun(NextIntake(w, events[0]), events[1..]);
      JoinRuns(w.db, Flat(w, events[0]), Flatten(NextIntake(w, events[0]), events[1..]));
    }
  }

  lemma JoinRuns(s: Store, a: seq<Step>, b: seq<Step>)
    ensures Run(s, a + b) == Run(Run(s, a), b)
  {
    CommitAppend(s, a, b);
  }
}
