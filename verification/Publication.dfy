/** The outbox relay, its reconciliation, and an idempotent consumer. */
module Publication {
  import opened Prelude

  const BATCH_LIMIT := 100
  const ATTEMPT_LIMIT := 5

  datatype Status = Pending | Retry | Reconcile | Delivered | DeadLetter
  datatype TryStatus = Sending | Confirmed | Ambiguous | Rejected | Failed
  datatype Try = Try(number: nat, status: TryStatus)

  /** An outbox row and its delivery attempts. `version` is the row's entity version; `claimed` is
      the entity version inside the payload, which the consumer stores and echoes. */
  datatype Message = Message(version: nat, claimed: Option<nat>, status: Status, attempts: nat, tries: seq<Try>)

  datatype Receipt = Receipt(event: nat, version: nat, outcome: string)

  /** A request between the relay's two commits. `arrived`: the consumer has processed it. */
  datatype Flight = Flight(event: nat, arrived: bool)

  /** `applied` is the consumer's table; `effects` lists its inserts. */
  datatype World = World(
    events: seq<Message>, receipts: seq<Receipt>, flight: Option<Flight>,
    applied: map<nat, Option<nat>>, effects: seq<nat>)

  /** What the relay's POST ends in. `Torn` is a read timeout, read error or write error;
      `Unreached` any other transport error. */
  datatype Response = Http(code: int) | Torn | Unreached

  // ---- the consumer ----

  /** `INSERT OR IGNORE` keyed on the event. */
  function Consume(w: World, e: nat): World
    requires e < |w.events|
  {
    if e in w.applied then w
    else w.(applied := w.applied[e := w.events[e].claimed], effects := w.effects + [e])
  }

  // ---- the relay ----

  function SetEvent(w: World, e: nat, m: Message): World
    requires e < |w.events|
  {
    w.(events := w.events[e := m])
  }

  /** First commit: the attempt is counted and the event is marked uncertain. */
  function Marked(m: Message): Message {
    m.(status := Reconcile, attempts := m.attempts + 1, tries := m.tries + [Try(m.attempts + 1, Sending)])
  }

  function Closed(m: Message, status: Status, last: TryStatus): Message {
    if m.tries == [] then m.(status := status)
    else m.(status := status, tries := m.tries[|m.tries| - 1 := m.tries[|m.tries| - 1].(status := last)])
  }

  function AfterFailure(m: Message): Status {
    if m.attempts >= ATTEMPT_LIMIT then DeadLetter else Retry
  }

  /** Second commit. */
  function Answered(m: Message, r: Response): Message {
    match r
    case Http(code) =>
      if 200 <= code < 300 then Closed(m, Delivered, Confirmed)
      else if code == 429 || code >= 500 then Closed(m, Reconcile, Ambiguous)
      else Closed(m, AfterFailure(m), Rejected)
    case Torn => Closed(m, Reconcile, Ambiguous)
    case Unreached => Closed(m, AfterFailure(m), Failed)
  }

  /** `_receipt`: the row of the event is updated, or added when there is none. */
  function Receipted(rs: seq<Receipt>, r: Receipt): seq<Receipt> {
    if rs == [] then [r]
    else if rs[0].event == r.event then [r] + rs[1..]
    else [rs[0]] + Receipted(rs[1..], r)
  }

  predicate Accepted(r: Response) {
    r.Http? && 200 <= r.code < 300
  }

  predicate Refusal(r: Response) {
    r.Unreached? || (r.Http? && !(200 <= r.code < 300) && r.code != 429 && r.code < 500)
  }

  // ---- reconciliation ----

  /** The consumer's answer to a receipt query. */
  datatype Reply = Absent | Echo(event: nat, version: Option<nat>) | NoAnswer

  /** `event_receipt`. */
  function Lookup(w: World, e: nat): Reply {
    if e in w.applied then Echo(e, w.applied[e]) else Absent
  }

  function Reconciled(w: World, e: nat, reply: Reply): World
    requires e < |w.events|
  {
    var m := w.events[e];
    match reply
    case Absent => SetEvent(w, e, m.(status := Retry))
    case NoAnswer => w
    case Echo(event, version) =>
      if event != e || version != Some(m.version) then w
      else SetEvent(w, e, m.(status := Delivered)).(
        receipts := Receipted(w.receipts, Receipt(e, m.version, "reconciled")))
  }

  // ---- runs ----

  datatype Step =
    | Publish(version: nat, claimed: Option<nat>)
    | Mark(e: nat)
    | Arrive
    | Answer(response: Response)
    | Crash
    | Query(e: nat, answered: bool)
    | Stray(e: nat)

  predicate Sendable(w: World, e: nat) {
    e < |w.events| && w.events[e].status in {Pending, Retry}
  }

  /** One commit, or one event of the network. A step that does not apply changes nothing. */
  function Next(w: World, step: Step): World {
    match step
    case Publish(version, claimed) => w.(events := w.events + [Message(version, claimed, Pending, 0, [])])
    case Mark(e) =>
      if w.flight.Some? || !Sendable(w, e) then w
      else SetEvent(w, e, Marked(w.events[e])).(flight := Some(Flight(e, false)))
    case Arrive =>
      if w.flight.None? || w.flight.value.event >= |w.events| then w
      else Consume(w, w.flight.value.event).(flight := Some(w.flight.value.(arrived := true)))
    case Answer(response) =>
      if w.flight.None? || w.flight.value.event >= |w.events| then w
      else
        var e := w.flight.value.event;
        var m := w.events[e];
        var w1 := SetEvent(w, e, Answered(m, response)).(flight := None);
        if Accepted(response) then w1.(receipts := Receipted(w.receipts, Receipt(e, m.version, "accepted_response")))
        else w1
    case Crash => w.(flight := None)
    case Query(e, answered) =>
      if e >= |w.events| || w.events[e].status != Reconcile then w
      else Reconciled(w, e, if answered then Lookup(w, e) else NoAnswer)
    case Stray(e) => if e < |w.events| then Consume(w, e) else w
  }

  function Run(w: World, steps: seq<Step>): World
    decreases |steps|
  {
    if steps == [] then w else Run(Next(w, steps[0]), steps[1..])
  }

  function Start(): World {
    World([], [], None, map[], [])
  }

  /** The environment assumed: relay and reconciliation do not overlap, no request arrives late, a success answer
      means applied, and a refusal or another transport error means not applied. */
  predicate Fair(w: World, step: Step) {
    match step
    case Answer(r) => w.flight.Some? ==>
      (Accepted(r) ==> w.flight.value.arrived) && (Refusal(r) ==> !w.flight.value.arrived)
    case Query(_, _) => w.flight.None?
    case Stray(_) => false
    case _ => true
  }

  ghost predicate FairRun(w: World, steps: seq<Step>)
    decreases |steps|
  {
    steps == [] || (Fair(w, steps[0]) && FairRun(Next(w, steps[0]), steps[1..]))
  }

  // ---- the invariant ----

  predicate Numbered(m: Message) {
    |m.tries| == m.attempts && forall i :: 0 <= i < |m.tries| ==> m.tries[i].number == i + 1
  }

  ghost predicate HasReceipt(rs: seq<Receipt>, e: nat, version: nat) {
    exists i :: 0 <= i < |rs| && rs[i].event == e && rs[i].version == version
  }

  ghost predicate OneReceiptEach(rs: seq<Receipt>) {
    forall i, j :: 0 <= i < j < |rs| ==> rs[i].event != rs[j].event
  }

  ghost predicate MessageSound(w: World, e: nat)
    requires e < |w.events|
  {
    var m := w.events[e];
    && Numbered(m)
    && (m.status in {Pending, Retry, DeadLetter} ==> e !in w.applied)
    && (m.status == Delivered ==> e in w.applied && HasReceipt(w.receipts, e, m.version))
    && (m.status != Delivered ==> forall i :: 0 <= i < |w.receipts| ==> w.receipts[i].event != e)
  }

  ghost predicate FlightSound(w: World) {
    w.flight.Some? ==>
      && w.flight.value.event < |w.events|
      && w.events[w.flight.value.event].status == Reconcile
      && (w.flight.value.arrived <==> w.flight.value.event in w.applied)
  }

  /** The consumer inserted each applied event once, and only published events. */
  ghost predicate ConsumerSound(w: World) {
    && (forall e :: e in w.applied ==> e < |w.events| && w.applied[e] == w.events[e].claimed)
    && (forall e :: e in w.applied <==> e in w.effects)
    && (forall i, j :: 0 <= i < j < |w.effects| ==> w.effects[i] != w.effects[j])
  }

  ghost predicate Sound(w: World) {
    && (forall e :: 0 <= e < |w.events| ==> MessageSound(w, e))
    && OneReceiptEach(w.receipts)
    && (forall i :: 0 <= i < |w.receipts| ==> w.receipts[i].event < |w.events|)
    && FlightSound(w) && ConsumerSound(w)
  }

  /** An event is receipted once: the row is new. */
  lemma {:induction false} FirstReceipt(rs: seq<Receipt>, r: Receipt)
    requires forall i :: 0 <= i < |rs| ==> rs[i].event != r.event
    ensures Receipted(rs, r) == rs + [r]
  {
    if rs != [] {
      FirstReceipt(rs[1..], r);
      assert rs + [r] == [rs[0]] + (rs[1..] + [r]);
    }
  }

  /** The first row of the event is the one that changes. */
  lemma {:induction false} ReceiptedAt(rs: seq<Receipt>, r: Receipt, i: nat)
    requires i <= |rs| && (forall j :: 0 <= j < i ==> rs[j].event != r.event)
    requires i < |rs| ==> rs[i].event == r.event
    ensures Receipted(rs, r) == if i < |rs| then rs[..i] + [r] + rs[i + 1..] else rs + [r]
  {
    if i == |rs| {
      FirstReceipt(rs, r);
    } else if i > 0 {
      ReceiptedAt(rs[1..], r, i - 1);
      assert rs[..i] == [rs[0]] + rs[1..][..i - 1] && rs[1..][i..] == rs[i + 1..];
    }
  }

  lemma AddedReceipt(rs: seq<Receipt>, r: Receipt)
    requires OneReceiptEach(rs) && forall i :: 0 <= i < |rs| ==> rs[i].event != r.event
    ensures var q := Receipted(rs, r);
      && OneReceiptEach(q) && HasReceipt(q, r.event, r.version)
      && (forall e, v :: HasReceipt(rs, e, v) ==> HasReceipt(q, e, v))
      && (forall i :: 0 <= i < |q| ==> q[i].event == r.event || (i < |rs| && q[i] == rs[i]))
  {
    FirstReceipt(rs, r);
    var q := rs + [r];
    assert q[|rs|] == r;
    forall e, v | HasReceipt(rs, e, v) ensures HasReceipt(q, e, v) {
      var i :| 0 <= i < |rs| && rs[i].event == e && rs[i].version == v;
      assert q[i] == rs[i];
    }
  }

  // ---- one step ----

  lemma ConsumeSound(w: World, e: nat)
    requires ConsumerSound(w) && e < |w.events|
    ensures ConsumerSound(Consume(w, e))
  {
    var q := Consume(w, e);
    assert e !in w.applied ==> q.effects == w.effects + [e];
  }

  lemma PublishSound(w: World, version: nat, claimed: Option<nat>)
    requires Sound(w)
    ensures Sound(Next(w, Publish(version, claimed)))
  {
    var q := Next(w, Publish(version, claimed));
    forall e | 0 <= e < |q.events| ensures MessageSound(q, e) {
      if e < |w.events| { assert MessageSound(w, e) && q.events[e] == w.events[e]; }
    }
  }

  lemma MarkSound(w: World, e: nat)
    requires Sound(w) && w.flight.None? && Sendable(w, e)
    ensures Sound(Next(w, Mark(e)))
  {
    var q := Next(w, Mark(e));
    assert MessageSound(w, e);
    assert Numbered(Marked(w.events[e]));
    forall i | 0 <= i < |q.events| ensures MessageSound(q, i) { assert MessageSound(w, i); }
  }

  lemma ArriveSound(w: World)
    requires Sound(w) && w.flight.Some?
    ensures Sound(Next(w, Arrive))
  {
    var q := Next(w, Arrive);
    ConsumeSound(w, w.flight.value.event);
    forall i | 0 <= i < |q.events| ensures MessageSound(q, i) { assert MessageSound(w, i); }
  }

  /** The event's row takes a new status; a delivered event is receipted. */
  lemma SettleSound(w: World, e: nat, m: Message, outcome: string)
    requires Sound(w) && e < |w.events| && w.events[e].status == Reconcile
    requires Numbered(m) && m.version == w.events[e].version && m.claimed == w.events[e].claimed
    requires m.status in {Retry, DeadLetter} ==> e !in w.applied
    requires m.status == Delivered ==> e in w.applied
    requires m.status != Pending
    ensures var q := SetEvent(w, e, m).(flight := None,
        receipts := if m.status == Delivered then Receipted(w.receipts, Receipt(e, m.version, outcome))
            else w.receipts);
      Sound(q)
  {
    var q := SetEvent(w, e, m).(flight := None,
      receipts := if m.status == Delivered then Receipted(w.receipts, Receipt(e, m.version, outcome)) else w.receipts);
    assert MessageSound(w, e);
    AddedReceipt(w.receipts, Receipt(e, m.version, outcome));
    forall i | 0 <= i < |q.events| ensures MessageSound(q, i) { assert MessageSound(w, i); }
  }

  lemma AnswerSound(w: World, r: Response)
    requires Sound(w) && w.flight.Some? && Fair(w, Answer(r))
    ensures Sound(Next(w, Answer(r)))
  {
    var e := w.flight.value.event;
    assert MessageSound(w, e);
    SettleSound(w, e, Answered(w.events[e], r), "accepted_response");
  }

  lemma QuerySound(w: World, e: nat, answered: bool)
    requires Sound(w) && w.flight.None? && e < |w.events| && w.events[e].status == Reconcile
    ensures Sound(Next(w, Query(e, answered)))
  {
    assert MessageSound(w, e);
    if answered {
      SettleSound(w, e, w.events[e].(status := if e in w.applied then Delivered else Retry), "reconciled");
    }
  }

  lemma NextSound(w: World, step: Step)
    requires Sound(w) && Fair(w, step)
    ensures Sound(Next(w, step))
  {
    match step
    case Publish(version, claimed) => PublishSound(w, version, claimed);
    case Mark(e) => if w.flight.None? && Sendable(w, e) { MarkSound(w, e); }
    case Arrive => if w.flight.Some? { ArriveSound(w); }
    case Answer(response) => if w.flight.Some? { AnswerSound(w, response); }
    case Crash => assert forall i :: 0 <= i < |w.events| ==> MessageSound(w, i) ==> MessageSound(Next(w, step), i);
    case Query(e, answered) => if e < |w.events| && w.events[e].status == Reconcile { QuerySound(w, e, answered); }
  }

  lemma {:induction false} RunSound(w: World, steps: seq<Step>)
    requires Sound(w) && FairRun(w, steps)
    ensures Sound(Run(w, steps))
    decreases |steps|
  {
    if steps != [] {
      NextSound(w, steps[0]);
      RunSound(Next(w, steps[0]), steps[1..]);
    }
  }

  // ---- delivery guarantees over whole runs ----

  function ReceiptCount(rs: seq<Receipt>, e: nat): nat {
    if rs == [] then 0 else (if rs[0].event == e then 1 else 0) + ReceiptCount(rs[1..], e)
  }

  lemma {:induction false} CountReceipts(rs: seq<Receipt>, e: nat)
    requires OneReceiptEach(rs)
    ensures ReceiptCount(rs, e) == if exists i :: 0 <= i < |rs| && rs[i].event == e then 1 else 0
  {
    if rs != [] {
      CountReceipts(rs[1..], e);
      if rs[0].event == e {
        assert forall i :: 0 <= i < |rs[1..]| ==> rs[1..][i].event != e;
      } else if exists i :: 0 <= i < |rs| && rs[i].event == e {
        var i :| 0 <= i < |rs| && rs[i].event == e;
        assert rs[1..][i - 1].event == e;
      }
    }
  }

  /** At every point of every fair run, crashes included. */
  lemma DeliveryGuarantees(steps: seq<Step>, e: nat)
    requires FairRun(Start(), steps) && e < |Run(Start(), steps).events|
    ensures var w := Run(Start(), steps);
      var m := w.events[e];
      && (m.status in {Pending, Retry, DeadLetter} ==> e !in w.applied)
      && (m.status == Delivered ==> e in w.applied && HasReceipt(w.receipts, e, m.version))
      && ReceiptCount(w.receipts, e) == (if m.status == Delivered then 1 else 0)
      && |m.tries| == m.attempts && (forall i :: 0 <= i < |m.tries| ==> m.tries[i].number == i + 1)
  {
    RunSound(Start(), steps);
    var w := Run(Start(), steps);
    assert MessageSound(w, e);
    CountReceipts(w.receipts, e);
  }

  // ---- the consumer alone: any environment ----

  lemma ConsumerUntouched(w: World, q: World)
    requires ConsumerSound(w) && q.applied == w.applied && q.effects == w.effects
    requires |w.events| <= |q.events| && forall e :: 0 <= e < |w.events| ==> q.events[e].claimed == w.events[e].claimed
    ensures ConsumerSound(q)
  {
  }

  lemma AnswerConsumes(w: World, r: Response)
    requires ConsumerSound(w)
    ensures var q := Next(w, Answer(r)); ConsumerSound(q) && |q.events| == |w.events| && q.effects == w.effects
  {
    ConsumerUntouched(w, Next(w, Answer(r)));
  }

  lemma QueryConsumes(w: World, e: nat, answered: bool)
    requires ConsumerSound(w)
    ensures var q := Next(w, Query(e, answered)); ConsumerSound(q) && |q.events| == |w.events| && q.effects == w.effects
  {
    ConsumerUntouched(w, Next(w, Query(e, answered)));
  }

  lemma NextConsumes(w: World, step: Step)
    requires ConsumerSound(w)
    ensures ConsumerSound(Next(w, step)) && |Next(w, step).events| >= |w.events|
    ensures w.effects <= Next(w, step).effects
  {
    match step
    case Arrive => if w.flight.Some? && w.flight.value.event < |w.events| { ConsumeSound(w, w.flight.value.event); }
    case Stray(e) => if e < |w.events| { ConsumeSound(w, e); }
    case Answer(r) => AnswerConsumes(w, r);
    case Query(e, answered) => QueryConsumes(w, e, answered);
    case _ => ConsumerUntouched(w, Next(w, step));
  }

  lemma {:induction false} RunConsumes(w: World, steps: seq<Step>)
    requires ConsumerSound(w)
    ensures ConsumerSound(Run(w, steps))
    decreases |steps|
  {
    if steps != [] {
      NextConsumes(w, steps[0]);
      RunConsumes(Next(w, steps[0]), steps[1..]);
    }
  }

  /** However often and however late requests arrive, the consumer applies each event at most once. */
  lemma AppliedAtMostOnce(steps: seq<Step>)
    ensures var w := Run(Start(), steps);
      && (forall i, j :: 0 <= i < j < |w.effects| ==> w.effects[i] != w.effects[j])
      && (forall e :: e in w.applied <==> e in w.effects)
  {
    RunConsumes(Start(), steps);
  }

  /** Without the no-late-arrival assumption the guarantee fails: an event up for retry has been applied. */
  lemma LateArrivalBreaksIt()
    ensures var w := Run(Start(), [Publish(1, Some(1)), Mark(0), Answer(Torn), Query(0, true), Stray(0)]);
      |w.events| == 1 && w.events[0].status == Retry && 0 in w.applied
  {
    var steps := [Publish(1, Some(1)), Mark(0), Answer(Torn), Query(0, true), Stray(0)];
    var w1 := Next(Start(), steps[0]);
    var w2 := Next(w1, steps[1]);
    var w3 := Next(w2, steps[2]);
    var w4 := Next(w3, steps[3]);
    assert steps[1..] == [Mark(0), Answer(Torn), Query(0, true), Stray(0)];
    assert steps[1..][1..] == [Answer(Torn), Query(0, true), Stray(0)];
    assert steps[1..][1..][1..] == [Query(0, true), Stray(0)];
    assert steps[1..][1..][1..][1..] == [Stray(0)];
    assert Run(Start(), steps) == Run(w1, steps[1..]) == Run(w2, steps[1..][1..]);
    assert Run(w2, steps[1..][1..]) == Run(w3, steps[1..][1..][1..]) == Run(w4, [Stray(0)]);
    assert Run(w4, [Stray(0)]) == Run(Next(w4, Stray(0)), []);
  }

  // ---- reconciliation resolves exactly the events whose payload carries the version ----

  /** An answered query decides an uncertain event, unless it was applied and its payload lacks the row's version. */
  lemma QueryResolves(w: World, e: nat)
    requires e < |w.events| && w.events[e].status == Reconcile
    ensures var q := Next(w, Query(e, true)).events[e].status;
      && (q == Retry <==> e !in w.applied)
      && (q == Delivered <==> e in w.applied && w.applied[e] == Some(w.events[e].version))
      && (q == Reconcile <==> e in w.applied && w.applied[e] != Some(w.events[e].version))
  {
  }

  /** An applied event under reconciliation whose payload does not carry its version. */
  ghost predicate Unverifiable(w: World, e: nat) {
    && e < |w.events| && w.events[e].status == Reconcile && w.events[e].claimed != Some(w.events[e].version)
    && e in w.applied && w.applied[e] == w.events[e].claimed
    && (w.flight.Some? ==> w.flight.value.event != e)
  }

  lemma NextUnverifiable(w: World, step: Step, e: nat)
    requires Unverifiable(w, e)
    ensures Unverifiable(Next(w, step), e)
  {
  }

  /** Such an event is never delivered, retried or dead-lettered again, in any run. */
  lemma {:induction false} StuckForever(w: World, steps: seq<Step>, e: nat)
    requires Unverifiable(w, e)
    ensures Unverifiable(Run(w, steps), e)
    decreases |steps|
  {
    if steps != [] {
      NextUnverifiable(w, steps[0], e);
      StuckForever(Next(w, steps[0]), steps[1..], e);
    }
  }

  /** A lost response leaves an event in that state exactly when its payload lacks the version. */
  lemma LostResponse(w: World, e: nat)
    requires Sound(w) && w.flight.None? && Sendable(w, e)
    ensures var q := Next(Next(Next(Next(w, Mark(e)), Arrive), Answer(Torn)), Query(e, true));
      && (q.events[e].status == Delivered <==> w.events[e].claimed == Some(w.events[e].version))
      && (Unverifiable(q, e) <==> w.events[e].claimed != Some(w.events[e].version))
  {
    assert MessageSound(w, e);
    var w1 := Next(w, Mark(e));
    var w2 := Next(w1, Arrive);
    assert w2.applied == w.applied[e := w.events[e].claimed] && w2.flight == Some(Flight(e, true));
    var w3 := Next(w2, Answer(Torn));
    assert w3.events[e].status == Reconcile && w3.flight.None? && w3.applied == w2.applied;
  }

  /** Whatever happened before, one query and one undisturbed send deliver an event that is not dead-lettered,
      provided its payload carries its version. */
  lemma RecoveryDelivers(w: World, e: nat)
    requires Sound(w) && w.flight.None? && e < |w.events| && w.events[e].status != DeadLetter
    requires w.events[e].claimed == Some(w.events[e].version)
    ensures var q := Next(Next(Next(Next(w, Query(e, true)), Mark(e)), Arrive), Answer(Http(200)));
      e < |q.events| && q.events[e].status == Delivered && q.flight.None?
  {
    assert MessageSound(w, e);
    var w1 := Next(w, Query(e, true));
    assert w1.flight.None? && w1.events[e].status in {Delivered, Pending, Retry};
    var w2 := Next(w1, Mark(e));
    var w3 := Next(w2, Arrive);
    assert w3.flight.Some? ==> w3.flight.value.event == e && e < |w3.events|;
  }

  // ---- attempts ----

  /** A query that finds the event absent and returns it to retry, whatever its attempts. */
  predicate Readmits(w: World, step: Step, e: nat) {
    step == Query(e, true) && e < |w.events| && w.events[e].status == Reconcile && e !in w.applied
  }

  function ReadmitCount(w: World, steps: seq<Step>, e: nat): nat
    decreases |steps|
  {
    if steps == [] then 0
    else (if Readmits(w, steps[0], e) then 1 else 0) + ReadmitCount(Next(w, steps[0]), steps[1..], e)
  }

  predicate Within(w: World, e: nat, limit: nat) {
    e < |w.events| ==> w.events[e].attempts <= limit && (Sendable(w, e) ==> w.events[e].attempts < limit)
  }

  lemma NextWithin(w: World, step: Step, e: nat, limit: nat)
    requires Within(w, e, limit) && ATTEMPT_LIMIT <= limit
    ensures Within(Next(w, step), e, limit + if Readmits(w, step, e) then 1 else 0)
  {
  }

  lemma {:induction false} RunWithin(w: World, steps: seq<Step>, e: nat, limit: nat)
    requires Within(w, e, limit) && ATTEMPT_LIMIT <= limit
    ensures Within(Run(w, steps), e, limit + ReadmitCount(w, steps, e))
    decreases |steps|
  {
    if steps != [] {
      NextWithin(w, steps[0], e, limit);
      RunWithin(Next(w, steps[0]), steps[1..], e, limit + if Readmits(w, steps[0], e) then 1 else 0);
    }
  }

  /** At most five attempts, plus one for each reconciliation that returned the event to retry. */
  lemma AttemptsBounded(steps: seq<Step>, e: nat)
    requires e < |Run(Start(), steps).events|
    ensures Run(Start(), steps).events[e].attempts <= ATTEMPT_LIMIT + ReadmitCount(Start(), steps, e)
  {
    RunWithin(Start(), steps, e, ATTEMPT_LIMIT);
  }

  /** An attempt goes past the limit exactly when an event that used its attempts is sent again. */
  predicate SendsBeyond(w: World, step: Step, e: nat)
    requires e < |w.events|
  {
    step == Mark(e) && w.flight.None? && Sendable(w, e) && w.events[e].attempts == ATTEMPT_LIMIT
  }

  lemma AttemptExceedsLimit(w: World, step: Step, e: nat)
    requires e < |w.events| && w.events[e].attempts <= ATTEMPT_LIMIT
    ensures e < |Next(w, step).events|
    ensures Next(w, step).events[e].attempts > ATTEMPT_LIMIT <==> SendsBeyond(w, step, e)
  {
  }

  /** One event is published; then `n` times the relay dies after its first commit and reconciliation returns the
      event to retry. */
  function CrashLoop(n: nat): seq<Step> {
    if n == 0 then [Publish(1, Some(1))] else CrashLoop(n - 1) + [Mark(0), Crash, Query(0, true)]
  }

  /** The event waits to be sent, was never applied, and has been attempted `n` times. */
  ghost predicate WaitsAfter(w: World, n: nat) {
    && |w.events| == 1 && w.flight.None? && w.applied == map[]
    && w.events[0].attempts == n && w.events[0].status in {Pending, Retry}
  }

  lemma OneRound(w: World, n: nat)
    requires WaitsAfter(w, n)
    ensures FairRun(w, [Mark(0), Crash, Query(0, true)])
    ensures WaitsAfter(Run(w, [Mark(0), Crash, Query(0, true)]), n + 1)
  {
    var steps := [Mark(0), Crash, Query(0, true)];
    var w1 := Next(w, Mark(0));
    var w2 := Next(w1, Crash);
    var w3 := Next(w2, Query(0, true));
    assert steps[1..] == [Crash, Query(0, true)] && steps[1..][1..] == [Query(0, true)];
    assert steps[1..][1..][1..] == [];
    assert Run(w, steps) == Run(w1, steps[1..]) == Run(w2, steps[1..][1..]) == Run(w3, []);
    assert FairRun(w2, steps[1..][1..]) && FairRun(w1, steps[1..]);
  }

  /** Reconciliation does not look at the attempts: any number of them is reached in a fair run. */
  lemma {:induction false} ReconciliationIgnoresTheLimit(n: nat)
    ensures FairRun(Start(), CrashLoop(n)) && WaitsAfter(Run(Start(), CrashLoop(n)), n)
  {
    if n == 0 {
      var steps := CrashLoop(0);
      assert Run(Start(), steps) == Run(Next(Start(), steps[0]), []);
    } else {
      ReconciliationIgnoresTheLimit(n - 1);
      OneRound(Run(Start(), CrashLoop(n - 1)), n - 1);
      RunAppend(Start(), CrashLoop(n - 1), [Mark(0), Crash, Query(0, true)]);
    }
  }

  // ---- the batches the service works off ----

  /** The first rows in one of the given states, at most `room` of them, oldest first. */
  function Select(events: seq<Message>, statuses: set<Status>, from: nat, room: nat): (batch: seq<nat>)
    requires from <= |events|
    ensures |batch| <= room
    ensures forall i :: 0 <= i < |batch| ==> from <= batch[i] < |events| && events[batch[i]].status in statuses
    ensures forall i, j :: 0 <= i < j < |batch| ==> batch[i] < batch[j]
    ensures |batch| < room ==> forall e :: from <= e < |events| && events[e].status in statuses ==> e in batch
    decreases |events| - from
  {
    if from == |events| || room == 0 then []
    else if events[from].status in statuses then [from] + Select(events, statuses, from + 1, room - 1)
    else Select(events, statuses, from + 1, room)
  }

  /** What happens to one request: whether the consumer processes it, and what the relay sees. */
  datatype Exchange = Exchange(arrives: bool, response: Response)

  function SendSteps(e: nat, x: Exchange): seq<Step> {
    if x.arrives then [Mark(e), Arrive, Answer(x.response)] else [Mark(e), Answer(x.response)]
  }

  function RelaySteps(batch: seq<nat>, net: nat -> Exchange): seq<Step> {
    if batch == [] then []
    else RelaySteps(batch[..|batch| - 1], net) + SendSteps(batch[|batch| - 1], net(batch[|batch| - 1]))
  }

  function QuerySteps(batch: seq<nat>, answered: nat -> bool): seq<Step> {
    if batch == [] then []
    else QuerySteps(batch[..|batch| - 1], answered) + [Query(batch[|batch| - 1], answered(batch[|batch| - 1]))]
  }

  /** The state after one event went through both commits. */
  function Sent(w: World, e: nat, x: Exchange): World
    requires e < |w.events|
  {
    var m := Answered(Marked(w.events[e]), x.response);
    var w1 := SetEvent(if x.arrives then Consume(w, e) else w, e, m);
    w1.(receipts := if Accepted(x.response) then Receipted(w.receipts, Receipt(e, m.version, "accepted_response"))
        else w.receipts)
  }

  lemma SendRuns(w: World, e: nat, x: Exchange)
    requires w.flight.None? && Sendable(w, e)
    ensures Run(w, SendSteps(e, x)) == Sent(w, e, x)
  {
    var w1 := Next(w, Mark(e));
    if x.arrives {
      var steps := SendSteps(e, x);
      assert steps[1..] == [Arrive, Answer(x.response)] && steps[1..][1..] == [Answer(x.response)];
      var w2 := Next(w1, Arrive);
      assert Run(w, steps) == Run(w1, steps[1..]) == Run(w2, steps[1..][1..]);
      assert Run(w2, [Answer(x.response)]) == Run(Next(w2, Answer(x.response)), []);
      assert Next(w2, Answer(x.response)) == Sent(w, e, x);
    } else {
      var steps := SendSteps(e, x);
      assert steps[1..] == [Answer(x.response)];
      assert Run(w, steps) == Run(w1, steps[1..]);
      assert Run(w1, [Answer(x.response)]) == Run(Next(w1, Answer(x.response)), []);
      assert Next(w1, Answer(x.response)) == Sent(w, e, x);
    }
  }

  lemma {:induction false} RunAppend(w: World, a: seq<Step>, b: seq<Step>)
    ensures Run(w, a + b) == Run(Run(w, a), b)
    ensures FairRun(w, a + b) <==> FairRun(w, a) && FairRun(Run(w, a), b)
    decreases |a|
  {
    if a == [] {
      assert a + b == b;
    } else {
      assert (a + b)[1..] == a[1..] + b;
      RunAppend(Next(w, a[0]), a[1..], b);
    }
  }

  /** A network in which success means applied and refusal means not applied. */
  ghost predicate FairNetwork(net: nat -> Exchange) {
    forall e :: (Accepted(net(e).response) ==> net(e).arrives) && (Refusal(net(e).response) ==> !net(e).arrives)
  }

  ghost predicate AllSendable(w: World, batch: seq<nat>) {
    && (forall i :: 0 <= i < |batch| ==> Sendable(w, batch[i]))
    && (forall i, j :: 0 <= i < j < |batch| ==> batch[i] != batch[j])
  }

  lemma SentLeavesOthers(w: World, e: nat, x: Exchange, j: nat)
    requires e < |w.events| && j != e && w.flight.None? && Sendable(w, e)
    ensures Sendable(w, j) <==> Sendable(Sent(w, e, x), j)
  {
  }

  lemma SentShape(w: World, e: nat, x: Exchange)
    requires e < |w.events| && w.flight.None?
    ensures Sent(w, e, x).flight.None? && |Sent(w, e, x).events| == |w.events|
  {
  }

  lemma RelayOneMore(w: World, batch: seq<nat>, net: nat -> Exchange, i: nat)
    requires i < |batch|
    requires var q := Run(w, RelaySteps(batch[..i], net)); q.flight.None? && Sendable(q, batch[i])
    ensures Run(w, RelaySteps(batch[..i + 1], net)) ==
      Sent(Run(w, RelaySteps(batch[..i], net)), batch[i], net(batch[i]))
  {
    assert batch[..i + 1][..i] == batch[..i];
    RunAppend(w, RelaySteps(batch[..i], net), SendSteps(batch[i], net(batch[i])));
    SendRuns(Run(w, RelaySteps(batch[..i], net)), batch[i], net(batch[i]));
  }

  /** The events of a batch that are still to be sent stay sendable. */
  lemma {:induction false} RelayPrefix(w: World, batch: seq<nat>, net: nat -> Exchange, i: nat)
    requires w.flight.None? && AllSendable(w, batch) && i <= |batch|
    ensures var q := Run(w, RelaySteps(batch[..i], net));
      && q.flight.None? && |q.events| == |w.events| && forall j :: i <= j < |batch| ==> Sendable(q, batch[j])
    ensures i < |batch| ==>
      var q := Run(w, RelaySteps(batch[..i], net));
      batch[i] < |q.events| && Run(w, RelaySteps(batch[..i + 1], net)) == Sent(q, batch[i], net(batch[i]))
    decreases i
  {
    if i == 0 {
      assert batch[..0] == [];
    } else {
      RelayPrefix(w, batch, net, i - 1);
      var p := Run(w, RelaySteps(batch[..i - 1], net));
      SentShape(p, batch[i - 1], net(batch[i - 1]));
      forall j | i <= j < |batch| ensures Sendable(Sent(p, batch[i - 1], net(batch[i - 1])), batch[j]) {
        SentLeavesOthers(p, batch[i - 1], net(batch[i - 1]), batch[j]);
      }
    }
    if i < |batch| { RelayOneMore(w, batch, net, i); }
  }

  lemma SendIsFair(w: World, e: nat, x: Exchange)
    requires w.flight.None? && Sendable(w, e)
    requires (Accepted(x.response) ==> x.arrives) && (Refusal(x.response) ==> !x.arrives)
    ensures FairRun(w, SendSteps(e, x))
  {
    var steps := SendSteps(e, x);
    var w1 := Next(w, Mark(e));
    if x.arrives {
      assert steps[1..] == [Arrive, Answer(x.response)] && steps[1..][1..] == [Answer(x.response)];
      var w2 := Next(w1, Arrive);
      assert Fair(w2, Answer(x.response));
      assert FairRun(w2, [Answer(x.response)]);
      assert FairRun(w1, steps[1..]);
    } else {
      assert steps[1..] == [Answer(x.response)];
      assert Fair(w1, Answer(x.response));
      assert FairRun(w1, [Answer(x.response)]);
    }
  }

  lemma {:induction false} RelayIsFair(w: World, batch: seq<nat>, net: nat -> Exchange, i: nat)
    requires w.flight.None? && AllSendable(w, batch) && FairNetwork(net) && i <= |batch|
    ensures FairRun(w, RelaySteps(batch[..i], net))
    decreases i
  {
    if i == 0 {
      assert batch[..0] == [];
    } else {
      RelayIsFair(w, batch, net, i - 1);
      RelayPrefix(w, batch, net, i - 1);
      assert batch[..i][..i - 1] == batch[..i - 1];
      var q := Run(w, RelaySteps(batch[..i - 1], net));
      SendIsFair(q, batch[i - 1], net(batch[i - 1]));
      RunAppend(w, RelaySteps(batch[..i - 1], net), SendSteps(batch[i - 1], net(batch[i - 1])));
    }
  }

  /** A whole relay call keeps the delivery guarantees. */
  lemma RelaySound(w: World, batch: seq<nat>, net: nat -> Exchange)
    requires Sound(w) && w.flight.None? && AllSendable(w, batch) && FairNetwork(net)
    ensures Sound(Run(w, RelaySteps(batch, net)))
  {
    assert batch[..|batch|] == batch;
    RelayIsFair(w, batch, net, |batch|);
    RunSound(w, RelaySteps(batch, net));
  }

  ghost predicate AllUncertain(w: World, batch: seq<nat>) {
    && (forall j :: 0 <= j < |batch| ==> batch[j] < |w.events| && w.events[batch[j]].status == Reconcile)
    && (forall j, k :: 0 <= j < k < |batch| ==> batch[j] != batch[k])
  }

  lemma QueryOneMore(w: World, batch: seq<nat>, answered: nat -> bool, i: nat)
    requires i < |batch|
    ensures Run(w, QuerySteps(batch[..i + 1], answered))
      == Next(Run(w, QuerySteps(batch[..i], answered)), Query(batch[i], answered(batch[i])))
    ensures FairRun(w, QuerySteps(batch[..i + 1], answered)) <==>
      FairRun(w, QuerySteps(batch[..i], answered)) &&
          Fair(Run(w, QuerySteps(batch[..i], answered)), Query(batch[i], answered(batch[i])))
  {
    assert batch[..i + 1][..i] == batch[..i];
    var last := [Query(batch[i], answered(batch[i]))];
    RunAppend(w, QuerySteps(batch[..i], answered), last);
    var q := Run(w, QuerySteps(batch[..i], answered));
    assert last[1..] == [];
    assert Run(q, last) == Run(Next(q, last[0]), []);
    assert FairRun(q, last) <==> Fair(q, last[0]) && FairRun(Next(q, last[0]), []);
  }

  lemma QueryChangesOne(p: World, q: World, e: nat, answered: bool)
    requires q == Next(p, Query(e, answered))
    ensures q.flight == p.flight && q.applied == p.applied && q.effects == p.effects
    ensures |q.events| == |p.events| && forall j :: 0 <= j < |p.events| && j != e ==> q.events[j] == p.events[j]
  {
  }

  lemma {:induction false} QueryPrefix(w: World, batch: seq<nat>, answered: nat -> bool, i: nat)
    requires w.flight.None? && i <= |batch|
    requires AllUncertain(w, batch)
    ensures var q := Run(w, QuerySteps(batch[..i], answered));
      && q.flight.None? && |q.events| == |w.events| && q.applied == w.applied && q.effects == w.effects
      && forall j :: i <= j < |batch| ==> q.events[batch[j]] == w.events[batch[j]]
    ensures FairRun(w, QuerySteps(batch[..i], answered))
    decreases i
  {
    if i == 0 {
      assert batch[..0] == [];
    } else {
      QueryPrefix(w, batch, answered, i - 1);
      QueryOneMore(w, batch, answered, i - 1);
      var p := Run(w, QuerySteps(batch[..i - 1], answered));
      QueryChangesOne(p, Run(w, QuerySteps(batch[..i], answered)), batch[i - 1], answered(batch[i - 1]));
    }
  }

  /** How many events of the batch are in one of the states. */
  function CountIn(events: seq<Message>, batch: seq<nat>, statuses: set<Status>): nat
    requires forall i :: 0 <= i < |batch| ==> batch[i] < |events|
  {
    if batch == [] then 0
    else
      var n := |batch| - 1;
      CountIn(events, batch[..n], statuses) + if events[batch[n]].status in statuses then 1 else 0
  }

  lemma {:induction false} CountStays(before: seq<Message>, later: seq<Message>, batch: seq<nat>, statuses: set<Status>)
    requires forall i :: 0 <= i < |batch| ==> batch[i] < |before| && batch[i] < |later|
    requires forall i :: 0 <= i < |batch| ==> later[batch[i]] == before[batch[i]]
    ensures CountIn(later, batch, statuses) == CountIn(before, batch, statuses)
  {
    if batch != [] { CountStays(before, later, batch[..|batch| - 1], statuses); }
  }

  /** One more event of the batch has changed, and only it. */
  lemma CountNext(before: seq<Message>, later: seq<Message>, batch: seq<nat>, i: nat, statuses: set<Status>)
    requires i < |batch| && |later| == |before| && (forall j :: 0 <= j < |batch| ==> batch[j] < |before|)
    requires forall j, k :: 0 <= j < k < |batch| ==> batch[j] != batch[k]
    requires forall e :: 0 <= e < |before| && e != batch[i] ==> later[e] == before[e]
    ensures CountIn(later, batch[..i + 1], statuses) ==
      CountIn(before, batch[..i], statuses) + if later[batch[i]].status in statuses then 1 else 0
  {
    assert batch[..i + 1][..i] == batch[..i];
    CountStays(before, later, batch[..i], statuses);
  }

  /** The state in which the `i`-th event of a relay call ends. */
  function RelayEnding(w: World, batch: seq<nat>, net: nat -> Exchange, i: nat): Status
    requires i < |batch|
  {
    var q := Run(w, RelaySteps(batch[..i + 1], net));
    if batch[i] < |q.events| then q.events[batch[i]].status else Pending
  }

  function RelayCount(w: World, batch: seq<nat>, net: nat -> Exchange, i: nat, statuses: set<Status>): nat
    requires i <= |batch|
  {
    if i == 0 then 0
    else RelayCount(w, batch, net, i - 1, statuses) + if RelayEnding(w, batch, net, i - 1) in statuses then 1 else 0
  }

  /** The counters after one more event. */
  lemma RelayCountNext(w: World, batch: seq<nat>, net: nat -> Exchange, i: nat, status: Status)
    requires i < |batch| && status == RelayEnding(w, batch, net, i)
    ensures RelayCount(w, batch, net, i + 1, {Delivered}) ==
      RelayCount(w, batch, net, i, {Delivered}) + if status == Delivered then 1 else 0
    ensures RelayCount(w, batch, net, i + 1, {Reconcile}) ==
      RelayCount(w, batch, net, i, {Reconcile}) + if status == Reconcile then 1 else 0
    ensures RelayCount(w, batch, net, i + 1, {Retry, DeadLetter}) ==
      RelayCount(w, batch, net, i, {Retry, DeadLetter}) + if status == Retry || status == DeadLetter then 1 else 0
  {
  }

  /** Sending the next event of the batch adds the state it ends in. */
  lemma SentCountsOne(p: World, q: World, batch: seq<nat>, i: nat, x: Exchange, statuses: set<Status>)
    requires i < |batch| && (forall j :: 0 <= j < |batch| ==> batch[j] < |p.events|)
    requires forall j, k :: 0 <= j < k < |batch| ==> batch[j] != batch[k]
    requires q == Sent(p, batch[i], x)
    ensures |q.events| == |p.events|
    ensures CountIn(q.events, batch[..i + 1], statuses) ==
      CountIn(p.events, batch[..i], statuses) + if q.events[batch[i]].status in statuses then 1 else 0
  {
    CountNext(p.events, q.events, batch, i, statuses);
  }

  /** Later events of the batch leave it there. */
  lemma {:induction false} RelayCounts(w: World, batch: seq<nat>, net: nat -> Exchange, i: nat, statuses: set<Status>)
    requires w.flight.None? && AllSendable(w, batch) && i <= |batch|
    ensures var q := Run(w, RelaySteps(batch[..i], net)).events;
      |q| == |w.events| && RelayCount(w, batch, net, i, statuses) == CountIn(q, batch[..i], statuses)
    decreases i
  {
    RelayPrefix(w, batch, net, i);
    if i > 0 {
      RelayPrefix(w, batch, net, i - 1);
      RelayCounts(w, batch, net, i - 1, statuses);
      var p := Run(w, RelaySteps(batch[..i - 1], net));
      SentCountsOne(p, Sent(p, batch[i - 1], net(batch[i - 1])), batch, i - 1, net(batch[i - 1]), statuses);
    }
  }

  function QueryEnding(w: World, batch: seq<nat>, answered: nat -> bool, i: nat): Status
    requires i < |batch|
  {
    var q := Run(w, QuerySteps(batch[..i + 1], answered));
    if batch[i] < |q.events| then q.events[batch[i]].status else Pending
  }

  function QueryCount(w: World, batch: seq<nat>, answered: nat -> bool, i: nat, statuses: set<Status>): nat
    requires i <= |batch|
  {
    if i == 0 then 0
    else
      QueryCount(w, batch, answered, i - 1, statuses) +
      if QueryEnding(w, batch, answered, i - 1) in statuses then 1 else 0
  }

  lemma QueryCountNext(w: World, batch: seq<nat>, answered: nat -> bool, i: nat, status: Status)
    requires i < |batch| && status == QueryEnding(w, batch, answered, i)
    ensures QueryCount(w, batch, answered, i + 1, {Delivered}) ==
      QueryCount(w, batch, answered, i, {Delivered}) + if status == Delivered then 1 else 0
    ensures QueryCount(w, batch, answered, i + 1, {Retry}) ==
      QueryCount(w, batch, answered, i, {Retry}) + if status == Retry then 1 else 0
    ensures QueryCount(w, batch, answered, i + 1, {Reconcile}) ==
      QueryCount(w, batch, answered, i, {Reconcile}) + if status == Reconcile then 1 else 0
  {
  }

  lemma {:induction false} QueryCounts(w: World, batch: seq<nat>, answered: nat -> bool, i: nat, statuses: set<Status>)
    requires w.flight.None? && i <= |batch|
    requires AllUncertain(w, batch)
    ensures var q := Run(w, QuerySteps(batch[..i], answered)).events;
      |q| == |w.events| && QueryCount(w, batch, answered, i, statuses) == CountIn(q, batch[..i], statuses)
    decreases i
  {
    QueryPrefix(w, batch, answered, i);
    if i > 0 {
      QueryPrefix(w, batch, answered, i - 1);
      QueryOneMore(w, batch, answered, i - 1);
      QueryCounts(w, batch, answered, i - 1, statuses);
      var p := Run(w, QuerySteps(batch[..i - 1], answered));
      var q := Next(p, Query(batch[i - 1], answered(batch[i - 1])));
      QueryChangesOne(p, q, batch[i - 1], answered(batch[i - 1]));
      CountNext(p.events, q.events, batch, i - 1, statuses);
    }
  }

  // ---- the service ----

  /** The demonstration consumer's answer to one POST. */
  class Sink {
    var applied: map<nat, Option<nat>>
    var effects: seq<nat>

    constructor ()
      ensures applied == map[] && effects == []
    {
      applied, effects := map[], [];
    }

    /** `receive_event`: an unsigned request is refused before the insert; `simulate` loses the response after it. */
    method ReceiveEvent(e: nat, claimed: Option<nat>, signed: bool, simulate: bool) returns (code: int)
      modifies this
      ensures !signed ==> applied == old(applied) && effects == old(effects) && Refusal(Http(code))
      ensures signed ==>
        && e in applied && applied == (if e in old(applied) then old(applied) else old(applied)[e := claimed])
        && effects == (if e in old(applied) then old(effects) else old(effects) + [e])
      ensures Accepted(Http(code)) <==> signed && !simulate
      ensures Refusal(Http(code)) ==> applied == old(applied)
    {
      if !signed {
        return 401;
      }
      if e !in applied {
        applied := applied[e := claimed];
        effects := effects + [e];
      }
      code := if simulate then 504 else 200;
    }

    /** `event_receipt`. */
    method EventReceipt(e: nat) returns (reply: Reply)
      ensures reply == Absent <==> e !in applied
      ensures e in applied ==> reply == Echo(e, applied[e])
    {
      reply := if e in applied then Echo(e, applied[e]) else Absent;
    }
  }

  class Publisher {
    var events: seq<Message>
    var receipts: seq<Receipt>
    const sink: Sink

    constructor (consumer: Sink)
      ensures sink == consumer && events == [] && receipts == []
    {
      sink := consumer;
      events, receipts := [], [];
    }

    /** The state between two calls: no request is in flight. */
    ghost function State(): World
      reads this, sink
    {
      World(events, receipts, None, sink.applied, sink.effects)
    }

    /** `_receipt`: update the row of the event, or add one. */
    method WriteReceipt(e: nat, version: nat, outcome: string)
      modifies this`receipts
      ensures receipts == Receipted(old(receipts), Receipt(e, version, outcome))
    {
      var r := Receipt(e, version, outcome);
      var i := 0;
      while i < |receipts| && receipts[i].event != e
        invariant 0 <= i <= |receipts|
        invariant receipts == old(receipts)
        invariant forall j :: 0 <= j < i ==> receipts[j].event != e
      {
        i := i + 1;
      }
      ReceiptedAt(receipts, r, i);
      if i < |receipts| {
        receipts := receipts[..i] + [r] + receipts[i + 1..];
      } else {
        receipts := receipts + [r];
      }
    }

    /** One turn of the relay's loop: count the attempt, send, record the outcome. */
    method SendOne(e: nat, x: Exchange) returns (status: Status)
      requires Sendable(State(), e)
      modifies this, sink
      ensures State() == Sent(old(State()), e, x) && status == events[e].status
      ensures events[e].attempts == old(events)[e].attempts + 1
      ensures x.response.Http? && 200 <= x.response.code <= 299 ==> status == Delivered
      ensures (x.response.Torn? || (x.response.Http? && (x.response.code == 429 || x.response.code >= 500))) ==>
        status == Reconcile
      ensures Refusal(x.response) ==> status == if old(events)[e].attempts + 1 < 5 then Retry else DeadLetter
    {
      var m := events[e];
      m := m.(attempts := m.attempts + 1);
      m := m.(tries := m.tries + [Try(m.attempts, Sending)], status := Reconcile);
      events := events[e := m];
      if x.arrives {
        var _ := sink.ReceiveEvent(e, m.claimed, true, false);
      }
      var last := |m.tries| - 1;
      match x.response {
        case Http(code) =>
          if 200 <= code < 300 {
            m := m.(status := Delivered, tries := m.tries[last := m.tries[last].(status := Confirmed)]);
            WriteReceipt(e, m.version, "accepted_response");
          } else if code == 429 || code >= 500 {
            m := m.(status := Reconcile, tries := m.tries[last := m.tries[last].(status := Ambiguous)]);
          } else {
            m := m.(status := if m.attempts >= ATTEMPT_LIMIT then DeadLetter else Retry,
                    tries := m.tries[last := m.tries[last].(status := Rejected)]);
          }
        case Torn =>
          m := m.(status := Reconcile, tries := m.tries[last := m.tries[last].(status := Ambiguous)]);
        case Unreached =>
          m := m.(status := if m.attempts >= ATTEMPT_LIMIT then DeadLetter else Retry,
                  tries := m.tries[last := m.tries[last].(status := Failed)]);
      }
      events := events[e := m];
      status := m.status;
    }

    /** One turn of the loop, within a call that started from `before`. */
    method RelayTurn(ghost before: World, batch: seq<nat>, net: nat -> Exchange, i: nat) returns (status: Status)
      requires i < |batch| && before.flight.None? && AllSendable(before, batch)
      requires State() == Run(before, RelaySteps(batch[..i], net))
      modifies this, sink
      ensures State() == Run(before, RelaySteps(batch[..i + 1], net))
      ensures status == RelayEnding(before, batch, net, i) && status in {Delivered, Reconcile, Retry, DeadLetter}
    {
      RelayPrefix(before, batch, net, i);
      status := SendOne(batch[i], net(batch[i]));
    }

    /** The loop over the selected events. */
    method RelayBatch(batch: seq<nat>, net: nat -> Exchange) returns (delivered: nat, failed: nat, ambiguous: nat)
      requires AllSendable(State(), batch)
      modifies this, sink
      ensures State() == Run(old(State()), RelaySteps(batch, net)) && delivered + failed + ambiguous == |batch|
      ensures delivered == RelayCount(old(State()), batch, net, |batch|, {Delivered})
      ensures ambiguous == RelayCount(old(State()), batch, net, |batch|, {Reconcile})
      ensures failed == RelayCount(old(State()), batch, net, |batch|, {Retry, DeadLetter})
    {
      delivered, failed, ambiguous := 0, 0, 0;
      ghost var before := State();
      for i := 0 to |batch|
        invariant State() == Run(before, RelaySteps(batch[..i], net))
        invariant delivered + failed + ambiguous == i
        invariant delivered == RelayCount(before, batch, net, i, {Delivered})
        invariant ambiguous == RelayCount(before, batch, net, i, {Reconcile})
        invariant failed == RelayCount(before, batch, net, i, {Retry, DeadLetter})
      {
        var status := RelayTurn(before, batch, net, i);
        RelayCountNext(before, batch, net, i, status);
        if status == Delivered {
          delivered := delivered + 1;
        } else if status == Reconcile {
          ambiguous := ambiguous + 1;
        } else {
          failed := failed + 1;
        }
      }
      assert batch[..|batch|] == batch;
    }

    /** `relay_events`: the call is a run of the protocol over the selected batch, so a fair network keeps the
        delivery guarantees; the counters are the numbers of events that ended delivered, refused and uncertain. */
    method RelayEvents(net: nat -> Exchange) returns (processed: nat, delivered: nat, failed: nat, ambiguous: nat)
      modifies this, sink
      ensures var batch := Select(old(events), {Pending, Retry}, 0, 100);
        && State() == Run(old(State()), RelaySteps(batch, net)) && |events| == |old(events)|
        && processed == |batch| && processed == delivered + failed + ambiguous
        && delivered == CountIn(events, batch, {Delivered}) && ambiguous == CountIn(events, batch, {Reconcile})
        && failed == CountIn(events, batch, {Retry, DeadLetter})
      ensures old(Sound(State())) && FairNetwork(net) ==> Sound(State())
    {
      var batch := Select(events, {Pending, Retry}, 0, BATCH_LIMIT);
      ghost var before := State();
      assert AllSendable(before, batch);
      delivered, failed, ambiguous := RelayBatch(batch, net);
      processed := |batch|;
      assert batch[..|batch|] == batch;
      RelayCounts(before, batch, net, |batch|, {Delivered});
      RelayCounts(before, batch, net, |batch|, {Reconcile});
      RelayCounts(before, batch, net, |batch|, {Retry, DeadLetter});
      if Sound(before) && FairNetwork(net) { RelaySound(before, batch, net); }
    }

    /** One turn of the reconciliation loop. */
    method QueryOne(e: nat, answered: bool) returns (status: Status)
      requires e < |events| && events[e].status == Reconcile
      modifies this
      ensures State() == Next(old(State()), Query(e, answered)) && e < |events| && status == events[e].status
    {
      status := Reconcile;
      if answered {
        var reply := sink.EventReceipt(e);
        if reply.Absent? {
          status := Retry;
          events := events[e := events[e].(status := Retry)];
        } else if reply.Echo? && reply.event == e && reply.version == Some(events[e].version) {
          status := Delivered;
          events := events[e := events[e].(status := Delivered)];
          WriteReceipt(e, events[e].version, "reconciled");
        }
      }
    }

    method QueryTurn(ghost before: World, batch: seq<nat>, answered: nat -> bool, i: nat) returns (status: Status)
      requires i < |batch| && before.flight.None? && State() == Run(before, QuerySteps(batch[..i], answered))
      requires AllUncertain(before, batch)
      modifies this
      ensures State() == Run(before, QuerySteps(batch[..i + 1], answered))
      ensures status == QueryEnding(before, batch, answered, i) && status in {Delivered, Retry, Reconcile}
    {
      QueryPrefix(before, batch, answered, i);
      QueryOneMore(before, batch, answered, i);
      status := QueryOne(batch[i], answered(batch[i]));
    }

    /** The loop over the selected events. */
    method QueryBatch(batch: seq<nat>, answered: nat -> bool) returns (verified: nat, absent: nat, unresolved: nat)
      requires AllUncertain(State(), batch)
      modifies this
      ensures State() == Run(old(State()), QuerySteps(batch, answered)) && verified + absent + unresolved == |batch|
      ensures verified == QueryCount(old(State()), batch, answered, |batch|, {Delivered})
      ensures absent == QueryCount(old(State()), batch, answered, |batch|, {Retry})
      ensures unresolved == QueryCount(old(State()), batch, answered, |batch|, {Reconcile})
    {
      verified, absent, unresolved := 0, 0, 0;
      ghost var before := State();
      for i := 0 to |batch|
        invariant State() == Run(before, QuerySteps(batch[..i], answered))
        invariant verified + absent + unresolved == i
        invariant verified == QueryCount(before, batch, answered, i, {Delivered})
        invariant absent == QueryCount(before, batch, answered, i, {Retry})
        invariant unresolved == QueryCount(before, batch, answered, i, {Reconcile})
      {
        var status := QueryTurn(before, batch, answered, i);
        QueryCountNext(before, batch, answered, i, status);
        if status == Retry {
          absent := absent + 1;
        } else if status == Delivered {
          verified := verified + 1;
        } else {
          unresolved := unresolved + 1;
        }
      }
      assert batch[..|batch|] == batch;
    }

    /** `reconcile_events`: ask the consumer about each uncertain event. `answered` is false when the query fails. The
        counters are the numbers of events that ended delivered, up for retry and still uncertain. */
    method ReconcileEvents(answered: nat -> bool)
      returns (processed: nat, verified: nat, absent: nat, unresolved: nat)
      modifies this
      ensures var batch := Select(old(events), {Reconcile}, 0, 100);
        && State() == Run(old(State()), QuerySteps(batch, answered)) && |events| == |old(events)|
        && processed == |batch| && processed == verified + absent + unresolved
        && verified == CountIn(events, batch, {Delivered}) && absent == CountIn(events, batch, {Retry})
        && unresolved == CountIn(events, batch, {Reconcile})
      ensures old(Sound(State())) ==> Sound(State())
    {
      var batch := Select(events, {Reconcile}, 0, BATCH_LIMIT);
      ghost var before := State();
      assert AllUncertain(before, batch);
      verified, absent, unresolved := QueryBatch(batch, answered);
      processed := |batch|;
      assert batch[..|batch|] == batch;
      QueryPrefix(before, batch, answered, |batch|);
      QueryCounts(before, batch, answered, |batch|, {Delivered});
      QueryCounts(before, batch, answered, |batch|, {Retry});
      QueryCounts(before, batch, answered, |batch|, {Reconcile});
      if Sound(before) { RunSound(before, QuerySteps(batch, answered)); }
    }
  }
}
