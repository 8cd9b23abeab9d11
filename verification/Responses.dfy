/** What the answer to one request does to an event, and which states it never leaves. */
module Responses {
  import opened Prelude
  import opened Publication

  predicate Success(r: Response) {
    r.Http? && 200 <= r.code <= 299
  }

  /** The consumer may or may not have processed the request. */
  predicate Uncertain(r: Response) {
    r.Torn? || (r.Http? && (r.code == 429 || r.code >= 500))
  }

  /** One send, as the relay's two commits record it: the attempt is counted and numbered; success delivers; an
      uncertain answer leaves the event to reconciliation; a refusal puts it up for retry below five attempts and gives
      it up from five on. */
  lemma SendRecords(w: World, e: nat, r: Response)
    requires w.flight.None? && e < |w.events| && w.events[e].status in {Pending, Retry}
    ensures var q := Next(Next(w, Mark(e)), Answer(r));
      var before := w.events[e];
      var n := before.attempts + 1;
      && q.flight.None? && |q.events| == |w.events| && q.applied == w.applied
      && (forall j :: 0 <= j < |w.events| && j != e ==> q.events[j] == w.events[j])
      && q.events[e] == before.(attempts := n, status := q.events[e].status, tries := q.events[e].tries)
      && q.events[e].status ==
           (if Success(r) then Delivered else if Uncertain(r) then Reconcile else if n < 5 then Retry else DeadLetter)
      && q.events[e].tries == before.tries + [Try(n,
           if Success(r) then Confirmed else if Uncertain(r) then Ambiguous
           else if r.Http? then Rejected else Failed)]
  {
  }

  /** After a refused send an event can be sent again exactly when it has fewer than five attempts. */
  lemma RefusalRetriesBelowFive(w: World, e: nat, r: Response)
    requires w.flight.None? && e < |w.events| && w.events[e].status in {Pending, Retry}
    requires !Success(r) && !Uncertain(r)
    ensures var q := Next(Next(w, Mark(e)), Answer(r));
      && e < |q.events|
      && (q.events[e].status in {Pending, Retry} <==> q.events[e].attempts < 5)
      && (q.events[e].status == DeadLetter <==> q.events[e].attempts >= 5)
  {
    SendRecords(w, e, r);
  }

  /** A delivery is receipted once, and the receipt tells how it was established. */
  lemma ReceiptTellsHow(w: World, e: nat, r: Response)
    requires Sound(w) && w.flight.None? && e < |w.events|
    ensures w.events[e].status in {Pending, Retry} && Success(r) ==>
      Next(Next(w, Mark(e)), Answer(r)).receipts ==
        w.receipts + [Receipt(e, w.events[e].version, "accepted_response")]
    ensures w.events[e].status == Reconcile && e in w.applied && w.applied[e] == Some(w.events[e].version) ==>
      Next(w, Query(e, true)).receipts == w.receipts + [Receipt(e, w.events[e].version, "reconciled")]
  {
    assert MessageSound(w, e);
    if w.events[e].status != Delivered {
      FirstReceipt(w.receipts, Receipt(e, w.events[e].version, "accepted_response"));
      FirstReceipt(w.receipts, Receipt(e, w.events[e].version, "reconciled"));
    }
  }

  // ---- events that are given up ----

  ghost predicate DeadHadFive(w: World) {
    forall e :: 0 <= e < |w.events| && w.events[e].status == DeadLetter ==> w.events[e].attempts >= 5
  }

  lemma NextDeadHadFive(w: World, step: Step)
    requires DeadHadFive(w)
    ensures DeadHadFive(Next(w, step))
  {
  }

  lemma {:induction false} RunDeadHadFive(w: World, steps: seq<Step>)
    requires DeadHadFive(w)
    ensures DeadHadFive(Run(w, steps))
    decreases |steps|
  {
    if steps != [] {
      NextDeadHadFive(w, steps[0]);
      RunDeadHadFive(Next(w, steps[0]), steps[1..]);
    }
  }

  /** In every run, whatever the network does, an event that was given up had at least five attempts. */
  lemma DeadLettersHadFiveAttempts(steps: seq<Step>, e: nat)
    requires e < |Run(Start(), steps).events| && Run(Start(), steps).events[e].status == DeadLetter
    ensures Run(Start(), steps).events[e].attempts >= 5
  {
    RunDeadHadFive(Start(), steps);
  }

  // ---- final states ----

  lemma NextKeepsSettled(w: World, step: Step, e: nat)
    requires FlightSound(w) && e < |w.events| && w.events[e].status in {Delivered, DeadLetter}
    ensures e < |Next(w, step).events| && Next(w, step).events[e] == w.events[e]
  {
  }

  lemma {:induction false} SettledStays(w: World, steps: seq<Step>, e: nat)
    requires Sound(w) && FairRun(w, steps) && e < |w.events| && w.events[e].status in {Delivered, DeadLetter}
    ensures e < |Run(w, steps).events| && Run(w, steps).events[e] == w.events[e]
    decreases |steps|
  {
    if steps != [] {
      NextKeepsSettled(w, steps[0], e);
      NextSound(w, steps[0]);
      SettledStays(Next(w, steps[0]), steps[1..], e);
    }
  }

  /** In every fair run a delivered event and one that was given up never change again. */
  lemma DeliveredAndDeadAreFinal(steps: seq<Step>, more: seq<Step>, e: nat)
    requires FairRun(Start(), steps) && FairRun(Run(Start(), steps), more)
    requires e < |Run(Start(), steps).events| && Run(Start(), steps).events[e].status in {Delivered, DeadLetter}
    ensures var q := Run(Run(Start(), steps), more);
      e < |q.events| && q.events[e] == Run(Start(), steps).events[e]
  {
    RunSound(Start(), steps);
    SettledStays(Run(Start(), steps), more, e);
  }
}
