/** What the mastering service puts in its outbox, as the relay sends it, and the two together: what reaches the
    consumer of what was approved. */
module Announcements {
  import opened Prelude
  import S = Store
  import T = Steps
  import E = Effects
  import G = Grounding
  import D = Drafts
  import A = Approvals
  import P = Publication

  function VersionOf(event: S.Event): nat {
    event.version
  }

  /** The entity version inside the payload; a split's payload carries none. */
  function ClaimedOf(event: S.Event): Option<nat> {
    match event
    case MasterApproved(_, version, _) => Some(version)
    case IdentityMerged(_, version, _) => Some(version)
    case IdentitySplit(_, _, _) => None
  }

  /** The outbox row of an event is waiting to be sent. */
  ghost predicate Announces(w: P.World, i: nat, event: S.Event) {
    && P.Sendable(w, i) && w.events[i].version == VersionOf(event) && w.events[i].claimed == ClaimedOf(event)
  }

  /** When the response to a delivered event is lost, reconciliation delivers it, except an identity split, which stays
      under reconciliation in every continuation. */
  lemma OnlySplitsGetStuck(w: P.World, i: nat, event: S.Event, later: seq<P.Step>)
    requires P.Sound(w) && w.flight.None? && Announces(w, i, event)
    ensures var q := P.Next(P.Next(P.Next(P.Next(w, P.Mark(i)), P.Arrive), P.Answer(P.Torn)), P.Query(i, true));
      && i < |q.events| && (q.events[i].status == P.Delivered <==> !event.IdentitySplit?)
      && (event.IdentitySplit? ==> i < |P.Run(q, later).events| && P.Run(q, later).events[i].status == P.Reconcile)
  {
    P.LostResponse(w, i);
    var q := P.Next(P.Next(P.Next(P.Next(w, P.Mark(i)), P.Arrive), P.Answer(P.Torn)), P.Query(i, true));
    if event.IdentitySplit? { P.StuckForever(q, later, i); }
  }

  /** Sent undisturbed, any event is delivered and applied. */
  lemma UndisturbedDelivery(w: P.World, i: nat, event: S.Event)
    requires P.Sound(w) && w.flight.None? && Announces(w, i, event)
    ensures var q := P.Next(P.Next(P.Next(w, P.Mark(i)), P.Arrive), P.Answer(P.Http(200)));
      i < |q.events| && q.events[i].status == P.Delivered && i in q.applied && q.applied[i] == ClaimedOf(event)
  {
    assert P.MessageSound(w, i);
    var w1 := P.Next(w, P.Mark(i));
    var w2 := P.Next(w1, P.Arrive);
    assert w2.applied == w.applied[i := w.events[i].claimed];
  }

  // ---- the outbox only grows ----

  lemma CreatingSilent(s: S.Store, k: S.ObjectKey)
    requires k in s.objects
    ensures T.Creating(s, k).outbox == s.outbox
  {
  }

  lemma JoiningSilent(s: S.Store, k: S.ObjectKey, e: nat)
    requires k in s.objects && e in s.entities
    ensures T.Joining(s, k, e).outbox == s.outbox
  {
  }

  lemma ReviewingSilent(s: S.Store, k: S.ObjectKey, rid: S.RecordKey, c: S.ObjectKey)
    requires k in s.objects
    requires S.IsCurrent(s, c) && s.objects[c].entity.Some? && s.objects[c].entity.value in s.entities
    ensures T.Reviewing(s, k, rid, c).outbox == s.outbox
  {
  }

  lemma PlacingSilent(s: S.Store, k: S.ObjectKey, rid: S.RecordKey, pick: Option<S.ObjectKey>, t: S.Store)
    requires E.Placing(s, k, rid, pick, t)
    ensures t.outbox == s.outbox
  {
    if t == T.Creating(s, k) {
      CreatingSilent(s, k);
    } else if t == T.Joining(s, k, s.objects[pick.value].entity.value) {
      JoiningSilent(s, k, s.objects[pick.value].entity.value);
    } else {
      ReviewingSilent(s, k, rid, pick.value);
    }
  }

  lemma SettlesSilent(s: S.Store, k: S.ObjectKey, rid: S.RecordKey, pick: Option<S.ObjectKey>, t: S.Store)
    requires E.Settles(s, k, rid, pick, t)
    ensures t.outbox == s.outbox
  {
    if E.Placing(s, k, rid, pick, t) { PlacingSilent(s, k, rid, pick, t); }
  }

  lemma ObserveSilent(s: S.Store, k: S.ObjectKey, item: S.Item, pick: Option<S.ObjectKey>, r: Reply<S.Store>)
    requires E.ObserveOutcome(s, k, item, pick, r)
    ensures After(s, r).outbox == s.outbox
  {
    if r.Commit? && S.RecordKey(k, item.version) !in s.records {
      SettlesSilent(T.Received(s, k, item), k, S.RecordKey(k, item.version), pick, r.db);
    }
  }

  lemma MatchSilent(s: S.Store, e: nat, link: bool, r: Reply<S.Store>)
    requires E.MatchOutcome(s, e, link, r)
    ensures After(s, r).outbox == s.outbox
  {
  }

  lemma MasterSpeaks(s: S.Store, e: nat, v: nat, approve: bool, r: Reply<S.Store>)
    requires E.MasterOutcome(s, e, v, approve, r)
    ensures s.outbox <= After(s, r).outbox
  {
  }

  lemma MergeSpeaks(s: S.Store, id: nat, approve: bool, r: Reply<S.Store>)
    requires E.MergeOutcome(s, id, approve, r)
    ensures s.outbox <= After(s, r).outbox
  {
  }

  lemma SplitSpeaks(s: S.Store, id: nat, approve: bool, r: Reply<S.Store>)
    requires E.SplitOutcome(s, id, approve, r)
    ensures s.outbox <= After(s, r).outbox
  {
  }

  lemma RemasterSilent(s: S.Store, domain: string)
    ensures After(s, T.Remaster(s, domain)).outbox == s.outbox
  {
  }

  /** Events are appended in the transaction that causes them, and none is ever taken back. */
  lemma OutboxGrows(s: S.Store, step: T.Step)
    ensures s.outbox <= T.Next(s, step).outbox
  {
    match step
    case ObserveStep(k, item, pick) =>
      E.ObserveCases(s, k, item, pick);
      ObserveSilent(s, k, item, pick, T.Attempt(s, step));
    case MatchStep(e, link) => E.DecideMatchCases(s, e, link); MatchSilent(s, e, link, T.Attempt(s, step));
    case MasterStep(e, v, approve) =>
      E.DecideMasterCases(s, e, v, approve);
      MasterSpeaks(s, e, v, approve, T.Attempt(s, step));
    case MergeStep(id, approve, actor) =>
      E.DecideMergeCases(s, id, approve, actor);
      MergeSpeaks(s, id, approve, T.Attempt(s, step));
    case SplitStep(id, approve, actor) =>
      E.DecideSplitCases(s, id, approve, actor);
      SplitSpeaks(s, id, approve, T.Attempt(s, step));
    case RemasterStep(domain) => RemasterSilent(s, domain);
    case ActivateStep(_, _) =>
    case _ => E.AdministrativeAside(s, step);
  }

  // ---- the mastering service and the relay on one database ----

  datatype System = System(db: S.Store, relay: P.World)

  /** A transaction of the mastering service, or a step of the relay, the network or the consumer. */
  datatype Move = Mastering(transaction: T.Step) | Relaying(step: P.Step)

  /** The new outbox rows wait to be sent. */
  function Queued(w: P.World, events: seq<S.Event>): P.World
    decreases |events|
  {
    if events == [] then w
    else Queued(P.Next(w, P.Publish(VersionOf(events[0]), ClaimedOf(events[0]))), events[1..])
  }

  function Appended(before: seq<S.Event>, after: seq<S.Event>): seq<S.Event> {
    if |before| <= |after| then after[|before|..] else []
  }

  ghost function Moved(y: System, m: Move): System {
    match m
    case Mastering(step) =>
      var t := T.Next(y.db, step);
      System(t, Queued(y.relay, Appended(y.db.outbox, t.outbox)))
    case Relaying(step) => y.(relay := P.Next(y.relay, step))
  }

  ghost function MovedAll(y: System, moves: seq<Move>): System
    decreases |moves|
  {
    if moves == [] then y else MovedAll(Moved(y, moves[0]), moves[1..])
  }

  /** The relay publishes nothing of its own, and its environment is fair. */
  ghost predicate FairMoves(y: System, moves: seq<Move>)
    decreases |moves|
  {
    moves == [] ||
    (&& (moves[0].Relaying? ==> !moves[0].step.Publish? && P.Fair(y.relay, moves[0].step))
     && FairMoves(Moved(y, moves[0]), moves[1..]))
  }

  /** Row by row, the relay sends what the service announced. */
  ghost predicate Mirrors(outbox: seq<S.Event>, w: P.World) {
    |w.events| == |outbox| &&
    forall i :: 0 <= i < |outbox| ==>
      w.events[i].version == VersionOf(outbox[i]) && w.events[i].claimed == ClaimedOf(outbox[i])
  }

  lemma {:induction false} QueuedMirrors(w: P.World, before: seq<S.Event>, events: seq<S.Event>)
    requires P.Sound(w) && Mirrors(before, w)
    ensures P.Sound(Queued(w, events)) && Mirrors(before + events, Queued(w, events))
    decreases |events|
  {
    if events == [] {
      assert before + events == before;
    } else {
      var w1 := P.Next(w, P.Publish(VersionOf(events[0]), ClaimedOf(events[0])));
      P.PublishSound(w, VersionOf(events[0]), ClaimedOf(events[0]));
      assert Mirrors(before + [events[0]], w1);
      QueuedMirrors(w1, before + [events[0]], events[1..]);
      assert before + events == before + [events[0]] + events[1..];
    }
  }

  lemma RelayMirrors(outbox: seq<S.Event>, w: P.World, step: P.Step)
    requires Mirrors(outbox, w) && !step.Publish?
    ensures Mirrors(outbox, P.Next(w, step))
  {
  }

  ghost predicate Consistent(y: System) {
    && G.Grounded(y.db) && D.AllOneOpen(y.db) && A.EventsMatch(y.db)
    && P.Sound(y.relay) && Mirrors(y.db.outbox, y.relay)
  }

  lemma AppendedQueues(before: seq<S.Event>, after: seq<S.Event>, w: P.World)
    requires before <= after && P.Sound(w) && Mirrors(before, w)
    ensures P.Sound(Queued(w, Appended(before, after))) && Mirrors(after, Queued(w, Appended(before, after)))
  {
    QueuedMirrors(w, before, Appended(before, after));
    assert before + Appended(before, after) == after;
  }

  lemma StoreConsistent(s: S.Store, step: T.Step)
    requires G.Grounded(s) && D.AllOneOpen(s) && A.EventsMatch(s)
    ensures var t := T.Next(s, step); G.Grounded(t) && D.AllOneOpen(t) && A.EventsMatch(t) && s.outbox <= t.outbox
  {
    G.NextGrounded(s, step);
    A.NextMatches(s, step);
    OutboxGrows(s, step);
  }

  lemma MasteringConsistent(y: System, step: T.Step)
    requires Consistent(y)
    ensures Consistent(Moved(y, Mastering(step)))
  {
    StoreConsistent(y.db, step);
    MovedConsistent(y, T.Next(y.db, step));
  }

  lemma MovedConsistent(y: System, t: S.Store)
    requires Consistent(y) && G.Grounded(t) && D.AllOneOpen(t) && A.EventsMatch(t) && y.db.outbox <= t.outbox
    ensures Consistent(System(t, Queued(y.relay, Appended(y.db.outbox, t.outbox))))
  {
    AppendedQueues(y.db.outbox, t.outbox, y.relay);
  }

  lemma RelayingConsistent(y: System, step: P.Step)
    requires Consistent(y) && !step.Publish? && P.Fair(y.relay, step)
    ensures Consistent(Moved(y, Relaying(step)))
  {
    P.NextSound(y.relay, step);
    RelayMirrors(y.db.outbox, y.relay, step);
  }

  lemma {:induction false} AllConsistent(y: System, moves: seq<Move>)
    requires Consistent(y) && FairMoves(y, moves)
    ensures Consistent(MovedAll(y, moves))
    decreases |moves|
  {
    if moves != [] {
      match moves[0] {
        case Mastering(step) => MasteringConsistent(y, step);
        case Relaying(step) => RelayingConsistent(y, step);
      }
      AllConsistent(Moved(y, moves[0]), moves[1..]);
    }
  }

  // ---- what reaches the consumer ----

  /** The consumer's inserts for approvals of version `v` of entity `e`. */
  function Inserts(effects: seq<nat>, outbox: seq<S.Event>, e: nat, v: nat): nat {
    if effects == [] then 0
    else (if effects[0] < |outbox| && A.IsApproval(outbox[effects[0]], e, v) then 1 else 0)
         + Inserts(effects[1..], outbox, e, v)
  }

  lemma {:induction false} NothingPublished(outbox: seq<S.Event>, e: nat, v: nat)
    requires A.Published(outbox, e, v) == 0
    ensures forall i :: 0 <= i < |outbox| ==> !A.IsApproval(outbox[i], e, v)
  {
    if outbox != [] { NothingPublished(outbox[..|outbox| - 1], e, v); }
  }

  lemma {:induction false} OnePublished(outbox: seq<S.Event>, e: nat, v: nat) returns (i: nat)
    requires A.Published(outbox, e, v) == 1
    ensures i < |outbox|
    ensures forall j :: 0 <= j < |outbox| ==> (A.IsApproval(outbox[j], e, v) <==> j == i)
  {
    var n := |outbox| - 1;
    if A.IsApproval(outbox[n], e, v) {
      NothingPublished(outbox[..n], e, v);
      i := n;
    } else {
      i := OnePublished(outbox[..n], e, v);
    }
  }

  /** Distinct inserts hit the one approval at most once. */
  lemma {:induction false} InsertedOnce(effects: seq<nat>, outbox: seq<S.Event>, e: nat, v: nat, i: nat)
    requires forall j, k :: 0 <= j < k < |effects| ==> effects[j] != effects[k]
    requires i < |outbox|
    requires forall j :: 0 <= j < |outbox| ==> (A.IsApproval(outbox[j], e, v) <==> j == i)
    ensures Inserts(effects, outbox, e, v) == if i in effects then 1 else 0
  {
    if effects != [] {
      InsertedOnce(effects[1..], outbox, e, v, i);
      assert effects == [effects[0]] + effects[1..];
    }
  }

  lemma {:induction false} NothingInserted(effects: seq<nat>, outbox: seq<S.Event>, e: nat, v: nat)
    requires forall j :: 0 <= j < |outbox| ==> !A.IsApproval(outbox[j], e, v)
    ensures Inserts(effects, outbox, e, v) == 0
  {
    if effects != [] { NothingInserted(effects[1..], outbox, e, v); }
  }

  /** Outbox row `i` is the approval of the version; what its status says of the consumer's inserts for the version. */
  ghost predicate Reaches(y: System, i: nat, e: nat, v: nat) {
    && i < |y.db.outbox| && i < |y.relay.events| && A.IsApproval(y.db.outbox[i], e, v)
    && Inserts(y.relay.effects, y.db.outbox, e, v) <= 1
    && (y.relay.events[i].status == P.Delivered ==>
          Inserts(y.relay.effects, y.db.outbox, e, v) == 1 && i in y.relay.applied && y.relay.applied[i] == Some(v))
    && (y.relay.events[i].status in {P.Pending, P.Retry, P.DeadLetter} ==>
          Inserts(y.relay.effects, y.db.outbox, e, v) == 0)
  }

  lemma ApprovalReaches(y: System, e: nat, v: nat)
    requires Consistent(y)
    ensures A.ApprovedAt(y.db, e, v) <==> exists i :: Reaches(y, i, e, v)
    ensures !A.ApprovedAt(y.db, e, v) ==> Inserts(y.relay.effects, y.db.outbox, e, v) == 0
  {
    assert A.Published(y.db.outbox, e, v) == (if A.ApprovedAt(y.db, e, v) then 1 else 0);
    if A.ApprovedAt(y.db, e, v) {
      var i := OnePublished(y.db.outbox, e, v);
      InsertedOnce(y.relay.effects, y.db.outbox, e, v, i);
      assert P.MessageSound(y.relay, i);
      assert Reaches(y, i, e, v);
    } else {
      NothingPublished(y.db.outbox, e, v);
      NothingInserted(y.relay.effects, y.db.outbox, e, v);
    }
  }

  ghost function Beginning(sources: map<string, int>, policies: map<string, S.Rules>): System {
    System(S.Empty(sources, policies), P.Start())
  }

  /** However the transactions of the service, the relay, reconciliation and crashes interleave: a version is approved
      exactly when an event of its own carries it; the consumer inserts it at most once, exactly once when that event
      is delivered and not at all while it waits or after it is given up; it inserts nothing for other versions. */
  lemma ApprovalsArriveOnce(sources: map<string, int>, policies: map<string, S.Rules>, moves: seq<Move>,
                            e: nat, v: nat)
    requires FairMoves(Beginning(sources, policies), moves)
    ensures var y := MovedAll(Beginning(sources, policies), moves);
      && (A.ApprovedAt(y.db, e, v) <==> exists i :: Reaches(y, i, e, v))
      && (!A.ApprovedAt(y.db, e, v) ==> Inserts(y.relay.effects, y.db.outbox, e, v) == 0)
  {
    G.EmptyGrounded(sources, policies);
    AllConsistent(Beginning(sources, policies), moves);
    ApprovalReaches(MovedAll(Beginning(sources, policies), moves), e, v);
  }
}
