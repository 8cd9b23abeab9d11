/** What one observation writes, and what an object shows after any run of full, partial and deleting ones. */
module Observations {
  import opened Prelude
  import opened Survivorship
  import opened Store
  import opened Steps
  import opened Effects
  import opened Grounding
  import opened Delivery
  import opened Redelivery

  /** The value an object shows for a field: that of its current record. */
  function Shown(s: Store, k: ObjectKey, field: string): Option<Value> {
    if k in s.objects && s.objects[k].current.Some? && s.objects[k].current.value in s.records
       && field in s.records[s.objects[k].current.value].facts.original
    then Some(s.records[s.objects[k].current.value].facts.original[field])
    else None
  }

  /** The observation is not older than the state of the object: by sequence number when both have one; without one of
      its own, by effective time when both have that. */
  predicate NotOlder(s: Store, k: ObjectKey, item: Item) {
    k in s.objects ==>
      && (item.sequence.Some? && s.objects[k].sequence.Some? ==> item.sequence.value > s.objects[k].sequence.value)
      && (item.sequence.None? && item.effective.Some? && s.objects[k].effective.Some? ==>
            item.effective.value > s.objects[k].effective.value)
  }

  /** The step is a committed observation of `k` that is not on record yet. */
  ghost predicate Reports(s: Store, step: Step, k: ObjectKey) {
    step.ObserveStep? && step.k == k && RecordKey(k, step.item.version) !in s.records && Attempt(s, step).Commit?
  }

  /** It becomes the state of the object: it is not older and not quarantined. */
  ghost predicate Takes(s: Store, step: Step, k: ObjectKey) {
    && Reports(s, step, k) && NotOlder(s, k, step.item)
    && RecordKey(k, step.item.version) in Next(s, step).records
    && Next(s, step).records[RecordKey(k, step.item.version)].state != Quarantine
  }

  lemma ReportEffect(s: Store, step: Step, k: ObjectKey)
    requires Grounded(s) && Reports(s, step, k)
    ensures FirstSight(s, k, step.item, step.pick, Next(s, step))
    ensures var t := Next(s, step);
      && k.domain in s.policies && t.policies == s.policies && k in t.objects
      && t.records == s.records[RecordKey(k, step.item.version) := RecordOf(s, k, step.item)]
      && t.objects[k].(entity := None) ==
           Observed(ObjectOr(s, k), step.item, RecordKey(k, step.item.version),
                    RecordOf(s, k, step.item).state == Quarantine).(entity := None)
  {
    ObserveCases(s, k, step.item, step.pick);
    ObserveEffect(s, k, step.item, step.pick, Next(s, step));
  }

  // ---- the record ----

  /** Field by field: what the observation carries; a partial one takes the rest from the current record. */
  lemma ReportedValues(s: Store, step: Step, k: ObjectKey, field: string)
    requires Grounded(s) && Reports(s, step, k)
    ensures var rid := RecordKey(k, step.item.version);
      && rid in Next(s, step).records
      && var original := Next(s, step).records[rid].facts.original;
         if field in step.item.values then field in original && original[field] == step.item.values[field]
         else if step.item.partial && Shown(s, k, field).Some?
         then field in original && original[field] == Shown(s, k, field).value
         else field !in original
  {
    ReportEffect(s, step, k);
  }

  lemma RecordEffect(s: Store, k: ObjectKey, item: Item)
    requires Grounded(s) && k.domain in s.policies
    ensures var r := RecordOf(s, k, item);
      && r.facts.source == k.source && r.facts.observed == s.clock && r.facts.verification == item.verification
      && (forall q :: q in s.records ==> s.records[q].facts.uid < r.facts.uid)
      && r.payload == item && r.normalized == s.policies[k.domain].normalize(r.facts.original)
      && (r.state == Deleted <==> item.deleted)
      && (r.state == Quarantine <==> !item.deleted && s.policies[k.domain].invalid(r.facts.original))
      && (r.state == Valid <==>
            !item.deleted && !s.policies[k.domain].invalid(r.facts.original) && NotOlder(s, k, item))
  {
  }

  /** The record remembers its source, time and verification, holds the normal form of its values, and is deleted,
      quarantined, valid or superseded exactly by the stated tests. */
  lemma ReportedRecord(s: Store, step: Step, k: ObjectKey)
    requires Grounded(s) && Reports(s, step, k)
    ensures var rid := RecordKey(k, step.item.version);
      && k.domain in s.policies && rid in Next(s, step).records
      && var r := Next(s, step).records[rid];
         && r.facts.source == k.source && r.facts.observed == s.clock && r.facts.verification == step.item.verification
         && (forall q :: q in s.records ==> s.records[q].facts.uid < r.facts.uid)
         && r.payload == step.item && r.normalized == s.policies[k.domain].normalize(r.facts.original)
         && (r.state == Deleted <==> step.item.deleted)
         && (r.state == Quarantine <==> !step.item.deleted && s.policies[k.domain].invalid(r.facts.original))
         && (r.state == Valid <==>
               !step.item.deleted && !s.policies[k.domain].invalid(r.facts.original) && NotOlder(s, k, step.item))
  {
    ReportEffect(s, step, k);
    RecordEffect(s, k, step.item);
  }

  // ---- the object ----

  /** An observation that takes effect becomes the object's state; a deletion retires it. Any other one leaves the state
      alone and is remembered as the latest. */
  lemma ReportedState(s: Store, step: Step, k: ObjectKey)
    requires Grounded(s) && Reports(s, step, k)
    ensures k in Next(s, step).objects
    ensures var rid := RecordKey(k, step.item.version);
      var before := if k in s.objects then s.objects[k] else NEW_OBJECT;
      var later := Next(s, step).objects[k];
      && later.latest == Some(rid)
      && (Takes(s, step, k) ==>
            && later.sequence == step.item.sequence && later.effective == step.item.effective
            && later.retired == step.item.deleted && later.current == if step.item.deleted then None else Some(rid))
      && (!Takes(s, step, k) ==>
            && later.sequence == before.sequence && later.effective == before.effective
            && later.retired == before.retired && later.current == before.current)
  {
    ReportEffect(s, step, k);
    StateEffect(s, step.item, k, Next(s, step).objects[k]);
  }

  lemma StateEffect(s: Store, item: Item, k: ObjectKey, later: SourceObject)
    requires k.domain in s.policies
    requires later.(entity := None) ==
      Observed(ObjectOr(s, k), item, RecordKey(k, item.version),
               RecordOf(s, k, item).state == Quarantine).(entity := None)
    ensures var before := if k in s.objects then s.objects[k] else NEW_OBJECT;
      var taken := NotOlder(s, k, item) && RecordOf(s, k, item).state != Quarantine;
      && later.latest == Some(RecordKey(k, item.version))
      && later.sequence == (if taken then item.sequence else before.sequence)
      && later.effective == (if taken then item.effective else before.effective)
      && later.retired == (if taken then item.deleted else before.retired)
      && later.current ==
           if !taken then before.current else if item.deleted then None else Some(RecordKey(k, item.version))
  {
    assert NotOlder(s, k, item) <==> Supersedes(ObjectOr(s, k), item);
  }

  /** A deletion, or an observation that does not take effect, moves the object to no entity. */
  lemma OnlyTakenOnesPlace(s: Store, step: Step, k: ObjectKey)
    requires Grounded(s) && Reports(s, step, k) && (step.item.deleted || !Takes(s, step, k))
    ensures k in Next(s, step).objects
    ensures Next(s, step).objects[k].entity == if k in s.objects then s.objects[k].entity else None
  {
    ReportEffect(s, step, k);
    UnplacedStay(s, k, step.item, step.pick, Next(s, step));
  }

  lemma UnplacedStay(s: Store, k: ObjectKey, item: Item, pick: Option<ObjectKey>, t: Store)
    requires FirstSight(s, k, item, pick, t) && k in t.objects
    requires item.deleted || !NotOlder(s, k, item) || RecordOf(s, k, item).state == Quarantine
    ensures t.objects[k].entity == if k in s.objects then s.objects[k].entity else None
  {
    var s1 := Received(s, k, item);
    assert NotOlder(s, k, item) <==> Supersedes(ObjectOr(s, k), item);
    assert !JustReceived(s1, k, RecordKey(k, item.version));
  }

  /** An observation already on record is accepted again exactly when it says the same, and then changes nothing; of an
      unknown source or domain it is refused. */
  lemma KnownReportsIff(s: Store, k: ObjectKey, item: Item, pick: Option<ObjectKey>)
    requires k in s.objects && RecordKey(k, item.version) in s.records
    ensures Attempt(s, ObserveStep(k, item, pick)).Commit? <==>
      k.source in s.sources && k.domain in s.policies && s.records[RecordKey(k, item.version)].payload == item
    ensures Next(s, ObserveStep(k, item, pick)) == s
  {
    assert s.objects[k := s.objects[k]] == s.objects;
  }

  // ---- what every other step leaves alone ----

  /** The object's row is as before, membership aside. */
  ghost predicate SameRow(s: Store, t: Store, k: ObjectKey) {
    ObjectOr(t, k).(entity := None) == ObjectOr(s, k).(entity := None)
  }

  lemma SameContentSameRow(s: Store, t: Store, k: ObjectKey)
    requires SameContent(s, t)
    ensures SameRow(s, t, k)
  {
  }

  lemma KnownKeepsRow(s: Store, j: ObjectKey, k: ObjectKey)
    ensures SameRow(s, Known(s, j), k)
  {
  }

  lemma ObserveSameRow(s: Store, j: ObjectKey, item: Item, pick: Option<ObjectKey>, r: Reply<Store>, k: ObjectKey)
    requires Grounded(s) && ObserveOutcome(s, j, item, pick, r)
    requires j == k ==> RecordKey(k, item.version) in s.records || r.Abort?
    ensures SameRow(s, After(s, r), k)
  {
    if r.Commit? {
      if RecordKey(j, item.version) in s.records {
        KnownKeepsRow(s, j, k);
      } else {
        ObserveEffect(s, j, item, pick, r.db);
      }
    }
  }

  lemma MatchSameRow(s: Store, e: nat, link: bool, r: Reply<Store>, k: ObjectKey)
    requires Grounded(s) && MatchOutcome(s, e, link, r)
    ensures SameRow(s, After(s, r), k)
  {
    if r.Commit? && link {
      LinkIntoReassigns(s, e, s.matches[e].target);
      SameContentSameRow(s, r.db, k);
    }
  }

  lemma MergeSameRow(s: Store, id: nat, approve: bool, r: Reply<Store>, k: ObjectKey)
    requires Grounded(s) && MergeOutcome(s, id, approve, r)
    ensures SameRow(s, After(s, r), k)
  {
    if r.Commit? && approve {
      ApplyMergeReassigns(s, id);
      SameContentSameRow(s, ApplyMerge(s, s.merges[id]).db, k);
    }
  }

  lemma ClosedSameRow(s: Store, t: Store, id: nat, k: ObjectKey)
    requires SameRow(s, t, k) && id in t.splits
    ensures SameRow(s, CloseSplit(t, id, Accepted), k)
  {
  }

  lemma SplitSameRow(s: Store, id: nat, approve: bool, r: Reply<Store>, k: ObjectKey)
    requires Grounded(s) && SplitOutcome(s, id, approve, r)
    ensures SameRow(s, After(s, r), k)
  {
    if r.Commit? && approve {
      var e := s.splits[id].entity;
      var ks := StillMembers(s, e, s.splits[id].objects);
      SplitOffReassigns(s, e, ks);
      SameContentSameRow(s, SplitOff(s, e, ks), k);
      ClosedSameRow(s, SplitOff(s, e, ks), id, k);
    }
  }

  lemma MasterSameRow(s: Store, e: nat, v: nat, approve: bool, r: Reply<Store>, k: ObjectKey)
    requires MasterOutcome(s, e, v, approve, r)
    ensures SameRow(s, After(s, r), k)
  {
    if !r.Abort? { SameContentSameRow(s, r.db, k); }
  }

  lemma RemasterSameRow(s: Store, domain: string, k: ObjectKey)
    ensures SameRow(s, After(s, Remaster(s, domain)), k)
  {
    if domain in s.policies { assert After(s, Remaster(s, domain)).objects == s.objects; }
  }

  lemma ActivateSameRow(s: Store, domain: string, rules: Rules, k: ObjectKey)
    ensures SameRow(s, Next(s, ActivateStep(domain, rules)), k)
  {
  }

  lemma AdministrativeSameRow(s: Store, step: Step, k: ObjectKey)
    requires Administrative(step)
    ensures SameRow(s, Next(s, step), k)
  {
    AdministrativeAside(s, step);
  }

  lemma KnownSameRow(s: Store, j: ObjectKey, item: Item, pick: Option<ObjectKey>, k: ObjectKey)
    requires Grounded(s) && !Reports(s, ObserveStep(j, item, pick), k)
    ensures SameRow(s, Next(s, ObserveStep(j, item, pick)), k)
  {
    ObserveCases(s, j, item, pick);
    ObserveSameRow(s, j, item, pick, Attempt(s, ObserveStep(j, item, pick)), k);
  }

  lemma OtherStepsSameRow(s: Store, step: Step, k: ObjectKey)
    requires Grounded(s) && !Reports(s, step, k)
    ensures SameRow(s, Next(s, step), k)
  {
    match step
    case ObserveStep(j, item, pick) => KnownSameRow(s, j, item, pick, k);
    case MatchStep(e, link) => DecideMatchCases(s, e, link); MatchSameRow(s, e, link, Attempt(s, step), k);
    case MasterStep(e, v, approve) =>
      DecideMasterCases(s, e, v, approve);
      MasterSameRow(s, e, v, approve, Attempt(s, step), k);
    case MergeStep(id, approve, actor) =>
      DecideMergeCases(s, id, approve, actor);
      MergeSameRow(s, id, approve, Attempt(s, step), k);
    case SplitStep(id, approve, actor) =>
      DecideSplitCases(s, id, approve, actor);
      SplitSameRow(s, id, approve, Attempt(s, step), k);
    case RemasterStep(domain) => RemasterSameRow(s, domain, k);
    case ActivateStep(domain, rules) => ActivateSameRow(s, domain, rules, k);
    case _ => AdministrativeSameRow(s, step, k);
  }

  lemma SameRowShows(s: Store, t: Store, k: ObjectKey, field: string)
    requires Grounded(s) && SameRow(s, t, k) && Keeps(s, t)
    ensures Shown(t, k, field) == Shown(s, k, field)
  {
    if k in s.objects && s.objects[k].current.Some? { assert IsCurrent(s, k); }
  }

  /** Only an observation that takes effect changes what an object shows. */
  lemma OthersShowTheSame(s: Store, step: Step, k: ObjectKey, field: string)
    requires Grounded(s) && !Takes(s, step, k)
    ensures Shown(Next(s, step), k, field) == Shown(s, k, field)
  {
    NextKeepsRecords(s, step);
    if Reports(s, step, k) {
      ReportedState(s, step, k);
      if k in s.objects && s.objects[k].current.Some? { assert IsCurrent(s, k); }
    } else {
      OtherStepsSameRow(s, step, k);
      SameRowShows(s, Next(s, step), k, field);
    }
  }

  /** One that does shows what it carries; a full one nothing else, a partial one the rest as before, a deletion
      nothing at all. */
  lemma TakenShows(s: Store, step: Step, k: ObjectKey, field: string)
    requires Grounded(s) && Takes(s, step, k)
    ensures Shown(Next(s, step), k, field) ==
      if step.item.deleted then None
      else if field in step.item.values then Some(step.item.values[field])
      else if step.item.partial then Shown(s, k, field) else None
  {
    ReportedState(s, step, k);
    ReportedValues(s, step, k, field);
  }

  // ---- runs ----

  /** What the source has said about a field, read off the observations that took effect, the last one first. */
  ghost function Told(s: Store, steps: seq<Step>, k: ObjectKey, field: string): Option<Value> {
    if steps == [] then Shown(s, k, field)
    else
      var n := |steps| - 1;
      if !Takes(Run(s, steps[..n]), steps[n], k) then Told(s, steps[..n], k, field)
      else if steps[n].item.deleted then None
      else if field in steps[n].item.values then Some(steps[n].item.values[field])
      else if steps[n].item.partial then Told(s, steps[..n], k, field) else None
  }

  lemma {:induction false} RunLast(s: Store, steps: seq<Step>)
    requires steps != []
    ensures Run(s, steps) == Next(Run(s, steps[..|steps| - 1]), steps[|steps| - 1])
    decreases |steps|
  {
    var n := |steps| - 1;
    if n == 0 {
      assert steps[..n] == [] && steps[1..] == [];
    } else {
      RunLast(Next(s, steps[0]), steps[1..]);
      assert steps[1..][..n - 1] == steps[..n][1..] && steps[1..][n - 1] == steps[n] && steps[..n][0] == steps[0];
    }
  }

  /** In every run, whatever else happens in between, an object shows for each field what was told last. */
  lemma {:induction false} ShowsWhatWasTold(s: Store, steps: seq<Step>, k: ObjectKey, field: string)
    requires Grounded(s)
    ensures Shown(Run(s, steps), k, field) == Told(s, steps, k, field)
    decreases |steps|
  {
    if steps != [] {
      var n := |steps| - 1;
      var t := Run(s, steps[..n]);
      ShowsWhatWasTold(s, steps[..n], k, field);
      RunGrounded(s, steps[..n]);
      RunLast(s, steps);
      if Takes(t, steps[n], k) { TakenShows(t, steps[n], k, field); } else { OthersShowTheSame(t, steps[n], k, field); }
    }
  }

  lemma WithoutTheField(s: Store, step: Step, k: ObjectKey, field: string)
    requires Grounded(s)
    requires Takes(s, step, k) ==> step.item.partial && !step.item.deleted && field !in step.item.values
    ensures Shown(Next(s, step), k, field) == Shown(s, k, field)
  {
    if Takes(s, step, k) { TakenShows(s, step, k, field); } else { OthersShowTheSame(s, step, k, field); }
  }

  /** Step `j`, when it takes effect for `k`, is a partial observation without the field. */
  ghost predicate LeavesAlone(s: Store, steps: seq<Step>, k: ObjectKey, field: string, j: nat)
    requires j < |steps|
  {
    Takes(Run(s, steps[..j]), steps[j], k) ==>
      steps[j].item.partial && !steps[j].item.deleted && field !in steps[j].item.values
  }

  lemma PrefixLeavesAlone(s: Store, steps: seq<Step>, k: ObjectKey, field: string, j: nat, n: nat)
    requires j < n <= |steps| && LeavesAlone(s, steps, k, field, j)
    ensures LeavesAlone(s, steps[..n], k, field, j)
  {
    assert steps[..n][..j] == steps[..j];
  }

  /** So does every step from `i` on. */
  ghost predicate LeavesAloneFrom(s: Store, steps: seq<Step>, k: ObjectKey, field: string, i: nat) {
    forall j :: i <= j < |steps| ==> LeavesAlone(s, steps, k, field, j)
  }

  lemma {:induction false} TailLeavesAlone(s: Store, steps: seq<Step>, k: ObjectKey, field: string, i: nat)
    requires Grounded(s) && i <= |steps| && LeavesAloneFrom(s, steps, k, field, i)
    ensures Shown(Run(s, steps), k, field) == Shown(Run(s, steps[..i]), k, field)
    decreases |steps|
  {
    var n := |steps| - 1;
    if i == |steps| {
      assert steps[..i] == steps;
    } else {
      forall j | i <= j < n ensures LeavesAlone(s, steps[..n], k, field, j) {
        PrefixLeavesAlone(s, steps, k, field, j, n);
      }
      TailLeavesAlone(s, steps[..n], k, field, i);
      assert steps[..n][..i] == steps[..i];
      RunGrounded(s, steps[..n]);
      RunLast(s, steps);
      assert LeavesAlone(s, steps, k, field, n);
      WithoutTheField(Run(s, steps[..n]), steps[n], k, field);
    }
  }

  /** Among partial observations each field shows the last value sent for it: the value sent by step `i` stands as long
      as the later observations that take effect are partial ones without the field. */
  lemma LastValueStands(s: Store, steps: seq<Step>, k: ObjectKey, field: string, i: nat)
    requires Grounded(s) && i < |steps| && Takes(Run(s, steps[..i]), steps[i], k)
    requires !steps[i].item.deleted && field in steps[i].item.values
    requires LeavesAloneFrom(s, steps, k, field, i + 1)
    ensures Shown(Run(s, steps), k, field) == Some(steps[i].item.values[field])
  {
    ValueArrives(s, steps[..i], steps[i], steps[..i + 1], k, field);
    TailLeavesAlone(s, steps, k, field, i + 1);
  }

  lemma ValueArrives(s: Store, steps: seq<Step>, step: Step, all: seq<Step>, k: ObjectKey, field: string)
    requires Grounded(s) && Takes(Run(s, steps), step, k) && !step.item.deleted && field in step.item.values
    requires |all| == |steps| + 1 && all[..|steps|] == steps && all[|steps|] == step
    ensures Shown(Run(s, all), k, field) == Some(step.item.values[field])
  {
    RunLast(s, all);
    RunGrounded(s, steps);
    TakenShows(Run(s, steps), step, k, field);
  }

  // ---- normal forms ----

  /** Every record is in the normal form of its domain's policy. */
  ghost predicate Normal(s: Store) {
    forall r :: r in s.records ==>
      && r.owner.domain in s.policies
      && s.records[r].normalized == s.policies[r.owner.domain].normalize(s.records[r].facts.original)
  }

  /** Records are as before, in their normal forms too. */
  lemma SameRecordsNormal(s: Store, t: Store)
    requires Normal(s) && t.records == s.records && t.policies == s.policies
    ensures Normal(t)
  {
  }

  lemma MatchRecords(s: Store, e: nat, link: bool, r: Reply<Store>)
    requires Grounded(s) && MatchOutcome(s, e, link, r)
    ensures After(s, r).records == s.records && After(s, r).policies == s.policies
  {
    if r.Commit? && link { LinkIntoReassigns(s, e, s.matches[e].target); }
  }

  lemma MergeRecords(s: Store, id: nat, approve: bool, r: Reply<Store>)
    requires Grounded(s) && MergeOutcome(s, id, approve, r)
    ensures After(s, r).records == s.records && After(s, r).policies == s.policies
  {
    if r.Commit? && approve { ApplyMergeReassigns(s, id); }
  }

  lemma SplitRecords(s: Store, id: nat, approve: bool, r: Reply<Store>)
    requires Grounded(s) && SplitOutcome(s, id, approve, r)
    ensures After(s, r).records == s.records && After(s, r).policies == s.policies
  {
    if r.Commit? && approve {
      var e := s.splits[id].entity;
      SplitOffReassigns(s, e, StillMembers(s, e, s.splits[id].objects));
    }
  }

  lemma MasterRecords(s: Store, e: nat, v: nat, approve: bool, r: Reply<Store>)
    requires MasterOutcome(s, e, v, approve, r)
    ensures After(s, r).records == s.records && After(s, r).policies == s.policies
  {
  }

  lemma AdministrativeRecords(s: Store, step: Step)
    requires Administrative(step)
    ensures Next(s, step).records == s.records && Next(s, step).policies == s.policies
  {
    AdministrativeAside(s, step);
  }

  lemma NextRecords(s: Store, step: Step)
    requires Grounded(s) && !step.ObserveStep? && !step.RemasterStep? && !step.ActivateStep?
    ensures Next(s, step).records == s.records && Next(s, step).policies == s.policies
  {
    match step
    case MatchStep(e, link) => DecideMatchCases(s, e, link); MatchRecords(s, e, link, Attempt(s, step));
    case MasterStep(e, v, approve) =>
      DecideMasterCases(s, e, v, approve);
      MasterRecords(s, e, v, approve, Attempt(s, step));
    case MergeStep(id, approve, actor) =>
      DecideMergeCases(s, id, approve, actor);
      MergeRecords(s, id, approve, Attempt(s, step));
    case SplitStep(id, approve, actor) =>
      DecideSplitCases(s, id, approve, actor);
      SplitRecords(s, id, approve, Attempt(s, step));
    case _ => AdministrativeRecords(s, step);
  }

  /** An observation that is refused or already on record. */
  lemma KnownRecords(s: Store, k: ObjectKey, item: Item, pick: Option<ObjectKey>)
    requires !Reports(s, ObserveStep(k, item, pick), k)
    ensures var t := Next(s, ObserveStep(k, item, pick)); t.records == s.records && t.policies == s.policies
  {
    ObserveCases(s, k, item, pick);
    KnownOutcome(s, k, item, pick, Attempt(s, ObserveStep(k, item, pick)));
  }

  lemma KnownOutcome(s: Store, k: ObjectKey, item: Item, pick: Option<ObjectKey>, r: Reply<Store>)
    requires ObserveOutcome(s, k, item, pick, r) && (RecordKey(k, item.version) in s.records || !r.Commit?)
    ensures After(s, r).records == s.records && After(s, r).policies == s.policies
  {
  }

  lemma ReportedNormal(s: Store, t: Store, rid: RecordKey, r: SourceRecord)
    requires Normal(s) && t.policies == s.policies && t.records == s.records[rid := r] && rid.owner.domain in s.policies
    requires r.normalized == s.policies[rid.owner.domain].normalize(r.facts.original)
    ensures Normal(t)
  {
  }

  lemma ObserveNormal(s: Store, step: Step)
    requires Grounded(s) && Normal(s) && step.ObserveStep?
    ensures Normal(Next(s, step))
  {
    if Reports(s, step, step.k) {
      ReportEffect(s, step, step.k);
      ReportedRecord(s, step, step.k);
      ReportedNormal(s, Next(s, step), RecordKey(step.k, step.item.version), RecordOf(s, step.k, step.item));
    } else {
      KnownRecords(s, step.k, step.item, step.pick);
      SameRecordsNormal(s, Next(s, step));
    }
  }

  lemma RemasterNormal(s: Store, domain: string)
    requires Normal(s)
    ensures Normal(Next(s, RemasterStep(domain)))
  {
    if domain in s.policies {
      var t := Next(s, RemasterStep(domain));
      assert t.records == Renormalized(s, domain, s.policies[domain]) && t.policies == s.policies;
    }
  }

  /** In every run without activations every record, current or not, is in the normal form of its policy. */
  lemma {:induction false} RecordsAreNormal(s: Store, steps: seq<Step>)
    requires Grounded(s) && Normal(s) && forall i :: 0 <= i < |steps| ==> !steps[i].ActivateStep?
    ensures Normal(Run(s, steps))
    decreases |steps|
  {
    if steps != [] {
      NextGrounded(s, steps[0]);
      if steps[0].ObserveStep? {
        ObserveNormal(s, steps[0]);
      } else if steps[0].RemasterStep? {
        RemasterNormal(s, steps[0].domain);
      } else {
        NextRecords(s, steps[0]);
        SameRecordsNormal(s, Next(s, steps[0]));
      }
      RecordsAreNormal(Next(s, steps[0]), steps[1..]);
    }
  }

  /** Whatever was activated before, a remaster brings the current records of its domain into the normal form of the
      policy in force. */
  lemma RemasterNormalizes(s: Store, domain: string, k: ObjectKey)
    requires Grounded(s) && domain in s.policies && k.domain == domain && IsCurrent(s, k)
    ensures var t := Next(s, RemasterStep(domain));
      && IsCurrent(t, k) && CurrentRecord(t, k).facts == CurrentRecord(s, k).facts
      && CurrentRecord(t, k).normalized == s.policies[domain].normalize(CurrentRecord(s, k).facts.original)
  {
    var t := Next(s, RemasterStep(domain));
    assert t.objects == s.objects && t.records == Renormalized(s, domain, s.policies[domain]);
  }
}
