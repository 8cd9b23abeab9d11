/** The transactions of the mastering service as functions of the store. */
module Steps {
  import opened Prelude
  import opened Survivorship
  import opened Store

  // ---- ingestion of one observation ----

  /** `_observation_is_current`. */
  predicate Supersedes(obj: SourceObject, item: Item) {
    if item.sequence.Some? && obj.sequence.Some? then item.sequence.value > obj.sequence.value
    else if item.sequence.Some? then true
    else if item.effective.Some? && obj.effective.Some? then item.effective.value > obj.effective.value
    else true
  }

  function ObjectOr(s: Store, k: ObjectKey): SourceObject {
    if k in s.objects then s.objects[k] else NEW_OBJECT
  }

  /** A partial observation is laid over the current record. */
  function Composed(s: Store, obj: SourceObject, item: Item): Values {
    if item.partial && obj.current.Some? && obj.current.value in s.records
    then s.records[obj.current.value].facts.original + item.values
    else item.values
  }

  predicate Quarantined(rules: Rules, values: Values, item: Item) {
    !item.deleted && rules.invalid(values)
  }

  function StateOf(obj: SourceObject, item: Item, quarantined: bool): RecordState {
    if item.deleted then Deleted
    else if quarantined then Quarantine
    else if Supersedes(obj, item) then Valid
    else Superseded
  }

  /** The object row after an observation, membership aside. */
  function Observed(obj: SourceObject, item: Item, rid: RecordKey, quarantined: bool): SourceObject {
    var seen := obj.(latest := Some(rid));
    if quarantined || !Supersedes(obj, item) then seen
    else if item.deleted then
      seen.(sequence := item.sequence, effective := item.effective, current := None, retired := true)
    else
      seen.(sequence := item.sequence, effective := item.effective, current := Some(rid), retired := false)
  }

  function RecordOf(s: Store, k: ObjectKey, item: Item): SourceRecord
    requires k.domain in s.policies
  {
    var obj := ObjectOr(s, k);
    var rules := s.policies[k.domain];
    var values := Composed(s, obj, item);
    SourceRecord(
      Facts(s.next, k.source, values, item.verification, s.clock),
      rules.normalize(values),
      StateOf(obj, item, Quarantined(rules, values, item)),
      item)
  }

  function BlocksOf(rules: Rules, rid: RecordKey, normalized: Values): set<Block> {
    set key | key in rules.keys(normalized) :: Block(rid, key)
  }

  /** The observation, its candidate keys and the object row are written. */
  function Received(s: Store, k: ObjectKey, item: Item): Store
    requires k.domain in s.policies
  {
    var obj := ObjectOr(s, k);
    var rid := RecordKey(k, item.version);
    var rec := RecordOf(s, k, item);
    s.(objects := s.objects[k := Observed(obj, item, rid, rec.state == Quarantine)],
       records := s.records[rid := rec],
       blocks := s.blocks + BlocksOf(s.policies[k.domain], rid, rec.normalized),
       next := s.next + 1)
  }

  // ---- candidate search ----

  const CANDIDATE_LIMIT := 200

  /** The rows of the candidate query: one per joined index row. */
  function CandidateRows(s: Store, rid: RecordKey, keys: seq<string>): set<(ObjectKey, string)> {
    set k, b | k in s.objects && b in s.blocks && Joined(s, rid, keys, k, b) :: (k, b.key)
  }

  predicate Joined(s: Store, rid: RecordKey, keys: seq<string>, k: ObjectKey, b: Block) {
    && IsCurrent(s, k)
    && s.objects[k].entity.Some?
    && k.domain == rid.owner.domain
    && s.objects[k].current.value != rid
    && b.record == s.objects[k].current.value
    && b.key in keys
  }

  function Candidates(s: Store, rid: RecordKey, keys: seq<string>): set<ObjectKey> {
    set row | row in CandidateRows(s, rid, keys) :: row.0
  }

  predicate CannotLink(s: Store, a: ObjectKey, b: ObjectKey) {
    Pair(a, b) in s.cannot
  }

  /** No current member of the entity contradicts the record. */
  predicate ClusterFree(s: Store, rules: Rules, normalized: Values, e: nat) {
    forall m :: m in Contributors(s, e) ==> !rules.compare(normalized, CurrentRecord(s, m).normalized).contradicted
  }

  function VerdictOn(s: Store, rules: Rules, normalized: Values, c: ObjectKey): Verdict
    requires IsCurrent(s, c)
  {
    rules.compare(normalized, CurrentRecord(s, c).normalized)
  }

  /** The filters of the candidate loop. */
  predicate Eligible(s: Store, rules: Rules, k: ObjectKey, normalized: Values, c: ObjectKey) {
    && IsCurrent(s, c)
    && s.objects[c].entity.Some?
    && !CannotLink(s, k, c)
    && VerdictOn(s, rules, normalized, c).decision in {AutoLink, Review}
    && ClusterFree(s, rules, normalized, s.objects[c].entity.value)
  }

  /** `pick` is an outcome of the candidate loop for some order of the rows:
      an eligible candidate of the highest score, or none when none is eligible. */
  predicate IsBest(s: Store, rules: Rules, k: ObjectKey, normalized: Values,
                   candidates: set<ObjectKey>, pick: Option<ObjectKey>) {
    match pick
    case None => forall c :: c in candidates ==> !Eligible(s, rules, k, normalized, c)
    case Some(b) =>
      && b in candidates
      && Eligible(s, rules, k, normalized, b)
      && forall c :: c in candidates && Eligible(s, rules, k, normalized, c) ==>
           VerdictOn(s, rules, normalized, c).score <= VerdictOn(s, rules, normalized, b).score
  }

  /** `_resolve`, membership and the first draft of an object that has no entity yet. */
  ghost function Resolved(s: Store, k: ObjectKey, rid: RecordKey, pick: Option<ObjectKey>): Reply<Store>
    requires k in s.objects && k.domain in s.policies && rid in s.records
  {
    var rules := s.policies[k.domain];
    var normalized := s.records[rid].normalized;
    var keys := rules.keys(normalized);
    if |CandidateRows(s, rid, keys)| > CANDIDATE_LIMIT then Abort("candidate_block_overflow")
    else if !IsBest(s, rules, k, normalized, Candidates(s, rid, keys), pick) then Abort("not_a_query_result")
    else if pick.Some? && VerdictOn(s, rules, normalized, pick.value).decision == AutoLink
            && s.objects[pick.value].entity.value in s.entities then
      Commit(Joining(s, k, s.objects[pick.value].entity.value))
    else if pick.Some? then
      if s.objects[pick.value].entity.value !in s.entities then Abort("entity_missing")
      else Commit(Reviewing(s, k, rid, pick.value))
    else Commit(Creating(s, k))
  }

  ghost function Joining(s: Store, k: ObjectKey, e: nat): Store
    requires k in s.objects && e in s.entities
  {
    Draft(Move(Bump(s, e), {k}, e), e)
  }

  ghost function Creating(s: Store, k: ObjectKey): Store
    requires k in s.objects
  {
    Draft(Move(NewEntity(s, k.domain), {k}, s.next), s.next)
  }

  function TaskFor(s: Store, k: ObjectKey, rid: RecordKey, c: ObjectKey): MatchTask
    requires IsCurrent(s, c) && s.objects[c].entity.Some? && s.objects[c].entity.value in s.entities
  {
    var target := s.objects[c].entity.value;
    MatchTask(Open, 1, k, c, rid, s.objects[c].current.value, target, s.entities[target].version)
  }

  ghost function Reviewing(s: Store, k: ObjectKey, rid: RecordKey, c: ObjectKey): Store
    requires k in s.objects
    requires IsCurrent(s, c) && s.objects[c].entity.Some? && s.objects[c].entity.value in s.entities
  {
    var s1 := NewEntity(s, k.domain);
    var s2 := s1.(matches := s1.matches[s.next := TaskFor(s, k, rid, c)]);
    Draft(Move(s2, {k}, s.next), s.next)
  }

  ghost function Refreshed(s: Store, e: nat): Store
    requires e in s.entities
  {
    Draft(Bump(s, e), e)
  }

  /** One iteration of the ingestion loop. */
  ghost function Observe(s: Store, k: ObjectKey, item: Item, pick: Option<ObjectKey>): Reply<Store> {
    var rid := RecordKey(k, item.version);
    if k.source !in s.sources || k.domain !in s.policies then Abort("source_or_domain_not_found")
    else if rid in s.records then
      if s.records[rid].payload != item then Abort("source_version_conflict")
      else Commit(s.(objects := s.objects[k := ObjectOr(s, k)]))
    else
      var obj := ObjectOr(s, k);
      var s1 := Received(s, k, item);
      if s1.records[rid].state == Quarantine || !Supersedes(obj, item) then Commit(s1)
      else if obj.entity.Some? then
        if obj.entity.value in s1.entities then Commit(Refreshed(s1, obj.entity.value))
        else if item.deleted then Commit(s1)
        else Abort("source_membership_entity_missing")
      else if item.deleted then Commit(s1)
      else Resolved(s1, k, rid, pick)
  }

  // ---- decisions ----

  /** `_link_match`: the members of the match's entity join the target. */
  ghost function Linked(s: Store, e: nat): Reply<Store>
    requires e in s.matches
  {
    var t := s.matches[e];
    if e !in s.entities || t.target !in s.entities then Abort("entity_unavailable")
    else if s.entities[e].domain != s.entities[t.target].domain then Abort("cross_domain_merge_forbidden")
    else if s.entities[t.target].version != t.boundTarget then Abort("stale_target_entity")
    else if CannotLink(s, t.left, t.right) then Abort("cannot_link_constraint")
    else if t.leftRecord !in s.records || t.rightRecord !in s.records
            || s.entities[e].domain !in s.policies then Abort("match_evidence_unavailable")
    else if s.policies[s.entities[e].domain].compare(
              s.records[t.leftRecord].normalized, s.records[t.rightRecord].normalized).contradicted
    then Abort("match_contradiction")
    else Commit(LinkInto(s, e, t.target))
  }

  ghost function LinkInto(s: Store, e: nat, target: nat): Store
    requires e in s.entities && target in s.entities
  {
    Draft(Bump(SetStatus(Move(s, MembersOf(s, e), target), e, Merged), target), target)
  }

  function CloseMatch(s: Store, e: nat, status: TaskStatus): Store
    requires e in s.matches
  {
    s.(matches := s.matches[e := s.matches[e].(status := status)])
  }

  predicate BoundStale(s: Store, e: nat, bound: nat) {
    e in s.entities && s.entities[e].version != bound
  }

  /** `decide_task` on a duplicate_match task. */
  ghost function DecideMatch(s: Store, e: nat, link: bool): Reply<Store> {
    if e !in s.matches then Abort("task_not_found")
    else if s.matches[e].status != Open then Abort("task_not_open")
    else if BoundStale(s, e, s.matches[e].bound) then CommitThenRaise(CloseMatch(s, e, Stale), "stale_approval")
    else if link then
      var r := Linked(s, e);
      if r.Commit? then Commit(CloseMatch(r.db, e, Accepted)) else r
    else
      var pair := Pair(s.matches[e].left, s.matches[e].right);
      if pair in s.cannot then Abort("unique_violation")
      else Commit(CloseMatch(s.(cannot := s.cannot + {pair}), e, Rejected))
  }

  function SetVersion(s: Store, e: nat, v: nat, row: MasterVersion): Store
    requires e in s.versions && v < |s.versions[e]|
  {
    s.(versions := s.versions[e := s.versions[e][v := row]])
  }

  /** The draft becomes the approved version and its values are published. */
  function ApproveMaster(s: Store, e: nat, v: nat): Store
    requires e in s.versions && v < |s.versions[e]| && e in s.entities
  {
    var row := s.versions[e][v];
    var s1 := SetVersion(s, e, v, row.(review := Accepted, approved := true));
    Emit(SetStatus(s1, e, Approved), MasterApproved(e, v + 1, row.values))
  }

  /** `decide_task` on the master_approval task of version `v + 1` of entity `e`. */
  function DecideMaster(s: Store, e: nat, v: nat, approve: bool): Reply<Store> {
    if !(e in s.versions && v < |s.versions[e]|) then Abort("task_not_found")
    else
      var row := s.versions[e][v];
      if row.review != Open then Abort("task_not_open")
      else if BoundStale(s, e, row.bound) then
        CommitThenRaise(SetVersion(s, e, v, row.(review := Stale)), "stale_approval")
      else if !approve then Commit(SetVersion(s, e, v, row.(review := Rejected)))
      else if row.approved || e !in s.entities then Abort("draft_unavailable")
      else Commit(ApproveMaster(s, e, v))
  }

  // ---- merge ----

  predicate Live(s: Store, e: nat) {
    e in s.entities && s.entities[e].status != Merged
  }

  predicate SameDomain(s: Store, a: nat, b: nat) {
    a in s.entities && b in s.entities && s.entities[a].domain == s.entities[b].domain
  }

  /** `propose_merge` without the dry run. */
  function ProposeMerge(s: Store, ids: seq<nat>, actor: string): Reply<Store> {
    if !(forall e :: e in ids ==> Live(s, e)) then Abort("entity_not_found")
    else if ids == [] || !(forall e :: e in ids ==> SameDomain(s, e, ids[0]))
    then Abort("cross_domain_merge_forbidden")
    else
      var task := MergeTask(Open, actor, ids[0], ids[1..], map e | e in ids :: s.entities[e].version);
      Commit(s.(merges := s.merges[s.next := task], next := s.next + 1))
  }

  /** The loop of `_apply_merge` over the absorbed entities. */
  function Absorb(s: Store, primary: nat, absorbed: seq<nat>, bound: map<nat, nat>): (r: Reply<Store>)
    ensures !r.CommitThenRaise?
    ensures r.Commit? ==> r.db.entities.Keys == s.entities.Keys
    ensures r.Commit? ==> r.db == s.(objects := r.db.objects, history := r.db.history, entities := r.db.entities)
    decreases |absorbed|
  {
    if absorbed == [] then Commit(s)
    else
      var b := absorbed[0];
      if !Live(s, b) || b !in bound || bound[b] != s.entities[b].version then Abort("merge_entity_changed")
      else Absorb(SetStatus(Move(s, MembersOf(s, b), primary), b, Merged), primary, absorbed[1..], bound)
  }

  ghost function ApplyMerge(s: Store, t: MergeTask): Reply<Store> {
    if t.primary !in s.entities then Abort("primary_entity_missing")
    else if t.primary !in t.bound || t.bound[t.primary] != s.entities[t.primary].version
    then Abort("merge_entity_changed")
    else
      var r := Absorb(s, t.primary, t.absorbed, t.bound);
      if !r.Commit? then r
      else
        var s1 := Draft(Bump(r.db, t.primary), t.primary);
        Commit(Emit(s1, IdentityMerged(t.primary, |VersionsOf(s1, t.primary)|, t.absorbed)))
  }

  function CloseMerge(s: Store, id: nat, status: TaskStatus): Store
    requires id in s.merges
  {
    s.(merges := s.merges[id := s.merges[id].(status := status)])
  }

  /** `decide_task` on a merge_approval task, which is bound to the primary's version at proposal. */
  ghost function DecideMerge(s: Store, id: nat, approve: bool, actor: string): Reply<Store> {
    if id !in s.merges then Abort("task_not_found")
    else
      var t := s.merges[id];
      if t.status != Open then Abort("task_not_open")
      else if t.primary in t.bound && BoundStale(s, t.primary, t.bound[t.primary]) then
        CommitThenRaise(CloseMerge(s, id, Stale), "stale_approval")
      else if actor == t.proposedBy then Abort("separation_of_duties")
      else if !approve then Commit(CloseMerge(s, id, Rejected))
      else
        var r := ApplyMerge(s, t);
        if r.Commit? then Commit(CloseMerge(r.db, id, Accepted)) else r
  }

  // ---- split ----

  /** The members `propose_split` selects by their current record. */
  function SplitMembers(s: Store, e: nat, rids: seq<RecordKey>): set<ObjectKey> {
    set k | k in s.objects && In(s, k, e) && s.objects[k].current.Some? && s.objects[k].current.value in rids
  }

  function RidSet(rids: seq<RecordKey>): set<RecordKey> { set r | r in rids }

  /** `order` lists the selected members as the query returned them. */
  function ProposeSplit(s: Store, e: nat, rids: seq<RecordKey>, order: seq<ObjectKey>, actor: string): Reply<Store> {
    if !Live(s, e) then Abort("entity_not_found")
    else if |SplitMembers(s, e, rids)| != |RidSet(rids)| then Abort("source_record_not_in_entity")
    else if !Lists(order, SplitMembers(s, e, rids)) then Abort("not_a_query_result")
    else
      var task := SplitTask(Open, actor, e, s.entities[e].version, order);
      Commit(s.(splits := s.splits[s.next := task], next := s.next + 1))
  }

  predicate Lists(order: seq<ObjectKey>, members: set<ObjectKey>) {
    |order| == |members| && (set k | k in order) == members
  }

  function StillMembers(s: Store, e: nat, ks: seq<ObjectKey>): (r: set<ObjectKey>)
    ensures r <= s.objects.Keys
  {
    set k | k in ks && In(s, k, e)
  }

  ghost function ApplySplit(s: Store, t: SplitTask): Reply<Store> {
    if t.entity !in s.entities then Abort("entity_missing")
    else if |StillMembers(s, t.entity, t.objects)| != |t.objects| then Abort("split_membership_changed")
    else Commit(SplitOff(s, t.entity, StillMembers(s, t.entity, t.objects)))
  }

  ghost function SplitOff(s: Store, e: nat, ks: set<ObjectKey>): Store
    requires e in s.entities && ks <= s.objects.Keys
  {
    var moved := Bump(Move(NewEntity(s, s.entities[e].domain), ks, s.next), e);
    Emit(Draft(Draft(moved, e), s.next), IdentitySplit(e, moved.entities[e].version, s.next))
  }

  function CloseSplit(s: Store, id: nat, status: TaskStatus): Store
    requires id in s.splits
  {
    s.(splits := s.splits[id := s.splits[id].(status := status)])
  }

  /** `decide_task` on a split_approval task. */
  ghost function DecideSplit(s: Store, id: nat, approve: bool, actor: string): Reply<Store> {
    if id !in s.splits then Abort("task_not_found")
    else
      var t := s.splits[id];
      if t.status != Open then Abort("task_not_open")
      else if BoundStale(s, t.entity, t.bound) then CommitThenRaise(CloseSplit(s, id, Stale), "stale_approval")
      else if actor == t.proposedBy then Abort("separation_of_duties")
      else if !approve then Commit(CloseSplit(s, id, Rejected))
      else
        var r := ApplySplit(s, t);
        if r.Commit? then Commit(CloseSplit(r.db, id, Accepted)) else r
  }

  // ---- remaster ----

  /** The records a remaster renormalizes: current records of unretired objects of the domain. */
  predicate Reindexed(s: Store, domain: string, rid: RecordKey) {
    && rid.owner.domain == domain
    && rid in s.records
    && rid.owner in s.objects
    && !s.objects[rid.owner].retired
    && s.objects[rid.owner].current == Some(rid)
  }

  function Renormalized(s: Store, domain: string, rules: Rules): map<RecordKey, SourceRecord> {
    map rid | rid in s.records ::
      if Reindexed(s, domain, rid) then s.records[rid].(normalized := rules.normalize(s.records[rid].facts.original))
      else s.records[rid]
  }

  function Rebuilt(s: Store, domain: string, rules: Rules): set<Block> {
    (set b | b in s.blocks && b.record.owner.domain != domain) +
    (set rid, key | rid in s.records && Reindexed(s, domain, rid) &&
       key in rules.keys(rules.normalize(s.records[rid].facts.original)) :: Block(rid, key))
  }

  function LiveIn(s: Store, domain: string): (es: set<nat>)
    ensures es <= s.entities.Keys
  {
    set e | e in s.entities && s.entities[e].domain == domain && s.entities[e].status != Merged
  }

  /** Every entity of `es` gets a version bump and a new draft. */
  ghost function RefreshAll(s: Store, es: set<nat>): Store
    requires es <= s.entities.Keys
  {
    s.(entities := map e | e in s.entities ::
         if e in es then s.entities[e].(version := s.entities[e].version + 1) else s.entities[e],
       versions := map e | e in s.versions.Keys + es ::
         if e in es then StaleOpen(VersionsOf(s, e)) +
                         [MasterVersion(false, FreshValues(s, e), Open, s.entities[e].version + 1)]
         else VersionsOf(s, e))
  }

  /** The index part of `remaster_domain`. */
  function Reindex(s: Store, domain: string): Store
    requires domain in s.policies
  {
    s.(records := Renormalized(s, domain, s.policies[domain]), blocks := Rebuilt(s, domain, s.policies[domain]))
  }

  ghost function Remaster(s: Store, domain: string): Reply<Store> {
    if domain !in s.policies then Abort("domain_missing")
    else Commit(RefreshAll(Reindex(s, domain), LiveIn(s, domain)))
  }

  // ---- runs ----

  datatype Step =
    | Tick(elapsed: nat)
    | ObserveStep(k: ObjectKey, item: Item, pick: Option<ObjectKey>)
    | MatchStep(e: nat, link: bool)
    | MasterStep(e: nat, v: nat, approve: bool)
    | ProposeMergeStep(ids: seq<nat>, actor: string)
    | MergeStep(id: nat, approve: bool, actor: string)
    | ProposeSplitStep(e: nat, rids: seq<RecordKey>, order: seq<ObjectKey>, actor: string)
    | SplitStep(id: nat, approve: bool, actor: string)
    | RemasterStep(domain: string)
    | ActivateStep(domain: string, rules: Rules)

  ghost function Attempt(s: Store, step: Step): Reply<Store> {
    match step
    case Tick(elapsed) => Commit(s.(clock := s.clock + elapsed))
    case ObserveStep(k, item, pick) => Observe(s, k, item, pick)
    case MatchStep(e, link) => DecideMatch(s, e, link)
    case MasterStep(e, v, approve) => DecideMaster(s, e, v, approve)
    case ProposeMergeStep(ids, actor) => ProposeMerge(s, ids, actor)
    case MergeStep(id, approve, actor) => DecideMerge(s, id, approve, actor)
    case ProposeSplitStep(e, rids, order, actor) => ProposeSplit(s, e, rids, order, actor)
    case SplitStep(id, approve, actor) => DecideSplit(s, id, approve, actor)
    case RemasterStep(domain) => Remaster(s, domain)
    case ActivateStep(domain, rules) =>
      if domain in s.policies then Commit(s.(policies := s.policies[domain := rules])) else Abort("domain_missing")
  }

  /** A step that raises leaves the store as its transaction left it. */
  ghost function Next(s: Store, step: Step): Store {
    After(s, Attempt(s, step))
  }

  ghost function Run(s: Store, steps: seq<Step>): Store
    decreases |steps|
  {
    if steps == [] then s else Run(Next(s, steps[0]), steps[1..])
  }
}
