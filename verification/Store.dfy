/** The rows of the mastering service, and the small updates its operations are made of. */
module Store {
  import opened Prelude
  import opened Survivorship

  /** Natural key of a source object: unique on (source, domain, local id). */
  datatype ObjectKey = ObjectKey(source: string, domain: string, local: string)

  /** Natural key of an observation: unique on (object, source version). */
  datatype RecordKey = RecordKey(owner: ObjectKey, version: string)

  datatype SourceObject = SourceObject(
    entity: Option<nat>, current: Option<RecordKey>, latest: Option<RecordKey>,
    sequence: Option<nat>, effective: Option<int>, retired: bool)

  datatype RecordState = Valid | Superseded | Quarantine | Deleted

  /** An incoming observation of one object. */
  datatype Item = Item(
    version: string, values: Values, verification: map<string, bool>,
    effective: Option<int>, sequence: Option<nat>, partial: bool, deleted: bool)

  /** `normalized` is recomputed by a remaster; the other fields never change.
      The whole item stands for its payload hash. */
  datatype SourceRecord = SourceRecord(facts: Facts, normalized: Values, state: RecordState, payload: Item)

  datatype EntityStatus = Candidate | Approved | Merged
  datatype Entity = Entity(domain: string, status: EntityStatus, version: nat)

  datatype TaskStatus = Open | Accepted | Rejected | Stale

  /** A duplicate_match review task; it is filed under the entity it was opened for. */
  datatype MatchTask = MatchTask(
    status: TaskStatus, bound: nat, left: ObjectKey, right: ObjectKey,
    leftRecord: RecordKey, rightRecord: RecordKey, target: nat, boundTarget: nat)

  datatype MergeTask = MergeTask(
    status: TaskStatus, proposedBy: string, primary: nat, absorbed: seq<nat>, bound: map<nat, nat>)

  datatype SplitTask = SplitTask(
    status: TaskStatus, proposedBy: string, entity: nat, bound: nat, objects: seq<ObjectKey>)

  /** A master version and the master_approval task opened beside it. */
  datatype MasterVersion = MasterVersion(approved: bool, values: Values, review: TaskStatus, bound: nat)

  datatype Event =
    | MasterApproved(entity: nat, version: nat, values: Values)
    | IdentityMerged(entity: nat, version: nat, absorbed: seq<nat>)
    | IdentitySplit(entity: nat, version: nat, split: nat)

  datatype Tenure = Tenure(entity: nat, from: int, until: Option<int>)

  datatype Block = Block(record: RecordKey, key: string)

  datatype Decision = AutoLink | Review | NoLink | KeepSeparate
  datatype Verdict = Verdict(score: real, decision: Decision, contradicted: bool)

  /** What the service calls on a compiled policy. */
  datatype Rules = Rules(
    normalize: Values -> Values,
    invalid: Values -> bool,
    keys: Values -> seq<string>,
    compare: (Values, Values) -> Verdict,
    survivorship: Policy)

  datatype Store = Store(
    sources: map<string, int>,
    policies: map<string, Rules>,
    objects: map<ObjectKey, SourceObject>,
    records: map<RecordKey, SourceRecord>,
    blocks: set<Block>,
    entities: map<nat, Entity>,
    history: map<ObjectKey, seq<Tenure>>,
    cannot: set<set<ObjectKey>>,
    matches: map<nat, MatchTask>,
    merges: map<nat, MergeTask>,
    splits: map<nat, SplitTask>,
    versions: map<nat, seq<MasterVersion>>,
    outbox: seq<Event>,
    next: nat,
    clock: int)

  function Empty(sources: map<string, int>, policies: map<string, Rules>): Store {
    Store(sources, policies, map[], map[], {}, map[], map[], {}, map[], map[], map[], map[], [], 0, 0)
  }

  const NEW_OBJECT := SourceObject(None, None, None, None, None, false)

  /** A cannot-link row; the service sorts the two ids, so the pair is unordered. */
  function Pair(a: ObjectKey, b: ObjectKey): set<ObjectKey> { {a, b} }

  // ---- queries ----

  /** The object row a query joins with its valid current record. */
  predicate IsCurrent(s: Store, k: ObjectKey) {
    && k in s.objects
    && !s.objects[k].retired
    && s.objects[k].current.Some?
    && s.objects[k].current.value in s.records
    && s.records[s.objects[k].current.value].state == Valid
  }

  function CurrentRecord(s: Store, k: ObjectKey): SourceRecord
    requires IsCurrent(s, k)
  {
    s.records[s.objects[k].current.value]
  }

  predicate In(s: Store, k: ObjectKey, e: nat) {
    k in s.objects && s.objects[k].entity == Some(e)
  }

  /** `_current_records(entity_id)`. */
  function Contributors(s: Store, e: nat): set<ObjectKey> {
    set k | k in s.objects && In(s, k, e) && IsCurrent(s, k)
  }

  function FactsOf(s: Store, e: nat): set<Facts> {
    set k | k in Contributors(s, e) :: CurrentRecord(s, k).facts
  }

  function VersionsOf(s: Store, e: nat): seq<MasterVersion> {
    if e in s.versions then s.versions[e] else []
  }

  function HistoryOf(s: Store, k: ObjectKey): seq<Tenure> {
    if k in s.history then s.history[k] else []
  }

  // ---- updates ----

  function Bump(s: Store, e: nat): Store
    requires e in s.entities
  {
    s.(entities := s.entities[e := s.entities[e].(version := s.entities[e].version + 1)])
  }

  /** A new entity takes the next identifier. */
  function NewEntity(s: Store, domain: string): Store {
    s.(entities := s.entities[s.next := Entity(domain, Candidate, 1)], next := s.next + 1)
  }

  /** Close the open tenure with the latest start, if any. */
  function CloseOpen(rows: seq<Tenure>, now: int): (r: seq<Tenure>)
    ensures |r| == |rows|
  {
    if rows == [] then []
    else
      var n := |rows| - 1;
      if rows[n].until.None? then rows[..n] + [rows[n].(until := Some(now))]
      else CloseOpen(rows[..n], now) + [rows[n]]
  }

  function Enter(rows: seq<Tenure>, e: nat, now: int): seq<Tenure> {
    CloseOpen(rows, now) + [Tenure(e, now, None)]
  }

  /** `_set_membership` for each of `ks`: a member that is already in `e` keeps its row. */
  function Move(s: Store, ks: set<ObjectKey>, e: nat): Store
    requires ks <= s.objects.Keys
  {
    var movers := set k | k in ks && s.objects[k].entity != Some(e);
    s.(objects := map k | k in s.objects ::
                    if k in movers then s.objects[k].(entity := Some(e)) else s.objects[k],
       history := map k | k in s.history.Keys + movers ::
                    if k in movers then Enter(HistoryOf(s, k), e, s.clock) else HistoryOf(s, k))
  }

  function MembersOf(s: Store, e: nat): (ks: set<ObjectKey>)
    ensures ks <= s.objects.Keys
  {
    set k | k in s.objects && In(s, k, e)
  }

  function SetStatus(s: Store, e: nat, status: EntityStatus): Store
    requires e in s.entities
  {
    s.(entities := s.entities[e := s.entities[e].(status := status)])
  }

  /** Mark the open approval task stale; `rows` holds at most one. */
  function StaleOpen(rows: seq<MasterVersion>): (r: seq<MasterVersion>)
    ensures |r| == |rows|
  {
    if rows == [] then []
    else if rows[0].review == Open then [rows[0].(review := Stale)] + rows[1..]
    else [rows[0]] + StaleOpen(rows[1..])
  }

  /** A fresh survivorship computation for an entity. */
  ghost function FreshValues(s: Store, e: nat): Values {
    if e in s.entities && s.entities[e].domain in s.policies then
      MasterValues(s.policies[s.entities[e].domain].survivorship, s.sources, FactsOf(s, e))
    else map[]
  }

  /** `_draft_master`: the next version number, with a new approval task bound to the entity version. */
  function WithDraft(s: Store, e: nat, values: Values): Store
    requires e in s.entities
  {
    s.(versions := s.versions[e := StaleOpen(VersionsOf(s, e)) +
                                  [MasterVersion(false, values, Open, s.entities[e].version)]])
  }

  ghost function Draft(s: Store, e: nat): Store
    requires e in s.entities
  {
    WithDraft(s, e, FreshValues(s, e))
  }

  function Emit(s: Store, event: Event): Store {
    s.(outbox := s.outbox + [event])
  }
}
