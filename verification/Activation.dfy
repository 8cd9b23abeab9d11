/** Configuration changes: simulation, approval against a snapshot, and the remaster job that applies them. */
module Activation {
  import opened Prelude
  import opened Survivorship
  import opened Store
  import opened Steps
  import opened Effects
  import opened Grounding
  import opened Redelivery
  import opened Limits
  import Contradictions
  import Drafts
  import opened PolicyCompiler
  import opened Matcher
  import opened Wiring

  // ---- rows ----

  datatype ObjectMark = ObjectMark(current: Option<RecordKey>, latest: Option<RecordKey>, entity: Option<nat>,
      retired: bool)
  datatype EntityMark = EntityMark(version: nat, status: EntityStatus)

  /** The fingerprint of the data a simulation was made on. It omits source priorities. */
  datatype Snapshot = Snapshot(
    objects: map<ObjectKey, ObjectMark>, entities: map<nat, EntityMark>, cannot: set<set<ObjectKey>>,
    definitions: map<string, Document>)

  datatype ConfigStatus = Drafted | Active | Retired

  /** The document maps domains to definitions; it stands for its own checksum and never changes. */
  datatype Config = Config(status: ConfigStatus, document: map<string, Document>)

  datatype Change = Change(current: Value, proposed: Value)
  type MasterChanges = map<nat, map<string, Change>>

  datatype Simulation = Simulation(config: nat, snapshot: Snapshot, changes: map<string, MasterChanges>)

  datatype ConfigTask = ConfigTask(status: TaskStatus, proposedBy: string, config: nat, simulation: nat,
      checksum: map<string, Document>)

  datatype RemasterJob = RemasterJob(domain: string, checksum: Definition)

  datatype Desk = Desk(
    db: Store, definitions: map<string, Document>, configs: seq<Config>, simulations: seq<Simulation>,
    tasks: seq<ConfigTask>, jobs: seq<RemasterJob>)

  // ---- compiled configurations ----

  predicate Compiles(lib: Library, definitions: map<string, Document>, document: map<string, Document>) {
    && document.Keys <= definitions.Keys
    && forall domain :: domain in document ==> Compile(lib, document[domain]).Ok?
  }

  /** `_configuration_policies` for the domains form. */
  function Canonicals(lib: Library, document: map<string, Document>): map<string, Definition>
    requires forall domain :: domain in document ==> Compile(lib, document[domain]).Ok?
  {
    map domain | domain in document :: Compile(lib, document[domain]).value.document
  }

  // ---- simulation ----

  ghost function SnapshotOf(d: Desk): Snapshot {
    Snapshot(
      map k | k in d.db.objects ::
        ObjectMark(d.db.objects[k].current, d.db.objects[k].latest, d.db.objects[k].entity, d.db.objects[k].retired),
      map e | e in d.db.entities :: EntityMark(d.db.entities[e].version, d.db.entities[e].status),
      d.db.cannot, d.definitions)
  }

  ghost function Mastered(s: Store, policy: Policy, e: nat): Values {
    MasterValues(policy, s.sources, FactsOf(s, e))
  }

  function Changes(before: Values, after: Values): map<string, Change> {
    map key | key in before.Keys + after.Keys && Get(before, key) != Get(after, key) ::
      Change(Get(before, key), Get(after, key))
  }

  /** `master_changes` of `_simulate_policy`: the entities whose values differ, attribute by attribute. */
  ghost function MasterChangesOf(s: Store, domain: string, current: Policy, proposed: Policy): MasterChanges {
    map e | e in LiveIn(s, domain) && Changes(Mastered(s, current, e), Mastered(s, proposed, e)) != map[] ::
      Changes(Mastered(s, current, e), Mastered(s, proposed, e))
  }

  ghost function Simulated(lib: Library, d: Desk, config: nat): Simulation
    requires config < |d.configs| && Compiles(lib, d.definitions, d.configs[config].document)
  {
    var canonicals := Canonicals(lib, d.configs[config].document);
    Simulation(config, SnapshotOf(d),
      map domain | domain in canonicals && domain in d.db.policies ::
        MasterChangesOf(d.db, domain, d.db.policies[domain].survivorship, SurvivorshipOf(canonicals[domain])))
  }

  // ---- the steps ----

  datatype DeskStep =
    | Master(step: Step)
    | CreateConfig(document: map<string, Document>)
    | Simulate(config: nat)
    | Propose(config: nat, simulation: nat, actor: string)
    | Decide(task: nat, approve: bool, actor: string, jobs: seq<RemasterJob>)
    | RunJob(job: RemasterJob)
    | ReplaceSource(source: string, priority: int)

  ghost function SimulateConfig(lib: Library, d: Desk, config: nat): Reply<Desk> {
    if config >= |d.configs| then Abort("configuration_not_found")
    else if !Compiles(lib, d.definitions, d.configs[config].document) then Abort("invalid_configuration")
    else Commit(d.(simulations := d.simulations + [Simulated(lib, d, config)]))
  }

  function CloseTask(t: ConfigTask): ConfigTask {
    if t.status == Open then t.(status := Stale) else t
  }

  ghost function ProposeConfig(d: Desk, config: nat, simulation: nat, actor: string): Reply<Desk> {
    if config >= |d.configs| || d.configs[config].status != Drafted then Abort("configuration_draft_not_found")
    else if simulation >= |d.simulations| || d.simulations[simulation].config != config then
        Abort("matching_simulation_required")
    else if SnapshotOf(d) != d.simulations[simulation].snapshot then Abort("stale_simulation")
    else
      Commit(d.(tasks := seq(|d.tasks|, i requires 0 <= i < |d.tasks| => CloseTask(d.tasks[i])) +
                  [ConfigTask(Open, actor, config, simulation, d.configs[config].document)]))
  }

  /** The configuration becomes active and the previous one is retired; no document changes. */
  function Promoted(configs: seq<Config>, config: nat): (r: seq<Config>)
    ensures |r| == |configs|
    ensures forall i :: 0 <= i < |configs| ==> r[i].document == configs[i].document
    ensures config < |configs| ==> r[config].status == Active
    ensures forall i :: 0 <= i < |configs| && i != config ==> r[i].status != Active
  {
    seq(|configs|, i requires 0 <= i < |configs| =>
      if i == config then configs[i].(status := Active)
      else if configs[i].status == Active then configs[i].(status := Retired) else configs[i])
  }

  /** Activation: the new definitions are the canonical documents, and the service works with them from now on. */
  function Activated(lib: Library, d: Desk, task: nat, config: nat, jobs: seq<RemasterJob>): Desk
    requires task < |d.tasks| && config < |d.configs| && Compiles(lib, d.definitions, d.configs[config].document)
  {
    var canonicals := Canonicals(lib, d.configs[config].document);
    d.(configs := Promoted(d.configs, config),
       definitions := d.definitions + (map domain | domain in canonicals :: Plain(canonicals[domain])),
       db := d.db.(policies := d.db.policies + (map domain | domain in canonicals :: RulesOf(lib, canonicals[domain]))),
       tasks := d.tasks[task := d.tasks[task].(status := Accepted)],
       jobs := d.jobs + jobs)
  }

  /** The jobs of an activation, in the order the documents were listed. */
  ghost predicate JobsOf(lib: Library, document: map<string, Document>, jobs: seq<RemasterJob>)
    requires forall domain :: domain in document ==> Compile(lib, document[domain]).Ok?
  {
    forall job :: job in jobs <==> job.domain in document && job.checksum == Canonicals(lib, document)[job.domain]
  }

  /** `decide_task` on a configuration_approval task. */
  ghost function DecideConfig(lib: Library, d: Desk, task: nat, approve: bool, actor: string,
                              jobs: seq<RemasterJob>): Reply<Desk>
  {
    if task >= |d.tasks| then Abort("task_not_found")
    else
      var t := d.tasks[task];
      if t.status != Open then Abort("task_not_open")
      else if actor == t.proposedBy then Abort("separation_of_duties")
      else if !approve then Commit(d.(tasks := d.tasks[task := t.(status := Rejected)]))
      else if !(t.config < |d.configs| && d.configs[t.config].status == Drafted)
              || !(t.simulation < |d.simulations| && d.simulations[t.simulation].config == t.config)
              || d.configs[t.config].document != t.checksum
      then Abort("configuration_changed")
      else if SnapshotOf(d) != d.simulations[t.simulation].snapshot
      then CommitThenRaise(d.(tasks := d.tasks[task := t.(status := Stale)]), "stale_simulation")
      else if !Compiles(lib, d.definitions, d.configs[t.config].document) then Abort("invalid_configuration")
      else if !JobsOf(lib, d.configs[t.config].document, jobs) then Abort("not_the_activation_jobs")
      else Commit(Activated(lib, d, task, t.config, jobs))
  }

  /** `remaster_domain`: the job checks its checksum against the compiled definition. */
  ghost function RunRemaster(lib: Library, d: Desk, job: RemasterJob): Reply<Desk> {
    if job.domain !in d.definitions then Abort("domain_missing")
    else if Compile(lib, d.definitions[job.domain]).Err? then Abort("invalid_domain_policy")
    else if Compile(lib, d.definitions[job.domain]).value.document != job.checksum then Abort("checksum_stale")
    else
      var r := Remaster(d.db, job.domain);
      if r.Commit? then Commit(d.(db := r.db)) else Abort("domain_missing")
  }

  function WithSources(d: Desk, sources: map<string, int>): Desk {
    d.(db := d.db.(sources := sources))
  }

  /** `replace_source`; the payload is validated first. */
  function ReplacePriority(d: Desk, source: string, priority: int): Reply<Desk> {
    if !(1 <= priority <= 10000) then Abort("unprocessable")
    else if source !in d.db.sources then Abort("source_not_found")
    else Commit(WithSources(d, d.db.sources[source := priority]))
  }

  ghost function NextDesk(lib: Library, d: Desk, step: DeskStep): Desk {
    match step
    case Master(step) => if step.ActivateStep? then d else d.(db := Next(d.db, step))
    case CreateConfig(document) =>
      if Compiles(lib, d.definitions, document) then d.(configs := d.configs + [Config(Drafted, document)]) else d
    case Simulate(config) => After(d, SimulateConfig(lib, d, config))
    case Propose(config, simulation, actor) => After(d, ProposeConfig(d, config, simulation, actor))
    case Decide(task, approve, actor, jobs) => After(d, DecideConfig(lib, d, task, approve, actor, jobs))
    case RunJob(job) => After(d, RunRemaster(lib, d, job))
    case ReplaceSource(source, priority) => After(d, ReplacePriority(d, source, priority))
  }

  ghost function Trace(lib: Library, d: Desk, steps: seq<DeskStep>): Desk
    decreases |steps|
  {
    if steps == [] then d else Trace(lib, NextDesk(lib, d, steps[0]), steps[1..])
  }

  // ---- what holds throughout ----

  /** The service works with the compiled definitions. */
  ghost predicate Wired(lib: Library, d: Desk) {
    && d.definitions.Keys == d.db.policies.Keys
    && forall domain :: domain in d.definitions ==>
         && Compile(lib, d.definitions[domain]).Ok?
         && d.db.policies[domain] == RulesOf(lib, Compile(lib, d.definitions[domain]).value.document)
  }

  ghost predicate Sound(lib: Library, d: Desk) {
    Grounded(d.db) && Wired(lib, d)
  }

  /** Observations keep their facts, entities their domain, configurations their document, simulations everything. */
  ghost predicate Evolves(d: Desk, t: Desk) {
    && KeepsRows(d.db, t.db) && KeepsDomains(d.db, t.db)
    && |d.configs| <= |t.configs|
    && (forall i :: 0 <= i < |d.configs| ==> t.configs[i].document == d.configs[i].document)
    && |d.simulations| <= |t.simulations|
    && (forall i :: 0 <= i < |d.simulations| ==> t.simulations[i] == d.simulations[i])
  }

  lemma EvolvesTrans(d: Desk, t: Desk, u: Desk)
    requires Evolves(d, t) && Evolves(t, u)
    ensures Evolves(d, u)
  {
    KeepsRowsTrans(d.db, t.db, u.db);
  }

  lemma MasterSound(lib: Library, d: Desk, step: Step)
    requires Sound(lib, d) && !step.ActivateStep?
    ensures var t := d.(db := Next(d.db, step)); Sound(lib, t) && Evolves(d, t)
  {
    NextGrounded(d.db, step);
    NextKeepsRecords(d.db, step);
    NextKeepsDomains(d.db, step);
    PoliciesStay(d.db, step);
  }

  lemma PoliciesStay(s: Store, step: Step)
    requires Grounded(s) && !step.ActivateStep?
    ensures Next(s, step).policies == s.policies
  {
    match step
    case ObserveStep(k, item, pick) =>
      ObserveCases(s, k, item, pick);
      ObservePolicies(s, k, item, pick, Attempt(s, step));
    case RemasterStep(domain) => RemasterPolicies(s, domain);
    case _ => Contradictions.DecisionRecords(s, step);
  }

  lemma RemasterPolicies(s: Store, domain: string)
    ensures Next(s, RemasterStep(domain)).policies == s.policies
  {
    if domain in s.policies { assert Remaster(s, domain).db.policies == s.policies; }
  }

  lemma ObservePolicies(s: Store, k: ObjectKey, item: Item, pick: Option<ObjectKey>, r: Reply<Store>)
    requires Grounded(s) && ObserveOutcome(s, k, item, pick, r)
    ensures After(s, r).policies == s.policies
  {
    if r.Commit? && RecordKey(k, item.version) !in s.records {
      ReceivedGrounded(s, k, item);
      SettlesReassigns(Received(s, k, item), k, RecordKey(k, item.version), pick, r.db);
    }
  }

  lemma ActivatedWired(lib: Library, d: Desk, task: nat, config: nat, jobs: seq<RemasterJob>)
    requires Wired(lib, d) && task < |d.tasks| && config < |d.configs| &&
        Compiles(lib, d.definitions, d.configs[config].document)
    ensures Wired(lib, Activated(lib, d, task, config, jobs))
  {
    var t := Activated(lib, d, task, config, jobs);
    var document := d.configs[config].document;
    forall domain | domain in t.definitions
      ensures Compile(lib, t.definitions[domain]).Ok?
      ensures t.db.policies[domain] == RulesOf(lib, Compile(lib, t.definitions[domain]).value.document)
    {
      if domain in document {
        ActivatedDomain(lib, d, task, config, jobs, domain);
        CompileIsIdempotent(lib, document[domain]);
      } else {
        ActivatedElsewhere(lib, d, task, config, jobs, domain);
      }
    }
  }

  lemma ActivatedElsewhere(lib: Library, d: Desk, task: nat, config: nat, jobs: seq<RemasterJob>, domain: string)
    requires task < |d.tasks| && config < |d.configs| && Compiles(lib, d.definitions, d.configs[config].document)
    requires domain !in d.configs[config].document && domain in d.definitions && domain in d.db.policies
    ensures var t := Activated(lib, d, task, config, jobs);
      && domain in t.definitions && t.definitions[domain] == d.definitions[domain]
      && domain in t.db.policies && t.db.policies[domain] == d.db.policies[domain]
  {
  }

  /** Only the policies of known domains change. */
  lemma NewPoliciesKept(s: Store, policies: map<string, Rules>)
    requires Grounded(s) && policies.Keys == s.policies.Keys
    ensures var t := s.(policies := policies); Grounded(t) && KeepsRows(s, t) && KeepsDomains(s, t)
  {
    AsideGrounded(s, s.(policies := policies));
  }

  lemma MergedPolicies(lib: Library, d: Desk, config: nat)
    requires Wired(lib, d) && config < |d.configs| && Compiles(lib, d.definitions, d.configs[config].document)
    ensures var canonicals := Canonicals(lib, d.configs[config].document);
      (d.db.policies + (map domain | domain in canonicals :: RulesOf(lib, canonicals[domain]))).Keys ==
          d.db.policies.Keys
  {
  }

  lemma ActivatedSound(lib: Library, d: Desk, task: nat, config: nat, jobs: seq<RemasterJob>)
    requires Sound(lib, d) && task < |d.tasks| && config < |d.configs| &&
        Compiles(lib, d.definitions, d.configs[config].document)
    ensures Sound(lib, Activated(lib, d, task, config, jobs)) && Evolves(d, Activated(lib, d, task, config, jobs))
  {
    MergedPolicies(lib, d, config);
    ActivatedWired(lib, d, task, config, jobs);
    PolicySwap(lib, d, Activated(lib, d, task, config, jobs));
  }

  lemma PolicySwap(lib: Library, d: Desk, t: Desk)
    requires Sound(lib, d) && Wired(lib, t)
    requires t.db == d.db.(policies := t.db.policies) && t.db.policies.Keys == d.db.policies.Keys
    requires t.simulations == d.simulations && |t.configs| == |d.configs|
    requires forall i :: 0 <= i < |d.configs| ==> t.configs[i].document == d.configs[i].document
    ensures Sound(lib, t) && Evolves(d, t)
  {
    NewPoliciesKept(d.db, t.db.policies);
  }

  /** How a decision on a configuration can end. */
  ghost predicate ConfigOutcome(lib: Library, d: Desk, task: nat, r: Reply<Desk>, jobs: seq<RemasterJob>) {
    || r.Abort?
    || (!r.Abort? && r.db == d.(tasks := r.db.tasks))
    || (r.Commit? && ConfigHolds(lib, d, task) && JobsOf(lib, d.configs[d.tasks[task].config].document, jobs)
        && r.db == Activated(lib, d, task, d.tasks[task].config, jobs))
  }

  /** What the guards of a committed activation guarantee. */
  ghost predicate ConfigHolds(lib: Library, d: Desk, task: nat) {
    && task < |d.tasks| && d.tasks[task].config < |d.configs| && d.tasks[task].simulation < |d.simulations|
    && d.simulations[d.tasks[task].simulation].config == d.tasks[task].config
    && SnapshotOf(d) == d.simulations[d.tasks[task].simulation].snapshot
    && Compiles(lib, d.definitions, d.configs[d.tasks[task].config].document)
  }

  lemma DecideConfigCases(lib: Library, d: Desk, task: nat, approve: bool, actor: string, jobs: seq<RemasterJob>)
    ensures ConfigOutcome(lib, d, task, DecideConfig(lib, d, task, approve, actor, jobs), jobs)
  {
  }

  lemma DecidedSound(lib: Library, d: Desk, task: nat, r: Reply<Desk>, jobs: seq<RemasterJob>)
    requires Sound(lib, d) && ConfigOutcome(lib, d, task, r, jobs)
    ensures Sound(lib, After(d, r)) && Evolves(d, After(d, r))
  {
    if r.Abort? {
      assert Evolves(d, d);
    } else if r.db == d.(tasks := r.db.tasks) {
      assert Evolves(d, r.db);
    } else {
      ActivatedSound(lib, d, task, d.tasks[task].config, jobs);
    }
  }

  /** What a committed remaster job did. */
  ghost predicate JobOutcome(lib: Library, d: Desk, job: RemasterJob, r: Reply<Desk>) {
    || r.Abort?
    || (job.domain in d.db.policies && r == Commit(d.(db := Next(d.db, RemasterStep(job.domain)))))
  }

  lemma RunRemasterCases(lib: Library, d: Desk, job: RemasterJob)
    ensures JobOutcome(lib, d, job, RunRemaster(lib, d, job))
  {
  }

  lemma JobSound(lib: Library, d: Desk, job: RemasterJob, r: Reply<Desk>)
    requires Sound(lib, d) && JobOutcome(lib, d, job, r)
    ensures Sound(lib, After(d, r)) && Evolves(d, After(d, r))
  {
    if r.Commit? { MasterSound(lib, d, RemasterStep(job.domain)); } else { SameDataSound(lib, d, d); }
  }

  /** Steps on configurations, simulations and tasks alone. */
  lemma SameDataSound(lib: Library, d: Desk, t: Desk)
    requires Sound(lib, d) && t.db == d.db && t.definitions == d.definitions
    requires d.configs <= t.configs && d.simulations <= t.simulations
    ensures Sound(lib, t) && Evolves(d, t)
  {
  }

  ghost predicate Paperwork(d: Desk, t: Desk) {
    t == d.(configs := t.configs, simulations := t.simulations, tasks := t.tasks)
    && d.configs <= t.configs && d.simulations <= t.simulations
  }

  lemma SimulatePaperwork(lib: Library, d: Desk, config: nat)
    ensures Paperwork(d, After(d, SimulateConfig(lib, d, config)))
  {
    var r := SimulateConfig(lib, d, config);
    if r.Commit? { assert Paperwork(d, r.db); }
  }

  lemma ProposePaperwork(d: Desk, config: nat, simulation: nat, actor: string)
    ensures Paperwork(d, After(d, ProposeConfig(d, config, simulation, actor)))
  {
    var r := ProposeConfig(d, config, simulation, actor);
    if r.Commit? { assert Paperwork(d, r.db); }
  }

  lemma PaperworkSound(lib: Library, d: Desk, t: Desk)
    requires Sound(lib, d) && Paperwork(d, t)
    ensures Sound(lib, t) && Evolves(d, t)
  {
    SameDataSound(lib, d, t);
  }

  lemma NewSourcesKept(s: Store, sources: map<string, int>)
    requires Grounded(s)
    ensures var t := s.(sources := sources); Grounded(t) && KeepsRows(s, t) && KeepsDomains(s, t)
  {
    AsideGrounded(s, s.(sources := sources));
  }

  /** Only the table of sources differs. */
  lemma ReplacedSound(lib: Library, d: Desk, t: Desk)
    requires Sound(lib, d) && t == WithSources(d, t.db.sources)
    ensures Sound(lib, t) && Evolves(d, t)
  {
    NewSourcesKept(d.db, t.db.sources);
    assert Wired(lib, t);
  }

  lemma PaperSound(lib: Library, d: Desk, step: DeskStep)
    requires Sound(lib, d) && (step.CreateConfig? || step.Simulate? || step.Propose?)
    ensures Sound(lib, NextDesk(lib, d, step)) && Evolves(d, NextDesk(lib, d, step))
  {
    match step
    case CreateConfig(document) => PaperworkSound(lib, d, NextDesk(lib, d, step));
    case Simulate(config) => SimulatePaperwork(lib, d, config); PaperworkSound(lib, d, NextDesk(lib, d, step));
    case Propose(config, simulation, actor) =>
      ProposePaperwork(d, config, simulation, actor);
      PaperworkSound(lib, d, NextDesk(lib, d, step));
  }

  lemma DecideSound(lib: Library, d: Desk, task: nat, approve: bool, actor: string, jobs: seq<RemasterJob>)
    requires Sound(lib, d)
    ensures var t := After(d, DecideConfig(lib, d, task, approve, actor, jobs)); Sound(lib, t) && Evolves(d, t)
  {
    DecideConfigCases(lib, d, task, approve, actor, jobs);
    DecidedSound(lib, d, task, DecideConfig(lib, d, task, approve, actor, jobs), jobs);
  }

  lemma RunJobSound(lib: Library, d: Desk, job: RemasterJob)
    requires Sound(lib, d)
    ensures var t := After(d, RunRemaster(lib, d, job)); Sound(lib, t) && Evolves(d, t)
  {
    RunRemasterCases(lib, d, job);
    JobSound(lib, d, job, RunRemaster(lib, d, job));
  }

  lemma NextSound(lib: Library, d: Desk, step: DeskStep)
    requires Sound(lib, d)
    ensures Sound(lib, NextDesk(lib, d, step)) && Evolves(d, NextDesk(lib, d, step))
  {
    match step
    case Master(inner) => if inner.ActivateStep? { SameDataSound(lib, d, d); } else { MasterSound(lib, d, inner); }
    case Decide(task, approve, actor, jobs) => DecideSound(lib, d, task, approve, actor, jobs);
    case RunJob(job) => RunJobSound(lib, d, job);
    case ReplaceSource(_, _) => ReplacedSound(lib, d, NextDesk(lib, d, step));
    case _ => PaperSound(lib, d, step);
  }

  lemma {:induction false} TraceSound(lib: Library, d: Desk, steps: seq<DeskStep>)
    requires Sound(lib, d)
    ensures Sound(lib, Trace(lib, d, steps)) && Evolves(d, Trace(lib, d, steps))
    decreases |steps|
  {
    if steps == [] {
      assert Evolves(d, d);
    } else {
      NextSound(lib, d, steps[0]);
      TraceSound(lib, NextDesk(lib, d, steps[0]), steps[1..]);
      EvolvesTrans(d, NextDesk(lib, d, steps[0]), Trace(lib, d, steps));
    }
  }

  // ---- equal snapshots mean equal contributions ----

  lemma SnapshotFixesFacts(d: Desk, t: Desk, e: nat)
    requires Grounded(d.db) && Grounded(t.db) && KeepsRows(d.db, t.db) && SnapshotOf(d) == SnapshotOf(t)
    ensures FactsOf(t.db, e) == FactsOf(d.db, e)
  {
    var a, b := SnapshotOf(d).objects, SnapshotOf(t).objects;
    assert forall k :: k in d.db.objects <==> k in a;
    assert forall k :: k in t.db.objects <==> k in b;
    forall k ensures k in Contributors(t.db, e) <==> k in Contributors(d.db, e) { SameMark(d, t, k, e); }
    forall k | k in Contributors(d.db, e) ensures CurrentRecord(t.db, k).facts == CurrentRecord(d.db, k).facts {
      SameMark(d, t, k, e);
    }
  }

  lemma SameMark(d: Desk, t: Desk, k: ObjectKey, e: nat)
    requires Grounded(d.db) && Grounded(t.db) && KeepsRows(d.db, t.db) && SnapshotOf(d) == SnapshotOf(t)
    ensures k in Contributors(t.db, e) <==> k in Contributors(d.db, e)
    ensures k in Contributors(d.db, e) ==> CurrentRecord(t.db, k).facts == CurrentRecord(d.db, k).facts
  {
    assert k in d.db.objects <==> k in SnapshotOf(d).objects;
    assert k in t.db.objects <==> k in SnapshotOf(t).objects;
    if k in d.db.objects {
      assert SnapshotOf(d).objects[k] == SnapshotOf(t).objects[k];
      assert t.db.objects[k].current == d.db.objects[k].current && t.db.objects[k].entity == d.db.objects[k].entity;
      assert d.db.objects[k].current.Some? ==> IsCurrent(d.db, k) && IsCurrent(t.db, k);
    }
  }

  lemma SnapshotFixesLive(d: Desk, t: Desk, domain: string)
    requires KeepsDomains(d.db, t.db) && SnapshotOf(d) == SnapshotOf(t)
    ensures LiveIn(t.db, domain) == LiveIn(d.db, domain)
  {
    forall e ensures e in LiveIn(t.db, domain) <==> e in LiveIn(d.db, domain) {
      assert e in d.db.entities <==> e in SnapshotOf(d).entities;
      assert e in t.db.entities <==> e in SnapshotOf(t).entities;
      if e in d.db.entities { assert SnapshotOf(d).entities[e] == SnapshotOf(t).entities[e]; }
    }
  }

  // ---- between the approval and the job ----

  /** The domain works with the approved definition on the data of `s0`. */
  ghost predicate Primed(lib: Library, d: Desk, domain: string, canonical: Definition, s0: Store) {
    Employs(lib, d.definitions, d.db.policies, domain, canonical) && DataOf(d.db, domain, s0)
  }

  ghost predicate Employs(lib: Library, definitions: map<string, Document>, policies: map<string, Rules>,
                          domain: string, canonical: Definition)
  {
    && domain in definitions && definitions[domain] == Plain(canonical)
    && Compile(lib, Plain(canonical)).Ok? && Compile(lib, Plain(canonical)).value.document == canonical
    && domain in policies && policies[domain] == RulesOf(lib, canonical)
  }

  /** The domain has the live entities and contributions of `s0`. */
  ghost predicate DataOf(s: Store, domain: string, s0: Store) {
    && LiveIn(s, domain) == LiveIn(s0, domain)
    && forall e :: e in LiveIn(s0, domain) ==> FactsOf(s, e) == FactsOf(s0, e)
  }

  lemma RemasterFacts(s: Store, domain: string, e: nat)
    requires domain in s.policies
    ensures FactsOf(Remaster(s, domain).db, e) == FactsOf(s, e)
  {
    Drafts.ReindexFacts(s, domain, e);
    Drafts.RefreshAllFacts(Reindex(s, domain), LiveIn(s, domain), e);
  }

  lemma RemasterKeepsData(s: Store, rebuilt: string, domain: string)
    requires rebuilt in s.policies
    ensures var t := Remaster(s, rebuilt).db;
      && LiveIn(t, domain) == LiveIn(s, domain) && t.policies == s.policies && t.sources == s.sources
      && forall e :: FactsOf(t, e) == FactsOf(s, e)
  {
    forall e ensures FactsOf(Remaster(s, rebuilt).db, e) == FactsOf(s, e) { RemasterFacts(s, rebuilt, e); }
    assert LiveIn(Remaster(s, rebuilt).db, domain) == LiveIn(s, domain);
  }

  /** Jobs and replaced sources: what may happen while the domain's job waits. */
  predicate Waiting(step: DeskStep) {
    step.RunJob? || step.ReplaceSource?
  }

  lemma SourcesAside(s: Store, t: Store, domain: string)
    requires t == s.(sources := t.sources)
    ensures LiveIn(t, domain) == LiveIn(s, domain) && forall e :: FactsOf(t, e) == FactsOf(s, e)
  {
    forall e ensures FactsOf(t, e) == FactsOf(s, e) {
      assert Contributors(t, e) == Contributors(s, e);
      assert forall k :: k in Contributors(s, e) ==> CurrentRecord(t, k) == CurrentRecord(s, k);
    }
  }

  /** What a waiting step leaves alone. */
  ghost predicate WaitOutcome(d: Desk, t: Desk, domain: string) {
    && t.definitions == d.definitions && t.db.policies == d.db.policies
    && DataOf(t.db, domain, d.db)
  }

  lemma JobWaits(lib: Library, d: Desk, job: RemasterJob, domain: string)
    ensures WaitOutcome(d, After(d, RunRemaster(lib, d, job)), domain)
  {
    if job.domain in d.db.policies { RemasterKeepsData(d.db, job.domain, domain); }
  }

  lemma ReplacementWaits(d: Desk, source: string, priority: int, domain: string)
    ensures WaitOutcome(d, After(d, ReplacePriority(d, source, priority)), domain)
  {
    SourcesAside(d.db, After(d, ReplacePriority(d, source, priority)).db, domain);
  }

  lemma WaitCases(lib: Library, d: Desk, step: DeskStep, domain: string)
    requires Waiting(step)
    ensures WaitOutcome(d, NextDesk(lib, d, step), domain)
  {
    match step
    case RunJob(job) => JobWaits(lib, d, job, domain);
    case ReplaceSource(source, priority) => ReplacementWaits(d, source, priority, domain);
  }

  lemma WaitKeepsPrimed(lib: Library, d: Desk, t: Desk, domain: string, canonical: Definition, s0: Store)
    requires Primed(lib, d, domain, canonical, s0) && WaitOutcome(d, t, domain)
    ensures Primed(lib, t, domain, canonical, s0)
  {
    assert DataOf(t.db, domain, s0);
  }

  lemma {:induction false} WaitingKeepsPrimed(lib: Library, d: Desk, steps: seq<DeskStep>,
                                              domain: string, canonical: Definition, s0: Store)
    requires Primed(lib, d, domain, canonical, s0) && (forall i :: 0 <= i < |steps| ==> Waiting(steps[i]))
    ensures Primed(lib, Trace(lib, d, steps), domain, canonical, s0)
    decreases |steps|
  {
    if steps != [] {
      WaitCases(lib, d, steps[0], domain);
      WaitKeepsPrimed(lib, d, NextDesk(lib, d, steps[0]), domain, canonical, s0);
      WaitingKeepsPrimed(lib, NextDesk(lib, d, steps[0]), steps[1..], domain, canonical, s0);
    }
  }

  /** The latest master version of an entity. */
  ghost function Latest(s: Store, e: nat): Values {
    var rows := VersionsOf(s, e);
    if rows == [] then map[] else rows[|rows| - 1].values
  }

  /** A remaster drafts every live entity of the domain from its contributions. */
  lemma RemasterDrafts(s: Store, domain: string, e: nat)
    requires domain in s.policies && e in LiveIn(s, domain)
    ensures Latest(Remaster(s, domain).db, e) ==
      MasterValues(s.policies[domain].survivorship, s.sources, FactsOf(s, e))
  {
    var x := Reindex(s, domain);
    Drafts.ReindexFacts(s, domain, e);
    RefreshedLatest(x, LiveIn(s, domain), e);
  }

  lemma RefreshedLatest(s: Store, es: set<nat>, e: nat)
    requires e in es && es <= s.entities.Keys
    ensures Latest(RefreshAll(s, es), e) == FreshValues(s, e)
  {
  }

  /** On a primed domain the job passes its checksum test and drafts every live entity by the approved definition, the
      contributions of `s0` and the priorities of the moment. */
  lemma PrimedJob(lib: Library, d: Desk, domain: string, canonical: Definition, s0: Store, e: nat)
    requires Primed(lib, d, domain, canonical, s0) && e in LiveIn(s0, domain)
    ensures RunRemaster(lib, d, RemasterJob(domain, canonical)).Commit?
    ensures Latest(RunRemaster(lib, d, RemasterJob(domain, canonical)).db.db, e) ==
      MasterValues(SurvivorshipOf(canonical), d.db.sources, FactsOf(s0, e))
  {
    var job := RemasterJob(domain, canonical);
    assert e in LiveIn(d.db, domain);
    RemasterDrafts(d.db, domain, e);
    assert RunRemaster(lib, d, job) == Commit(d.(db := Remaster(d.db, domain).db));
  }

  lemma ActivatedPrimed(lib: Library, d0: Desk, d: Desk, task: nat, config: nat, jobs: seq<RemasterJob>, domain: string)
    requires Sound(lib, d0) && Sound(lib, d) && Evolves(d0, d) && SnapshotOf(d) == SnapshotOf(d0)
    requires task < |d.tasks| && config < |d.configs| && Compiles(lib, d.definitions, d.configs[config].document)
    requires domain in d.configs[config].document
    ensures Primed(lib, Activated(lib, d, task, config, jobs), domain,
              Compile(lib, d.configs[config].document[domain]).value.document, d0.db)
  {
    var canonical := Compile(lib, d.configs[config].document[domain]).value.document;
    CompileIsIdempotent(lib, d.configs[config].document[domain]);
    ActivatedDomain(lib, d, task, config, jobs, domain);
    PrimedBy(lib, d0, d, Activated(lib, d, task, config, jobs), domain, canonical);
  }

  lemma ActivatedDomain(lib: Library, d: Desk, task: nat, config: nat, jobs: seq<RemasterJob>, domain: string)
    requires task < |d.tasks| && config < |d.configs| && Compiles(lib, d.definitions, d.configs[config].document)
    requires domain in d.configs[config].document
    ensures var t := Activated(lib, d, task, config, jobs);
      var canonical := Compile(lib, d.configs[config].document[domain]).value.document;
      && t.db == d.db.(policies := t.db.policies)
      && domain in t.definitions && t.definitions[domain] == Plain(canonical)
      && domain in t.db.policies && t.db.policies[domain] == RulesOf(lib, canonical)
  {
    var canonicals := Canonicals(lib, d.configs[config].document);
    assert canonicals[domain] == Compile(lib, d.configs[config].document[domain]).value.document;
  }

  lemma PrimedBy(lib: Library, d0: Desk, d: Desk, t: Desk, domain: string, canonical: Definition)
    requires Grounded(d0.db) && Grounded(d.db) && Evolves(d0, d) && SnapshotOf(d) == SnapshotOf(d0)
    requires t.db == d.db.(policies := t.db.policies)
    requires domain in t.definitions && t.definitions[domain] == Plain(canonical)
    requires Compile(lib, Plain(canonical)).Ok? && Compile(lib, Plain(canonical)).value.document == canonical
    requires domain in t.db.policies && t.db.policies[domain] == RulesOf(lib, canonical)
    ensures Primed(lib, t, domain, canonical, d0.db)
  {
    SnapshotFixesLive(d0, d, domain);
    assert LiveIn(t.db, domain) == LiveIn(d.db, domain);
    forall e | e in LiveIn(d0.db, domain) ensures FactsOf(t.db, e) == FactsOf(d0.db, e) {
      SnapshotFixesFacts(d0, d, e);
      FactsIgnorePolicies(d.db, t.db.policies, e);
    }
  }

  lemma FactsIgnorePolicies(s: Store, policies: map<string, Rules>, e: nat)
    ensures FactsOf(s.(policies := policies), e) == FactsOf(s, e)
  {
    var t := s.(policies := policies);
    assert forall k :: IsCurrent(t, k) <==> IsCurrent(s, k);
    assert Contributors(t, e) == Contributors(s, e);
    assert forall k :: k in Contributors(s, e) ==> CurrentRecord(t, k) == CurrentRecord(s, k);
  }

  // ---- main result ----

  /** What the simulation predicts for an attribute: the proposed value where it lists a change, the current value
      elsewhere. */
  ghost function Predicted(sim: Simulation, domain: string, e: nat, before: Values, key: string): Value {
    if domain in sim.changes && e in sim.changes[domain] && key in sim.changes[domain][e]
    then sim.changes[domain][e][key].proposed else Get(before, key)
  }

  lemma ChangesPredict(before: Values, after: Values, key: string)
    ensures Get(after, key) == if key in Changes(before, after) then Changes(before, after)[key].proposed
        else Get(before, key)
  {
  }

  /** Mastered values hold no nulls, so equal look-ups mean equal values. */
  lemma NoChangesMeanEqual(before: Values, after: Values)
    requires (forall key :: key in before ==> before[key] != Null) &&
        (forall key :: key in after ==> after[key] != Null)
    ensures Changes(before, after) == map[] <==> before == after
  {
    if Changes(before, after) == map[] {
      forall key ensures key in before <==> key in after {
        assert key !in Changes(before, after);
        assert key in before.Keys + after.Keys <==> key in before || key in after;
      }
      forall key | key in before ensures before[key] == after[key] { assert key !in Changes(before, after); }
    }
  }

  lemma SimulationPredicts(lib: Library, d: Desk, config: nat, domain: string, e: nat, key: string)
    requires Sound(lib, d) && config < |d.configs| && Compiles(lib, d.definitions, d.configs[config].document)
    requires domain in d.configs[config].document && e in LiveIn(d.db, domain)
    ensures var sim := Simulated(lib, d, config);
      var before := Mastered(d.db, d.db.policies[domain].survivorship, e);
      var after := Mastered(d.db, SurvivorshipOf(Compile(lib, d.configs[config].document[domain]).value.document), e);
      && Get(after, key) == Predicted(sim, domain, e, before, key)
      && domain in sim.changes && (e !in sim.changes[domain] <==> after == before)
  {
    var canonical := Compile(lib, d.configs[config].document[domain]).value.document;
    var current, proposed := d.db.policies[domain].survivorship, SurvivorshipOf(canonical);
    SimulatedChanges(lib, d, config, domain);
    ListedChangesPredict(d.db, domain, current, proposed, Simulated(lib, d, config), e, key);
  }

  lemma ListedChangesPredict(s: Store, domain: string, current: Policy, proposed: Policy, sim: Simulation, e: nat,
                             key: string)
    requires domain in sim.changes && sim.changes[domain] == MasterChangesOf(s, domain, current, proposed) &&
        e in LiveIn(s, domain)
    ensures Get(Mastered(s, proposed, e), key) == Predicted(sim, domain, e, Mastered(s, current, e), key)
    ensures e !in sim.changes[domain] <==> Mastered(s, proposed, e) == Mastered(s, current, e)
  {
    var before, after := Mastered(s, current, e), Mastered(s, proposed, e);
    ChangesPredict(before, after, key);
    NoChangesMeanEqual(before, after);
  }

  lemma SimulatedChanges(lib: Library, d: Desk, config: nat, domain: string)
    requires Wired(lib, d) && config < |d.configs| && Compiles(lib, d.definitions, d.configs[config].document)
    requires domain in d.configs[config].document
    ensures domain in Simulated(lib, d, config).changes
    ensures Simulated(lib, d, config).changes[domain] == MasterChangesOf(d.db, domain,
        d.db.policies[domain].survivorship,
      SurvivorshipOf(Compile(lib, d.configs[config].document[domain]).value.document))
  {
    var canonicals := Canonicals(lib, d.configs[config].document);
    assert canonicals[domain] == Compile(lib, d.configs[config].document[domain]).value.document;
  }

  /** A simulation is made, anything whatever happens, an approval of it commits, then jobs run and sources are
      replaced, and the domain's own job comes. */
  ghost predicate Rollout(lib: Library, d: Desk, config: nat, between: seq<DeskStep>, task: nat, actor: string,
                          jobs: seq<RemasterJob>, waiting: seq<DeskStep>, domain: string)
  {
    && Sound(lib, d) && SimulateConfig(lib, d, config).Commit?
    && config < |d.configs| && domain in d.configs[config].document
    && Approves(lib, d, Trace(lib, SimulateConfig(lib, d, config).db, between), config, task, actor, jobs)
    && forall i :: 0 <= i < |waiting| ==> Waiting(waiting[i])
  }

  /** The approval of the simulation that `d` makes next commits. */
  ghost predicate Approves(lib: Library, d: Desk, d2: Desk, config: nat, task: nat, actor: string,
                           jobs: seq<RemasterJob>)
  {
    && task < |d2.tasks| && d2.tasks[task].config == config && d2.tasks[task].simulation == |d.simulations|
    && DecideConfig(lib, d2, task, true, actor, jobs).Commit?
  }

  /** The state in which the domain's job starts. */
  ghost function JobStart(lib: Library, d: Desk, config: nat, between: seq<DeskStep>, task: nat, actor: string,
                          jobs: seq<RemasterJob>, waiting: seq<DeskStep>, domain: string): Desk
    requires Rollout(lib, d, config, between, task, actor, jobs, waiting, domain)
  {
    Trace(lib, DecideConfig(lib, Trace(lib, SimulateConfig(lib, d, config).db, between), task, true, actor, jobs).db,
        waiting)
  }

  function ProposedBy(lib: Library, d: Desk, config: nat, domain: string): Definition
    requires config < |d.configs| && domain in d.configs[config].document
    requires Compile(lib, d.configs[config].document[domain]).Ok?
  {
    Compile(lib, d.configs[config].document[domain]).value.document
  }

  lemma RolloutPrimes(lib: Library, d: Desk, config: nat, between: seq<DeskStep>, task: nat, actor: string,
                      jobs: seq<RemasterJob>, waiting: seq<DeskStep>, domain: string)
    requires Rollout(lib, d, config, between, task, actor, jobs, waiting, domain)
    ensures Compiles(lib, d.definitions, d.configs[config].document)
    ensures RemasterJob(domain, ProposedBy(lib, d, config, domain)) in jobs
    ensures Primed(lib, JobStart(lib, d, config, between, task, actor, jobs, waiting, domain), domain,
              ProposedBy(lib, d, config, domain), d.db)
  {
    var d1 := SimulateConfig(lib, d, config).db;
    var d2 := Trace(lib, d1, between);
    SimulatePaperwork(lib, d, config);
    PaperworkSound(lib, d, d1);
    TraceSound(lib, d1, between);
    EvolvesTrans(d, d1, d2);
    ApprovedPrimes(lib, d, d1, d2, config, task, actor, jobs, domain);
    WaitingKeepsPrimed(lib, DecideConfig(lib, d2, task, true, actor, jobs).db, waiting, domain,
                       ProposedBy(lib, d, config, domain), d.db);
  }

  lemma ApprovedPrimes(lib: Library, d: Desk, d1: Desk, d2: Desk, config: nat, task: nat, actor: string,
                       jobs: seq<RemasterJob>, domain: string)
    requires Sound(lib, d) && Sound(lib, d2) && SimulateConfig(lib, d, config) == Commit(d1)
    requires Evolves(d, d2) && Evolves(d1, d2) && Approves(lib, d, d2, config, task, actor, jobs)
    requires domain in d.configs[config].document
    ensures RemasterJob(domain, ProposedBy(lib, d, config, domain)) in jobs
    ensures Primed(lib, DecideConfig(lib, d2, task, true, actor, jobs).db, domain, ProposedBy(lib, d, config, domain),
        d.db)
  {
    Approved(lib, d, d1, d2, config, task, actor, jobs);
    ActivatedPrimed(lib, d, d2, task, config, jobs, domain);
  }

  /** The job passes its checksum test, and every entity that was live at the simulation ends with the values of the
      simulated definition on the simulated data, under the source priorities of the moment the job runs. */
  lemma RolloutDrafts(lib: Library, d: Desk, config: nat, between: seq<DeskStep>, task: nat, actor: string,
                      jobs: seq<RemasterJob>, waiting: seq<DeskStep>, domain: string, e: nat)
    requires Rollout(lib, d, config, between, task, actor, jobs, waiting, domain) && e in LiveIn(d.db, domain)
    ensures Compiles(lib, d.definitions, d.configs[config].document)
    ensures var d4 := JobStart(lib, d, config, between, task, actor, jobs, waiting, domain);
      var job := RemasterJob(domain, ProposedBy(lib, d, config, domain));
      && job in jobs && RunRemaster(lib, d4, job).Commit?
      && Latest(RunRemaster(lib, d4, job).db.db, e) ==
           MasterValues(SurvivorshipOf(job.checksum), d4.db.sources, FactsOf(d.db, e))
  {
    RolloutPrimes(lib, d, config, between, task, actor, jobs, waiting, domain);
    PrimedJob(lib, JobStart(lib, d, config, between, task, actor, jobs, waiting, domain), domain,
              ProposedBy(lib, d, config, domain), d.db, e);
  }

  /** The entity ends with exactly the predicted values. */
  ghost predicate AsPredicted(lib: Library, d: Desk, config: nat, domain: string, e: nat, values: Values)
    requires Sound(lib, d) && config < |d.configs| && Compiles(lib, d.definitions, d.configs[config].document)
    requires domain in d.definitions
  {
    var before := Mastered(d.db, d.db.policies[domain].survivorship, e);
    forall key :: Get(values, key) == Predicted(Simulated(lib, d, config), domain, e, before, key)
  }

  /** The fingerprint omits source priorities. If they are as they were at the simulation, or merely order the sources
      of the contributions as they did, the job leaves exactly the predicted values: unchanged ones for an entity that
      the simulation does not list. */
  lemma RemasterMatchesSimulation(lib: Library, d: Desk, config: nat, between: seq<DeskStep>, task: nat, actor: string,
                                  jobs: seq<RemasterJob>, waiting: seq<DeskStep>, domain: string, e: nat)
    requires Rollout(lib, d, config, between, task, actor, jobs, waiting, domain) && e in LiveIn(d.db, domain)
    requires var d4 := JobStart(lib, d, config, between, task, actor, jobs, waiting, domain);
      d4.db.sources == d.db.sources ||
      (Positive(d.db.sources) && Positive(d4.db.sources) && OrderedAlike(d.db.sources, d4.db.sources, FactsOf(d.db, e)))
    ensures Compiles(lib, d.definitions, d.configs[config].document)
    ensures var d4 := JobStart(lib, d, config, between, task, actor, jobs, waiting, domain);
      var job := RemasterJob(domain, ProposedBy(lib, d, config, domain));
      && job in jobs && RunRemaster(lib, d4, job).Commit?
      && AsPredicted(lib, d, config, domain, e, Latest(RunRemaster(lib, d4, job).db.db, e))
      && (e !in Simulated(lib, d, config).changes[domain] ==>
            Latest(RunRemaster(lib, d4, job).db.db, e) == Mastered(d.db, d.db.policies[domain].survivorship, e))
  {
    var d4 := JobStart(lib, d, config, between, task, actor, jobs, waiting, domain);
    var canonical := Compile(lib, d.configs[config].document[domain]).value.document;
    RolloutDrafts(lib, d, config, between, task, actor, jobs, waiting, domain, e);
    FactsHaveDistinctUids(d.db, e);
    if d4.db.sources != d.db.sources {
      OrderDecides(SurvivorshipOf(canonical), d.db.sources, d4.db.sources, FactsOf(d.db, e));
    }
    PredictedIff(lib, d, config, domain, e, Mastered(d.db, SurvivorshipOf(canonical), e));
  }

  /** Whatever happened to the priorities, the prediction comes true exactly when no attribute of the entity goes to a
      contribution with another value under the new priorities. */
  lemma PredictionHoldsIff(lib: Library, d: Desk, config: nat, between: seq<DeskStep>, task: nat, actor: string,
                           jobs: seq<RemasterJob>, waiting: seq<DeskStep>, domain: string, e: nat)
    requires Rollout(lib, d, config, between, task, actor, jobs, waiting, domain) && e in LiveIn(d.db, domain)
    ensures Compiles(lib, d.definitions, d.configs[config].document)
    ensures var d4 := JobStart(lib, d, config, between, task, actor, jobs, waiting, domain);
      var job := RemasterJob(domain, ProposedBy(lib, d, config, domain));
      && RunRemaster(lib, d4, job).Commit?
      && (AsPredicted(lib, d, config, domain, e, Latest(RunRemaster(lib, d4, job).db.db, e)) <==>
          SameWinners(SurvivorshipOf(job.checksum), d.db.sources, d4.db.sources, FactsOf(d.db, e)))
  {
    var d4 := JobStart(lib, d, config, between, task, actor, jobs, waiting, domain);
    var canonical := Compile(lib, d.configs[config].document[domain]).value.document;
    RolloutDrafts(lib, d, config, between, task, actor, jobs, waiting, domain, e);
    FactsHaveDistinctUids(d.db, e);
    ValuesAgreeIff(SurvivorshipOf(canonical), d.db.sources, d4.db.sources, FactsOf(d.db, e));
    PredictedIff(lib, d, config, domain, e,
                 MasterValues(SurvivorshipOf(canonical), d4.db.sources, FactsOf(d.db, e)));
  }

  /** The predicted values are those of the proposed definition on the simulated data. */
  lemma PredictedIff(lib: Library, d: Desk, config: nat, domain: string, e: nat, values: Values)
    requires Sound(lib, d) && config < |d.configs| && Compiles(lib, d.definitions, d.configs[config].document)
    requires domain in d.configs[config].document && e in LiveIn(d.db, domain)
    requires forall key :: key in values ==> values[key] != Null
    ensures var after := Mastered(d.db, SurvivorshipOf(ProposedBy(lib, d, config, domain)), e);
      && (AsPredicted(lib, d, config, domain, e, values) <==> values == after)
      && domain in Simulated(lib, d, config).changes
      && (e !in Simulated(lib, d, config).changes[domain] ==>
            after == Mastered(d.db, d.db.policies[domain].survivorship, e))
  {
    var after := Mastered(d.db, SurvivorshipOf(ProposedBy(lib, d, config, domain)), e);
    var before := Mastered(d.db, d.db.policies[domain].survivorship, e);
    forall key ensures Get(after, key) == Predicted(Simulated(lib, d, config), domain, e, before, key) {
      SimulationPredicts(lib, d, config, domain, e, key);
    }
    SimulationPredicts(lib, d, config, domain, e, "");
    EqualLookups(values, after);
  }

  /** Mastered values hold no nulls, so equal look-ups mean equal values. */
  lemma EqualLookups(x: Values, y: Values)
    requires (forall key :: key in x ==> x[key] != Null) && (forall key :: key in y ==> y[key] != Null)
    ensures x == y <==> forall key :: Get(x, key) == Get(y, key)
  {
    if forall key :: Get(x, key) == Get(y, key) {
      forall key ensures key in x <==> key in y { assert Get(x, key) == Get(y, key); }
      forall key | key in x ensures x[key] == y[key] { assert Get(x, key) == Get(y, key); }
    }
  }

  /** What the simulation saw is still there when its approval commits. */
  lemma ApprovedData(lib: Library, d: Desk, d1: Desk, d2: Desk, config: nat)
    requires config < |d.configs| && Compiles(lib, d.definitions, d.configs[config].document)
    requires d1.simulations == d.simulations + [Simulated(lib, d, config)]
    requires Evolves(d, d2) && Evolves(d1, d2)
    ensures config < |d2.configs| && d2.configs[config].document == d.configs[config].document
    ensures |d.simulations| < |d2.simulations| && d2.simulations[|d.simulations|].snapshot == SnapshotOf(d)
  {
    assert d1.simulations[|d.simulations|] == Simulated(lib, d, config);
  }

  /** The guards of an approval that commits. */
  lemma DecidedActivates(lib: Library, d: Desk, task: nat, actor: string, jobs: seq<RemasterJob>)
    requires DecideConfig(lib, d, task, true, actor, jobs).Commit?
    ensures task < |d.tasks| && d.tasks[task].config < |d.configs| && d.tasks[task].simulation < |d.simulations|
    ensures Compiles(lib, d.definitions, d.configs[d.tasks[task].config].document)
    ensures SnapshotOf(d) == d.simulations[d.tasks[task].simulation].snapshot
    ensures JobsOf(lib, d.configs[d.tasks[task].config].document, jobs)
    ensures DecideConfig(lib, d, task, true, actor, jobs) ==
      Commit(Activated(lib, d, task, d.tasks[task].config, jobs))
  {
  }

  lemma ActivationJobs(lib: Library, document: map<string, Document>, jobs: seq<RemasterJob>)
    requires forall domain :: domain in document ==> Compile(lib, document[domain]).Ok?
    requires JobsOf(lib, document, jobs)
    ensures forall domain :: domain in document ==>
      RemasterJob(domain, Compile(lib, document[domain]).value.document) in jobs
  {
    forall domain | domain in document
      ensures RemasterJob(domain, Compile(lib, document[domain]).value.document) in jobs
    {
      assert Canonicals(lib, document)[domain] == Compile(lib, document[domain]).value.document;
    }
  }

  lemma Approved(lib: Library, d: Desk, d1: Desk, d2: Desk, config: nat, task: nat, actor: string,
                 jobs: seq<RemasterJob>)
    requires SimulateConfig(lib, d, config) == Commit(d1) && Evolves(d, d2) && Evolves(d1, d2)
    requires task < |d2.tasks| && d2.tasks[task].config == config && d2.tasks[task].simulation == |d.simulations|
    requires DecideConfig(lib, d2, task, true, actor, jobs).Commit?
    ensures config < |d2.configs| && d2.configs[config].document == d.configs[config].document
    ensures Compiles(lib, d2.definitions, d2.configs[config].document)
    ensures SnapshotOf(d2) == SnapshotOf(d)
    ensures DecideConfig(lib, d2, task, true, actor, jobs) == Commit(Activated(lib, d2, task, config, jobs))
    ensures forall domain :: domain in d.configs[config].document ==>
      RemasterJob(domain, Compile(lib, d.configs[config].document[domain]).value.document) in jobs
  {
    DecidedActivates(lib, d2, task, actor, jobs);
    ApprovedData(lib, d, d1, d2, config);
    ActivationJobs(lib, d2.configs[config].document, jobs);
  }
}
