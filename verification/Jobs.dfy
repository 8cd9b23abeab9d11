/** The lease and fence protocol of the durable job worker: many workers, crashes, heartbeats,
    expiring leases, cancellation, and a commit guarded by the fence. */
module Jobs {
  import opened Prelude

  const LEASE_SECONDS := 30
  const MAX_ATTEMPTS := 5
  const HANDLERS := {"remaster_domain"}

  datatype JobStatus = Queued | Running | Retry | Complete | Failed | Cancelled

  /** `fence` is the lease version. */
  datatype Job = Job(
    kind: string, created: int, status: JobStatus, attempts: nat, owner: Option<string>,
    fence: nat, expires: Option<int>, cancel: bool, error: Option<string>)

  predicate Terminal(job: Job) {
    job.status in {Complete, Failed, Cancelled}
  }

  function NewJob(kind: string, created: int): Job {
    Job(kind, created, Queued, 0, None, 0, None, false, None)
  }

  // ---- the row updates ----

  predicate Claimable(job: Job, now: int) {
    job.status in {Queued, Retry, Running} && (job.expires.None? || job.expires.value < now)
  }

  function Released(job: Job, status: JobStatus): Job {
    job.(status := status, owner := None, expires := None)
  }

  function Claimed(job: Job, worker: string, now: int): Job {
    if job.cancel then Released(job, Cancelled)
    else job.(status := Running, owner := Some(worker), fence := job.fence + 1,
              expires := Some(now + LEASE_SECONDS), attempts := job.attempts + 1)
  }

  /** The row still belongs to this worker generation. */
  predicate Holds(job: Job, worker: string, fence: nat) {
    job.owner == Some(worker) && job.fence == fence
  }

  predicate Renewable(job: Job, worker: string, fence: nat) {
    Holds(job, worker, fence) && job.status == Running && !job.cancel
  }

  function Renewed(job: Job, now: int): Job {
    job.(expires := Some(now + LEASE_SECONDS))
  }

  function Refused(job: Job, error: string): Job {
    Released(job, if job.attempts >= MAX_ATTEMPTS then Failed else Retry).(error := Some(error))
  }

  // ---- the pool: job rows, running handlers, and what they committed ----

  datatype Phase = Starting | Working | Raised

  /** A worker between its claim and the end of `run_once`. */
  datatype Execution = Execution(job: string, worker: string, fence: nat, phase: Phase, lost: bool)

  /** `effects` lists, job by job, the fences whose handler transaction committed. */
  datatype Pool = Pool(jobs: map<string, Job>, live: map<nat, Execution>, effects: map<string, seq<nat>>, clock: int)

  function EffectsOf(p: Pool, id: string): seq<nat> {
    if id in p.effects then p.effects[id] else []
  }

  datatype Step =
    | Tick(elapsed: nat)
    | Enqueue(id: string, kind: string)
    | Claim(id: string, worker: string, x: nat)
    | Begin(x: nat)
    | Beat(x: nat)
    | Raise(x: nat)
    | Finish(x: nat)
    | Settle(x: nat)
    | Crash(x: nat)
    | Cancel(id: string)

  function Put(p: Pool, id: string, job: Job): Pool {
    p.(jobs := p.jobs[id := job])
  }

  function End(p: Pool, x: nat): Pool {
    p.(live := p.live - {x})
  }

  function Enter(p: Pool, x: nat, e: Execution): Pool {
    p.(live := p.live[x := e])
  }

  /** One committed transaction, or one event of the environment. A step that does not apply changes nothing. */
  function Next(p: Pool, step: Step): Pool {
    match step
    case Tick(elapsed) => p.(clock := p.clock + elapsed)
    case Enqueue(id, kind) => if id in p.jobs then p else Put(p, id, NewJob(kind, p.clock))
    case Cancel(id) =>
      if id !in p.jobs || Terminal(p.jobs[id]) then p else Put(p, id, p.jobs[id].(cancel := true))
    case Claim(id, worker, x) =>
      if id !in p.jobs || x in p.live || !Claimable(p.jobs[id], p.clock) then p
      else
        var job := Claimed(p.jobs[id], worker, p.clock);
        if p.jobs[id].cancel then Put(p, id, job)
        else Enter(Put(p, id, job), x, Execution(id, worker, job.fence, Starting, false))
    case Crash(x) => End(p, x)
    case _ => if step.x !in p.live || p.live[step.x].job !in p.jobs then p else Work(p, step, p.live[step.x])
  }

  /** The steps of one execution. */
  function Work(p: Pool, step: Step, e: Execution): Pool
    requires step.Begin? || step.Beat? || step.Raise? || step.Finish? || step.Settle?
    requires e.job in p.jobs
  {
    var job := p.jobs[e.job];
    match step
    case Begin(x) =>
      if e.phase != Starting then p
      else if !Holds(job, e.worker, e.fence) then End(p, x)
      else if job.cancel then End(Put(p, e.job, Released(job, Cancelled)), x)
      else if job.kind !in HANDLERS then
        End(Put(p, e.job, Released(job, Failed).(error := Some("unknown_job_kind"))), x)
      else Enter(p, x, e.(phase := Working))
    case Beat(x) =>
      if Renewable(job, e.worker, e.fence) then Put(p, e.job, Renewed(job, p.clock))
      else Enter(p, x, e.(lost := true))
    case Raise(x) => Enter(p, x, e.(phase := Raised))
    case Finish(x) =>
      if e.phase != Working then p
      else if e.lost || !Holds(job, e.worker, e.fence) || job.cancel then Enter(p, x, e.(phase := Raised))
      else
        End(Put(p.(effects := p.effects[e.job := EffectsOf(p, e.job) + [e.fence]]),
                e.job, Released(job, Complete).(error := None)), x)
    case Settle(x) =>
      if e.phase != Raised then p
      else if Holds(job, e.worker, e.fence) then End(Put(p, e.job, Refused(job, "raised")), x)
      else End(p, x)
  }

  function Run(p: Pool, steps: seq<Step>): Pool
    decreases |steps|
  {
    if steps == [] then p else Run(Next(p, steps[0]), steps[1..])
  }

  function Start(clock: int): Pool {
    Pool(map[], map[], map[], clock)
  }

  // ---- the invariant ----

  predicate JobSound(job: Job) {
    && job.attempts == job.fence
    && (job.owner.Some? <==> job.status == Running)
    && (job.expires.Some? <==> job.status == Running)
    && (job.status == Queued ==> job.attempts == 0)
    && (job.status == Retry ==> job.attempts < MAX_ATTEMPTS)
  }

  /** A running handler holds a fence that was issued to it alone. */
  ghost predicate FencesSound(p: Pool) {
    && (forall x :: x in p.live ==> p.live[x].job in p.jobs && 1 <= p.live[x].fence <= p.jobs[p.live[x].job].fence)
    && (forall x, y :: x in p.live && y in p.live && x != y && p.live[x].job == p.live[y].job ==>
          p.live[x].fence != p.live[y].fence)
  }

  /** Exactly the complete jobs have an effect, and only one, committed under their last fence. */
  ghost predicate EffectsSound(p: Pool) {
    forall id :: EffectsOf(p, id) == if id in p.jobs && p.jobs[id].status == Complete then [p.jobs[id].fence] else []
  }

  ghost predicate Sound(p: Pool) {
    (forall id :: id in p.jobs ==> JobSound(p.jobs[id])) && FencesSound(p) && EffectsSound(p)
  }

  // ---- one step keeps the invariant ----

  /** A row update that neither completes the job nor lowers the fence. */
  lemma PutSound(p: Pool, id: string, job: Job)
    requires Sound(p) && JobSound(job) && job.status != Complete
    requires id in p.jobs ==> p.jobs[id].fence <= job.fence && p.jobs[id].status != Complete
    ensures Sound(Put(p, id, job))
  {
    var q := Put(p, id, job);
    assert forall i :: EffectsOf(q, i) == EffectsOf(p, i);
  }

  lemma EndSound(p: Pool, x: nat)
    requires Sound(p)
    ensures Sound(End(p, x))
  {
    var q := End(p, x);
    assert forall i :: EffectsOf(q, i) == EffectsOf(p, i);
  }

  /** A phase or the lost mark of a running handler changes. */
  lemma ReenterSound(p: Pool, x: nat, e: Execution)
    requires Sound(p) && x in p.live && e.job == p.live[x].job && e.fence == p.live[x].fence
    ensures Sound(Enter(p, x, e))
  {
    var q := Enter(p, x, e);
    assert forall i :: EffectsOf(q, i) == EffectsOf(p, i);
  }

  lemma ClaimSound(p: Pool, id: string, worker: string, x: nat)
    requires Sound(p) && id in p.jobs && x !in p.live && Claimable(p.jobs[id], p.clock) && !p.jobs[id].cancel
    ensures var job := Claimed(p.jobs[id], worker, p.clock);
      Sound(Enter(Put(p, id, job), x, Execution(id, worker, job.fence, Starting, false)))
  {
    var job := Claimed(p.jobs[id], worker, p.clock);
    var q := Put(p, id, job);
    PutSound(p, id, job);
    EnterSound(q, x, Execution(id, worker, job.fence, Starting, false));
  }

  /** A new running handler with a fence above all others of its job. */
  lemma EnterSound(p: Pool, x: nat, e: Execution)
    requires Sound(p) && x !in p.live && e.job in p.jobs && 1 <= e.fence <= p.jobs[e.job].fence
    requires forall y :: y in p.live && p.live[y].job == e.job ==> p.live[y].fence < e.fence
    ensures Sound(Enter(p, x, e))
  {
    var q := Enter(p, x, e);
    assert forall i :: EffectsOf(q, i) == EffectsOf(p, i);
  }

  /** The guarded commit records the one effect. */
  lemma FinishSound(p: Pool, x: nat, e: Execution)
    requires Sound(p) && x in p.live && p.live[x] == e && Holds(p.jobs[e.job], e.worker, e.fence)
    ensures var job := p.jobs[e.job];
      Sound(Put(p.(effects := p.effects[e.job := EffectsOf(p, e.job) + [e.fence]]),
                e.job, Released(job, Complete).(error := None)))
  {
    var job := p.jobs[e.job];
    assert JobSound(job) && EffectsOf(p, e.job) == [];
    CompletedSound(p, e.job, Released(job, Complete).(error := None));
  }

  lemma CompletedSound(p: Pool, id: string, job: Job)
    requires Sound(p) && id in p.jobs && JobSound(job) && job.status == Complete && job.fence == p.jobs[id].fence
    ensures Sound(Put(p.(effects := p.effects[id := [job.fence]]), id, job))
  {
    var q := Put(p.(effects := p.effects[id := [job.fence]]), id, job);
    CompletedEffects(p, q, id, job);
    SameFences(p, q);
  }

  lemma CompletedEffects(p: Pool, q: Pool, id: string, job: Job)
    requires EffectsSound(p) && job.status == Complete
    requires q.jobs == p.jobs[id := job] && q.effects == p.effects[id := [job.fence]]
    ensures EffectsSound(q)
  {
    forall i ensures EffectsOf(q, i) == if i in q.jobs && q.jobs[i].status == Complete then [q.jobs[i].fence] else [] {
      assert i != id ==> EffectsOf(q, i) == EffectsOf(p, i);
    }
  }

  lemma SameFences(p: Pool, q: Pool)
    requires FencesSound(p) && q.live == p.live && p.jobs.Keys <= q.jobs.Keys
    requires forall i :: i in p.jobs ==> p.jobs[i].fence <= q.jobs[i].fence
    ensures FencesSound(q)
  {
  }

  lemma BeginSound(p: Pool, x: nat)
    requires Sound(p) && x in p.live && p.live[x].job in p.jobs
    ensures Sound(Work(p, Begin(x), p.live[x]))
  {
    var e := p.live[x];
    var job := p.jobs[e.job];
    assert JobSound(job);
    if e.phase == Starting {
      EndSound(p, x);
      if Holds(job, e.worker, e.fence) {
        var closed := if job.cancel then Released(job, Cancelled)
            else Released(job, Failed).(error := Some("unknown_job_kind"));
        PutSound(p, e.job, closed);
        EndSound(Put(p, e.job, closed), x);
        ReenterSound(p, x, e.(phase := Working));
      }
    }
  }

  lemma FinishStepSound(p: Pool, x: nat)
    requires Sound(p) && x in p.live && p.live[x].job in p.jobs
    ensures Sound(Work(p, Finish(x), p.live[x]))
  {
    var e := p.live[x];
    var job := p.jobs[e.job];
    if e.lost || !Holds(job, e.worker, e.fence) || job.cancel {
      ReenterSound(p, x, e.(phase := Raised));
    } else {
      FinishSound(p, x, e);
      EndSound(Put(p.(effects := p.effects[e.job := EffectsOf(p, e.job) + [e.fence]]),
                   e.job, Released(job, Complete).(error := None)), x);
    }
  }

  lemma WorkSound(p: Pool, step: Step, x: nat)
    requires Sound(p) && x in p.live && p.live[x].job in p.jobs
    requires step in {Begin(x), Beat(x), Raise(x), Finish(x), Settle(x)}
    ensures Sound(Work(p, step, p.live[x]))
  {
    var e := p.live[x];
    var job := p.jobs[e.job];
    assert JobSound(job);
    match step
    case Begin(_) => BeginSound(p, x);
    case Beat(_) =>
      if Renewable(job, e.worker, e.fence) { PutSound(p, e.job, Renewed(job, p.clock)); }
      else { ReenterSound(p, x, e.(lost := true)); }
    case Raise(_) => ReenterSound(p, x, e.(phase := Raised));
    case Finish(_) => FinishStepSound(p, x);
    case Settle(_) =>
      EndSound(p, x);
      if Holds(job, e.worker, e.fence) {
        PutSound(p, e.job, Refused(job, "raised"));
        EndSound(Put(p, e.job, Refused(job, "raised")), x);
      }
  }

  lemma NextSound(p: Pool, step: Step)
    requires Sound(p)
    ensures Sound(Next(p, step))
  {
    match step
    case Tick(elapsed) =>
      var q := p.(clock := p.clock + elapsed);
      assert forall i :: EffectsOf(q, i) == EffectsOf(p, i);
    case Enqueue(id, kind) => if id !in p.jobs { PutSound(p, id, NewJob(kind, p.clock)); }
    case Cancel(id) =>
      if id in p.jobs && !Terminal(p.jobs[id]) {
        assert JobSound(p.jobs[id]);
        PutSound(p, id, p.jobs[id].(cancel := true));
      }
    case Claim(id, worker, x) =>
      if id in p.jobs && x !in p.live && Claimable(p.jobs[id], p.clock) {
        assert JobSound(p.jobs[id]);
        if p.jobs[id].cancel {
          PutSound(p, id, Claimed(p.jobs[id], worker, p.clock));
        } else {
          ClaimSound(p, id, worker, x);
        }
      }
    case Crash(x) => EndSound(p, x);
    case _ => if step.x in p.live && p.live[step.x].job in p.jobs { WorkSound(p, step, step.x); }
  }

  lemma {:induction false} RunSound(p: Pool, steps: seq<Step>)
    requires Sound(p)
    ensures Sound(Run(p, steps))
    decreases |steps|
  {
    if steps != [] {
      NextSound(p, steps[0]);
      RunSound(Next(p, steps[0]), steps[1..]);
    }
  }

  // ---- safety over whole runs ----

  /** From an empty pool, whatever the interleaving: at most one handler transaction of a job commits, under its
      last fence, and only a complete job has one. */
  lemma OneEffectPerJob(clock: int, steps: seq<Step>, id: string)
    ensures var p := Run(Start(clock), steps);
      && |EffectsOf(p, id)| <= 1
      && (EffectsOf(p, id) != [] <==> id in p.jobs && p.jobs[id].status == Complete)
      && (EffectsOf(p, id) != [] ==> EffectsOf(p, id) == [p.jobs[id].fence])
  {
    RunSound(Start(clock), steps);
  }

  /** Two running handlers of one job hold different fences, both issued already. */
  lemma LiveFencesDiffer(clock: int, steps: seq<Step>, x: nat, y: nat)
    requires var p := Run(Start(clock), steps); x in p.live && y in p.live && x != y && p.live[x].job == p.live[y].job
    ensures var p := Run(Start(clock), steps);
      && p.live[x].fence != p.live[y].fence
      && p.live[x].job in p.jobs
      && p.live[x].fence <= p.jobs[p.live[x].job].fence && p.live[y].fence <= p.jobs[p.live[x].job].fence
  {
    RunSound(Start(clock), steps);
  }

  /** A job has an owner exactly while it runs; attempts count the issued fences; a job up for retry has attempts
      left. */
  lemma OwnedExactlyWhileRunning(clock: int, steps: seq<Step>, id: string)
    requires id in Run(Start(clock), steps).jobs
    ensures var job := Run(Start(clock), steps).jobs[id];
      && (job.owner.Some? <==> job.status == Running) && (job.expires.Some? <==> job.status == Running)
      && job.attempts == job.fence
      && (job.status == Retry ==> job.attempts < MAX_ATTEMPTS)
  {
    RunSound(Start(clock), steps);
    assert JobSound(Run(Start(clock), steps).jobs[id]);
  }

  /** What a step may do to an existing row. */
  predicate Evolves(before: Job, later: Job) {
    && before.fence <= later.fence
    && (Terminal(before) ==> later == before)
    && (before.cancel ==> later.cancel && (before.status != Complete ==> later.status != Complete))
  }

  predicate Executes(step: Step) {
    step.Begin? || step.Beat? || step.Raise? || step.Finish? || step.Settle?
  }

  lemma WorkEvolves(p: Pool, step: Step, e: Execution, id: string)
    requires id in p.jobs && JobSound(p.jobs[id]) && Executes(step) && e.job in p.jobs
    ensures id in Work(p, step, e).jobs && Evolves(p.jobs[id], Work(p, step, e).jobs[id])
    ensures Attempts(Work(p, step, e), id) == Attempts(p, id)
  {
  }

  lemma NextEvolves(p: Pool, step: Step, id: string)
    requires Sound(p) && id in p.jobs
    ensures id in Next(p, step).jobs && Evolves(p.jobs[id], Next(p, step).jobs[id])
  {
    assert JobSound(p.jobs[id]);
    if Executes(step) && step.x in p.live && p.live[step.x].job in p.jobs { WorkEvolves(p, step, p.live[step.x], id); }
  }

  lemma {:induction false} RunEvolves(p: Pool, steps: seq<Step>, id: string)
    requires Sound(p) && id in p.jobs
    ensures id in Run(p, steps).jobs && Evolves(p.jobs[id], Run(p, steps).jobs[id])
    decreases |steps|
  {
    if steps != [] {
      NextSound(p, steps[0]);
      NextEvolves(p, steps[0], id);
      RunEvolves(Next(p, steps[0]), steps[1..], id);
    }
  }

  /** Complete, failed and cancelled are final: no later step changes the row or adds an effect. */
  lemma TerminalIsFinal(p: Pool, steps: seq<Step>, id: string)
    requires Sound(p) && id in p.jobs && Terminal(p.jobs[id])
    ensures id in Run(p, steps).jobs && Run(p, steps).jobs[id] == p.jobs[id]
    ensures EffectsOf(Run(p, steps), id) == EffectsOf(p, id)
  {
    RunSound(p, steps);
    RunEvolves(p, steps, id);
  }

  /** Once a cancellation is accepted no later step completes the job or commits its handler. */
  lemma CancelPreventsCompletion(p: Pool, steps: seq<Step>, id: string)
    requires Sound(p) && id in p.jobs && !Terminal(p.jobs[id])
    ensures var q := Run(Next(p, Cancel(id)), steps);
      && id in q.jobs && q.jobs[id].status != Complete && EffectsOf(q, id) == []
      && (Terminal(q.jobs[id]) ==> q.jobs[id].status in {Failed, Cancelled})
  {
    var c := Next(p, Cancel(id));
    NextSound(p, Cancel(id));
    RunSound(c, steps);
    RunEvolves(c, steps, id);
  }

  // ---- attempts and termination ----

  function Attempts(p: Pool, id: string): nat {
    if id in p.jobs then p.jobs[id].attempts else 0
  }

  /** The step hands out a new fence for the job. */
  predicate Grants(p: Pool, step: Step, id: string) {
    && step.Claim? && step.id == id && id in p.jobs && step.x !in p.live
    && Claimable(p.jobs[id], p.clock) && !p.jobs[id].cancel
  }

  /** A grant that takes over a running job whose lease expired. */
  predicate Reclaims(p: Pool, step: Step, id: string) {
    Grants(p, step, id) && p.jobs[id].status == Running
  }

  function GrantCount(p: Pool, steps: seq<Step>, id: string): nat
    decreases |steps|
  {
    if steps == [] then 0
    else (if Grants(p, steps[0], id) then 1 else 0) + GrantCount(Next(p, steps[0]), steps[1..], id)
  }

  function ReclaimCount(p: Pool, steps: seq<Step>, id: string): nat
    decreases |steps|
  {
    if steps == [] then 0
    else (if Reclaims(p, steps[0], id) then 1 else 0) + ReclaimCount(Next(p, steps[0]), steps[1..], id)
  }

  lemma NextAttempts(p: Pool, step: Step, id: string)
    requires Sound(p)
    ensures Attempts(Next(p, step), id) == Attempts(p, id) + (if Grants(p, step, id) then 1 else 0)
    ensures Grants(p, step, id) && !Reclaims(p, step, id) ==> Attempts(Next(p, step), id) <= MAX_ATTEMPTS
  {
    if id in p.jobs {
      assert JobSound(p.jobs[id]);
      if Executes(step) && step.x in p.live && p.live[step.x].job in p.jobs {
        WorkEvolves(p, step, p.live[step.x], id);
      }
    }
  }

  /** `attempts` counts the claims; only reclaiming an expired lease can take it past the limit. */
  lemma {:induction false} AttemptsCountClaims(p: Pool, steps: seq<Step>, id: string, spare: nat)
    requires Sound(p) && Attempts(p, id) <= MAX_ATTEMPTS + spare
    ensures Attempts(Run(p, steps), id) == Attempts(p, id) + GrantCount(p, steps, id)
    ensures Attempts(Run(p, steps), id) <= MAX_ATTEMPTS + spare + ReclaimCount(p, steps, id)
    decreases |steps|
  {
    if steps != [] {
      NextSound(p, steps[0]);
      NextAttempts(p, steps[0], id);
      AttemptsCountClaims(Next(p, steps[0]), steps[1..], id, spare + if Reclaims(p, steps[0], id) then 1 else 0);
    }
  }

  /** Without reclaimed leases a job is claimed at most five times. */
  lemma FiveClaims(clock: int, steps: seq<Step>, id: string)
    requires ReclaimCount(Start(clock), steps, id) == 0
    ensures GrantCount(Start(clock), steps, id) <= MAX_ATTEMPTS
  {
    AttemptsCountClaims(Start(clock), steps, id, 0);
  }

  /** A claim exceeds the limit exactly when it takes over a running job that has used its attempts. */
  lemma ClaimExceedsLimit(p: Pool, step: Step, id: string)
    requires Sound(p) && Grants(p, step, id)
    ensures Attempts(Next(p, step), id) > MAX_ATTEMPTS <==>
      p.jobs[id].status == Running && p.jobs[id].attempts >= MAX_ATTEMPTS
  {
    assert JobSound(p.jobs[id]);
    NextAttempts(p, step, id);
  }

  function Worn(attempts: nat): Job {
    Job("remaster_domain", 0, Running, attempts, Some("w"), attempts, Some(31 * attempts - 1), false, None)
  }

  function Claiming(id: string, claims: nat): seq<Step> {
    if claims == 0 then [Enqueue(id, "remaster_domain")]
    else Claiming(id, claims - 1) + [Claim(id, "w", claims), Tick(31)]
  }

  lemma {:induction false} RunAppend(p: Pool, a: seq<Step>, b: seq<Step>)
    ensures Run(p, a + b) == Run(Run(p, a), b)
    decreases |a|
  {
    if a == [] {
      assert a + b == b;
    } else {
      assert (a + b)[1..] == a[1..] + b;
      RunAppend(Next(p, a[0]), a[1..], b);
    }
  }

  lemma {:induction false} ClaimingRuns(id: string, claims: nat)
    ensures var p := Run(Start(0), Claiming(id, claims));
      && p.clock == 31 * claims && id in p.jobs
      && p.jobs[id] == (if claims == 0 then NewJob("remaster_domain", 0) else Worn(claims))
      && (forall x :: x in p.live ==> x <= claims)
  {
    if claims == 0 {
      var steps := [Enqueue(id, "remaster_domain")];
      assert Run(Start(0), steps) == Run(Next(Start(0), steps[0]), []);
    } else {
      ClaimingRuns(id, claims - 1);
      RunAppend(Start(0), Claiming(id, claims - 1), [Claim(id, "w", claims), Tick(31)]);
      var p := Run(Start(0), Claiming(id, claims - 1));
      var steps := [Claim(id, "w", claims), Tick(31)];
      assert steps[1..] == [Tick(31)] && steps[1..][1..] == [];
      assert Run(p, steps) == Run(Next(p, steps[0]), [Tick(31)]);
      assert Run(p, steps) == Next(Next(p, Claim(id, "w", claims)), Tick(31));
    }
  }

  /** Expired leases are reclaimed without testing the limit: any number of claims is reachable. */
  lemma ExpiryIgnoresTheLimit(id: string, claims: nat)
    ensures Attempts(Run(Start(0), Claiming(id, claims)), id) == claims
  {
    ClaimingRuns(id, claims);
  }

  /** Status changes a job can still make while no lease is reclaimed. */
  function Budget(p: Pool, id: string): int {
    if id !in p.jobs then 2 * MAX_ATTEMPTS
    else
      var job := p.jobs[id];
      if Terminal(job) then 0
      else 2 * (MAX_ATTEMPTS - job.attempts) + if job.status == Running then 1 else 0
  }

  predicate Moves(p: Pool, step: Step, id: string) {
    id in p.jobs && id in Next(p, step).jobs && Next(p, step).jobs[id].status != p.jobs[id].status
  }

  function MoveCount(p: Pool, steps: seq<Step>, id: string): nat
    decreases |steps|
  {
    if steps == [] then 0
    else (if Moves(p, steps[0], id) then 1 else 0) + MoveCount(Next(p, steps[0]), steps[1..], id)
  }

  lemma NextSpends(p: Pool, step: Step, id: string)
    requires Sound(p) && Attempts(p, id) <= MAX_ATTEMPTS && !Reclaims(p, step, id)
    ensures 0 <= Budget(Next(p, step), id) <= Budget(p, id) - if Moves(p, step, id) then 1 else 0
  {
    if id in p.jobs {
      assert JobSound(p.jobs[id]);
      NextEvolves(p, step, id);
      if !Terminal(p.jobs[id]) { NextAttempts(p, step, id); }
    }
  }

  lemma {:induction false} RunSpends(p: Pool, steps: seq<Step>, id: string)
    requires Sound(p) && Attempts(p, id) <= MAX_ATTEMPTS && ReclaimCount(p, steps, id) == 0
    ensures MoveCount(p, steps, id) <= Budget(p, id) - Budget(Run(p, steps), id)
    ensures 0 <= Budget(Run(p, steps), id)
    decreases |steps|
  {
    if steps == [] {
      assert id in p.jobs ==> JobSound(p.jobs[id]);
    } else {
      NextSound(p, steps[0]);
      NextAttempts(p, steps[0], id);
      NextSpends(p, steps[0], id);
      RunSpends(Next(p, steps[0]), steps[1..], id);
    }
  }

  /** Without reclaimed leases a job changes status at most ten times, so it cannot run forever. */
  lemma TenStatusChanges(clock: int, steps: seq<Step>, id: string)
    requires ReclaimCount(Start(clock), steps, id) == 0
    ensures MoveCount(Start(clock), steps, id) <= 2 * MAX_ATTEMPTS
  {
    RunSpends(Start(clock), steps, id);
  }

  // ---- no job is stranded ----

  function Wait(p: Pool, id: string): nat
    requires id in p.jobs
  {
    var job := p.jobs[id];
    if job.expires.Some? && p.clock <= job.expires.value then job.expires.value - p.clock + 1 else 0
  }

  /** A claimable job ends with the next claim, when nothing interferes. */
  lemma ClaimEnds(p: Pool, id: string, worker: string, x: nat)
    requires Sound(p) && id in p.jobs && Claimable(p.jobs[id], p.clock) && x !in p.live
    ensures var q := Next(Next(Next(p, Claim(id, worker, x)), Begin(x)), Finish(x));
      && id in q.jobs && Terminal(q.jobs[id])
      && (q.jobs[id].status == Complete <==> !p.jobs[id].cancel && p.jobs[id].kind in HANDLERS)
      && (q.jobs[id].status == Cancelled <==> p.jobs[id].cancel)
  {
    var p2 := Next(p, Claim(id, worker, x));
    if p.jobs[id].cancel {
      assert x !in p2.live;
    } else {
      assert x in p2.live && p2.live[x].job == id && Holds(p2.jobs[id], worker, p2.live[x].fence);
    }
  }

  /** Whatever crashed before, one more worker that waits for the lease ends the job. */
  lemma OneWorkerSuffices(p: Pool, id: string, worker: string, x: nat)
    requires Sound(p) && id in p.jobs && !Terminal(p.jobs[id]) && x !in p.live
    ensures var q := Run(p, [Tick(Wait(p, id)), Claim(id, worker, x), Begin(x), Finish(x)]);
      && id in q.jobs && Terminal(q.jobs[id])
      && (q.jobs[id].status == Complete <==> !p.jobs[id].cancel && p.jobs[id].kind in HANDLERS)
      && (q.jobs[id].status == Cancelled <==> p.jobs[id].cancel)
  {
    var steps := [Tick(Wait(p, id)), Claim(id, worker, x), Begin(x), Finish(x)];
    var p1 := Next(p, steps[0]);
    assert JobSound(p.jobs[id]);
    NextSound(p, steps[0]);
    ClaimEnds(p1, id, worker, x);
    FourSteps(p, steps);
  }

  lemma FourSteps(p: Pool, steps: seq<Step>)
    requires |steps| == 4
    ensures Run(p, steps) == Next(Next(Next(Next(p, steps[0]), steps[1]), steps[2]), steps[3])
  {
    var t1, t2, t3 := steps[1..], steps[1..][1..], steps[1..][1..][1..];
    assert t1[0] == steps[1] && t2[0] == steps[2] && t3[0] == steps[3] && t3[1..] == [];
    assert Run(p, steps) == Run(Next(p, steps[0]), t1);
    var p2 := Next(Next(p, steps[0]), steps[1]);
    assert Run(Next(p, steps[0]), t1) == Run(p2, t2);
    assert Run(p2, t2) == Run(Next(p2, steps[2]), t3);
    assert Run(Next(p2, steps[2]), t3) == Run(Next(Next(p2, steps[2]), steps[3]), t3[1..]);
  }

  // ---- the worker ----

  /** The row `claim_one` picks: the oldest that can be claimed. */
  ghost predicate Oldest(jobs: map<string, Job>, now: int, id: string) {
    && id in jobs && Claimable(jobs[id], now)
    && forall j :: j in jobs && Claimable(jobs[j], now) ==> jobs[id].created <= jobs[j].created
  }

  /** Nobody works on the job: it is queued or up for retry, or it runs, and no lease on it is still alive. */
  predicate Takeable(job: Job, now: int) {
    && !(job.status == Complete || job.status == Failed || job.status == Cancelled)
    && !(job.expires.Some? && now <= job.expires.value)
  }

  /** The job table, as the worker of one process updates it. */
  class JobTable {
    var jobs: map<string, Job>
    var effects: map<string, seq<nat>>
    var clock: int

    ghost function State(): Pool
      reads this
    {
      Pool(jobs, map[], effects, clock)
    }

    constructor (now: int)
      ensures State() == Start(now)
    {
      jobs, effects, clock := map[], map[], now;
    }

    method Enqueue(id: string, kind: string)
      requires id !in jobs
      modifies this`jobs
      ensures State() == Next(old(State()), Step.Enqueue(id, kind))
    {
      jobs := jobs[id := NewJob(kind, clock)];
    }

    /** `renew_lease`: one conditional update. */
    method RenewLease(id: string, worker: string, fence: nat) returns (renewed: bool)
      modifies this`jobs
      ensures renewed <==> id in old(jobs) && Renewable(old(jobs[id]), worker, fence)
      ensures jobs == if renewed then old(jobs)[id := Renewed(old(jobs[id]), clock)] else old(jobs)
      ensures renewed <==>
        && id in old(jobs) && old(jobs)[id].status == Running && !old(jobs)[id].cancel
        && old(jobs)[id].owner == Some(worker) && old(jobs)[id].fence == fence
      ensures renewed ==> id in jobs && jobs[id].expires == Some(clock + 30)
    {
      renewed := id in jobs && Renewable(jobs[id], worker, fence);
      if renewed { jobs := jobs[id := Renewed(jobs[id], clock)]; }
    }

    /** `cancel_job`: refused on a terminal job. */
    method CancelJob(id: string) returns (accepted: bool)
      modifies this`jobs
      ensures accepted <==> id in old(jobs) && !Terminal(old(jobs[id]))
      ensures State() == Next(old(State()), Cancel(id))
    {
      accepted := id in jobs && !Terminal(jobs[id]);
      if accepted { jobs := jobs[id := jobs[id].(cancel := true)]; }
    }

    /** The query of `claim_one`. */
    method OldestClaimable() returns (found: Option<string>)
      ensures found.None? <==> forall j :: j in jobs ==> !Claimable(jobs[j], clock)
      ensures found.Some? ==> Oldest(jobs, clock, found.value) && Takeable(jobs[found.value], clock)
      ensures found.Some? ==>
        forall j :: j in jobs && Takeable(jobs[j], clock) ==> jobs[found.value].created <= jobs[j].created
      ensures found.None? ==> forall j :: j in jobs ==> !Takeable(jobs[j], clock)
    {
      found := None;
      var rest := jobs.Keys;
      while rest != {}
        invariant rest <= jobs.Keys
        invariant found.Some? ==> found.value in jobs && Claimable(jobs[found.value], clock)
        invariant forall j :: j in jobs && j !in rest && Claimable(jobs[j], clock) ==>
          found.Some? && jobs[found.value].created <= jobs[j].created
        decreases rest
      {
        var j :| j in rest;
        if Claimable(jobs[j], clock) && (found.None? || jobs[j].created < jobs[found.value].created) {
          found := Some(j);
        }
        rest := rest - {j};
      }
    }

    method ClaimOne(worker: string) returns (found: Option<string>, claim: Option<nat>)
      modifies this`jobs
      ensures found.None? ==> jobs == old(jobs) && claim.None?
      ensures found.None? <==> forall j :: j in old(jobs) ==> !Claimable(old(jobs)[j], clock)
      ensures found.Some? ==>
        && Oldest(old(jobs), clock, found.value)
        && jobs == old(jobs)[found.value := Claimed(old(jobs)[found.value], worker, clock)]
        && claim == if old(jobs)[found.value].cancel then None else Some(jobs[found.value].fence)
      ensures found.Some? ==> Takeable(old(jobs)[found.value], clock)
      ensures found.None? ==> forall j :: j in old(jobs) ==> !Takeable(old(jobs)[j], clock)
      ensures claim.Some? ==>
        && found.Some? && found.value in jobs && jobs[found.value].owner == Some(worker)
        && jobs[found.value].expires == Some(clock + 30)
    {
      claim := None;
      found := OldestClaimable();
      if found.None? { return; }
      var job := jobs[found.value];
      if job.cancel {
        jobs := jobs[found.value := job.(status := Cancelled, owner := None, expires := None)];
      } else {
        jobs := jobs[found.value := job.(status := Running, owner := Some(worker), fence := job.fence + 1,
                                         expires := Some(clock + LEASE_SECONDS), attempts := job.attempts + 1)];
        claim := Some(job.fence + 1);
      }
    }

    /** The transaction around the handler; `raises` stands for a handler that raises.
        `ended` is false when the exception path follows. */
    method Execute(id: string, worker: string, fence: nat, raises: bool) returns (ended: bool)
      requires id in jobs
      modifies this`jobs, this`effects
      ensures var x := Execution(id, worker, fence, Starting, false);
        var p := old(State()).(live := map[0 := x]);
        var q := Next(Next(p, Begin(0)), if raises then Raise(0) else Finish(0));
        && jobs == q.jobs && effects == q.effects
        && (ended <==> 0 !in q.live)
    {
      var job := jobs[id];
      if !Holds(job, worker, fence) {
        return true;
      }
      if job.cancel {
        jobs := jobs[id := job.(status := Cancelled, owner := None, expires := None)];
        return true;
      }
      if job.kind !in HANDLERS {
        jobs := jobs[id := job.(status := Failed, error := Some("unknown_job_kind"), owner := None, expires := None)];
        return true;
      }
      if raises {
        return false;
      }
      effects := effects[id := (if id in effects then effects[id] else []) + [fence]];
      jobs := jobs[id := job.(status := Complete, owner := None, expires := None, error := None)];
      ended := true;
    }

    /** The exception path: the row is given back while it is still held. */
    method GiveBack(id: string, worker: string, fence: nat)
      requires id in jobs
      modifies this`jobs
      ensures jobs == if Holds(old(jobs)[id], worker, fence) then old(jobs)[id := Refused(old(jobs)[id], "raised")]
          else old(jobs)
      ensures id in jobs
      ensures old(jobs)[id].owner == Some(worker) && old(jobs)[id].fence == fence ==>
        jobs[id].status == if old(jobs)[id].attempts < 5 then Retry else Failed
    {
      var job := jobs[id];
      if Holds(job, worker, fence) {
        jobs := jobs[id := job.(status := if job.attempts >= MAX_ATTEMPTS then Failed else Retry,
                                error := Some("raised"), owner := None, expires := None)];
      }
    }

    /** `run_once` when no other worker interferes: four steps of the protocol for the oldest claimable job. */
    method RunOnce(worker: string, raises: bool) returns (worked: bool, found: Option<string>)
      modifies this`jobs, this`effects
      ensures found.None? ==> State() == old(State()) && !worked
      ensures found.None? <==> forall j :: j in old(jobs) ==> !Claimable(old(jobs)[j], clock)
      ensures found.Some? ==>
        && Oldest(old(jobs), clock, found.value)
        && (worked <==> !old(jobs)[found.value].cancel)
        && State() == Run(old(State()), RunOnceSteps(found.value, worker, raises))
    {
      var claim: Option<nat>;
      found, claim := ClaimOne(worker);
      if claim.None? {
        worked := false;
        if found.Some? { Cancelled4(old(State()), found.value, worker, raises); }
        return;
      }
      ghost var p1 := Next(old(State()), Claim(found.value, worker, 0));
      assert p1.jobs == jobs && p1.live == map[0 := Execution(found.value, worker, claim.value, Starting, false)];
      var ended := Execute(found.value, worker, claim.value, raises);
      ghost var p3 := Next(Next(p1, Begin(0)), if raises then Raise(0) else Finish(0));
      assert jobs == p3.jobs && effects == p3.effects && (ended <==> 0 !in p3.live);
      if !ended {
        Unfinished(p1, found.value, worker, claim.value, raises);
        GiveBack(found.value, worker, claim.value);
      } else {
        Finished(p1, raises);
      }
      worked := true;
      FourSteps(old(State()), RunOnceSteps(found.value, worker, raises));
    }
  }

  function RunOnceSteps(id: string, worker: string, raises: bool): seq<Step> {
    [Claim(id, worker, 0), Begin(0), if raises then Raise(0) else Finish(0), Settle(0)]
  }

  /** A claim that cancels leaves nothing to execute. */
  lemma Cancelled4(p: Pool, id: string, worker: string, raises: bool)
    requires p.live == map[] && id in p.jobs && Claimable(p.jobs[id], p.clock) && p.jobs[id].cancel
    ensures Run(p, RunOnceSteps(id, worker, raises)) == Put(p, id, Claimed(p.jobs[id], worker, p.clock))
  {
    FourSteps(p, RunOnceSteps(id, worker, raises));
  }

  lemma Unfinished(p: Pool, id: string, worker: string, fence: nat, raises: bool)
    requires id in p.jobs && p.live == map[0 := Execution(id, worker, fence, Starting, false)]
    requires 0 in Next(Next(p, Begin(0)), if raises then Raise(0) else Finish(0)).live
    ensures var q := Next(Next(p, Begin(0)), if raises then Raise(0) else Finish(0));
      && id in q.jobs
      && Next(q, Settle(0)).live == map[] && Next(q, Settle(0)).effects == q.effects &&
          Next(q, Settle(0)).clock == p.clock
      && Next(q, Settle(0)).jobs ==
           if Holds(q.jobs[id], worker, fence) then q.jobs[id := Refused(q.jobs[id], "raised")] else q.jobs
  {
  }

  lemma Finished(p: Pool, raises: bool)
    requires p.live.Keys == {0}
    requires 0 !in Next(Next(p, Begin(0)), if raises then Raise(0) else Finish(0)).live
    ensures var q := Next(Next(p, Begin(0)), if raises then Raise(0) else Finish(0));
      Next(q, Settle(0)) == q && q.live == map[] && q.clock == p.clock
  {
  }
}
