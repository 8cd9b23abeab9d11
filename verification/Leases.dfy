/** What a lease is worth: who may take a job, who may change it, and how long. */
module Leases {
  import opened Prelude
  import opened Jobs

  /** The job runs and its lease has not run out. */
  predicate Leased(p: Pool, id: string) {
    && id in p.jobs && p.jobs[id].status == Running
    && p.jobs[id].expires.Some? && p.clock <= p.jobs[id].expires.value
  }

  /** The job is queued or up for retry, or its lease has run out. */
  predicate Waiting(p: Pool, id: string) {
    && id in p.jobs
    && (|| p.jobs[id].status in {Queued, Retry}
        || (p.jobs[id].status == Running && p.jobs[id].expires.Some? && p.jobs[id].expires.value < p.clock))
  }

  // ---- claims ----

  lemma SoundLeaseHolds(p: Pool, id: string, worker: string, x: nat)
    requires Leased(p, id)
    ensures Next(p, Claim(id, worker, x)) == p
  {
  }

  /** In every run, a claim of a job under a live lease changes nothing. */
  lemma LeaseHolds(clock: int, steps: seq<Step>, id: string, worker: string, x: nat)
    requires Leased(Run(Start(clock), steps), id)
    ensures Next(Run(Start(clock), steps), Claim(id, worker, x)) == Run(Start(clock), steps)
  {
    SoundLeaseHolds(Run(Start(clock), steps), id, worker, x);
  }

  /** The row after a claim that hands the job to a worker. */
  predicate HandedTo(before: Job, later: Job, worker: string, now: int) {
    later == before.(status := Running, owner := Some(worker), fence := before.fence + 1,
                     attempts := before.attempts + 1, expires := Some(now + 30))
  }

  lemma SoundClaimTakes(p: Pool, id: string, worker: string, x: nat)
    requires Sound(p) && Waiting(p, id) && x !in p.live
    ensures var q := Next(p, Claim(id, worker, x));
      && id in q.jobs && q.jobs == p.jobs[id := q.jobs[id]] && q.effects == p.effects && q.clock == p.clock
      && (p.jobs[id].cancel ==>
            q.live == p.live && q.jobs[id] == p.jobs[id].(status := Cancelled, owner := None, expires := None))
      && (!p.jobs[id].cancel ==>
            && HandedTo(p.jobs[id], q.jobs[id], worker, p.clock)
            && q.live == p.live[x := Execution(id, worker, p.jobs[id].fence + 1, Starting, false)])
  {
    assert JobSound(p.jobs[id]);
  }

  /** In every run, a claim of a waiting job hands it to the worker for thirty seconds under the next fence, or cancels
      it when that was asked for. */
  lemma ClaimTakes(clock: int, steps: seq<Step>, id: string, worker: string, x: nat)
    requires Waiting(Run(Start(clock), steps), id) && x !in Run(Start(clock), steps).live
    ensures var p := Run(Start(clock), steps);
      var q := Next(p, Claim(id, worker, x));
      && id in q.jobs && q.jobs == p.jobs[id := q.jobs[id]] && q.effects == p.effects && q.clock == p.clock
      && (p.jobs[id].cancel ==>
            q.live == p.live && q.jobs[id] == p.jobs[id].(status := Cancelled, owner := None, expires := None))
      && (!p.jobs[id].cancel ==>
            && HandedTo(p.jobs[id], q.jobs[id], worker, p.clock)
            && q.live == p.live[x := Execution(id, worker, p.jobs[id].fence + 1, Starting, false)])
  {
    RunSound(Start(clock), steps);
    SoundClaimTakes(Run(Start(clock), steps), id, worker, x);
  }

  /** Every job is leased, waiting or terminal. */
  lemma LeasedOrWaiting(clock: int, steps: seq<Step>, id: string)
    requires id in Run(Start(clock), steps).jobs
    ensures var p := Run(Start(clock), steps);
      && (Leased(p, id) || Waiting(p, id) || p.jobs[id].status in {Complete, Failed, Cancelled})
      && !(Leased(p, id) && Waiting(p, id))
  {
    RunSound(Start(clock), steps);
    assert JobSound(Run(Start(clock), steps).jobs[id]);
  }

  /** A new job waits, untouched. */
  lemma EnqueuedWaits(p: Pool, id: string, kind: string)
    requires id !in p.jobs
    ensures var q := Next(p, Enqueue(id, kind));
      && Waiting(q, id) && q == p.(jobs := p.jobs[id := q.jobs[id]])
      && q.jobs[id].kind == kind && q.jobs[id].created == p.clock && q.jobs[id].attempts == 0
      && q.jobs[id].fence == 0 && !q.jobs[id].cancel && q.jobs[id].error.None?
  {
  }

  // ---- exclusion ----

  /** The step is one of the execution that holds the job's present fence. */
  predicate HoldersStep(p: Pool, step: Step, id: string) {
    && Executes(step) && step.x in p.live && id in p.jobs && p.live[step.x].job == id
    && p.jobs[id].owner == Some(p.live[step.x].worker) && p.jobs[id].fence == p.live[step.x].fence
  }

  lemma WorkKeepsOthers(p: Pool, step: Step, id: string)
    requires Executes(step) && step.x in p.live && p.live[step.x].job in p.jobs && id in p.jobs
    requires !HoldersStep(p, step, id)
    ensures id in Work(p, step, p.live[step.x]).jobs && Work(p, step, p.live[step.x]).jobs[id] == p.jobs[id]
  {
  }

  /** While the lease lives, only its holder changes the row; anyone may ask for cancellation. */
  lemma LeaseExcludes(p: Pool, step: Step, id: string)
    requires Leased(p, id)
    ensures id in Next(p, step).jobs
    ensures Next(p, step).jobs[id] != p.jobs[id] ==>
      HoldersStep(p, step, id) || (step == Cancel(id) && Next(p, step).jobs[id] == p.jobs[id].(cancel := true))
  {
    if Executes(step) && step.x in p.live && p.live[step.x].job in p.jobs && !HoldersStep(p, step, id) {
      WorkKeepsOthers(p, step, id);
    }
  }

  /** The lease lives at every point of the run. */
  ghost predicate AlwaysLeased(p: Pool, steps: seq<Step>, id: string)
    decreases |steps|
  {
    Leased(p, id) && (steps == [] || AlwaysLeased(Next(p, steps[0]), steps[1..], id))
  }

  lemma WorkKeepsHolder(p: Pool, step: Step, id: string)
    requires Executes(step) && step.x in p.live && p.live[step.x].job in p.jobs && id in p.jobs
    requires Leased(Work(p, step, p.live[step.x]), id)
    ensures var later := Work(p, step, p.live[step.x]).jobs[id];
      later.owner == p.jobs[id].owner && later.fence == p.jobs[id].fence && later.attempts == p.jobs[id].attempts
  {
  }

  lemma StepKeepsHolder(p: Pool, step: Step, id: string)
    requires Leased(p, id) && Leased(Next(p, step), id)
    ensures var later := Next(p, step).jobs[id];
      later.owner == p.jobs[id].owner && later.fence == p.jobs[id].fence && later.attempts == p.jobs[id].attempts
  {
    if Executes(step) && step.x in p.live && p.live[step.x].job in p.jobs { WorkKeepsHolder(p, step, id); }
  }

  /** As long as the lease is kept alive the job stays with its worker, under its fence, whatever the others do. */
  lemma {:induction false} LeaseProtects(p: Pool, steps: seq<Step>, id: string)
    requires AlwaysLeased(p, steps, id)
    ensures var q := Run(p, steps);
      && id in q.jobs && q.jobs[id].owner == p.jobs[id].owner && q.jobs[id].fence == p.jobs[id].fence
      && q.jobs[id].attempts == p.jobs[id].attempts
    decreases |steps|
  {
    if steps != [] {
      assert Leased(Next(p, steps[0]), id);
      StepKeepsHolder(p, steps[0], id);
      LeaseProtects(Next(p, steps[0]), steps[1..], id);
    }
  }

  // ---- heartbeats ----

  /** A heartbeat of the holder extends the lease to thirty seconds from now, unless cancellation was asked for; any
      other heartbeat leaves the row alone and marks the execution as lost. */
  lemma HeartbeatExtends(p: Pool, x: nat)
    requires x in p.live && p.live[x].job in p.jobs
    ensures var id := p.live[x].job;
      var q := Next(p, Beat(x));
      && id in q.jobs && x in q.live
      && if HoldersStep(p, Beat(x), id) && p.jobs[id].status == Running && !p.jobs[id].cancel
         then q.jobs == p.jobs[id := p.jobs[id].(expires := Some(p.clock + 30))] && q.live == p.live
         else q.jobs == p.jobs && q.live == p.live[x := p.live[x].(lost := true)]
  {
  }

  lemma LostStays(p: Pool, step: Step, x: nat)
    requires x in p.live && p.live[x].lost && x in Next(p, step).live
    ensures Next(p, step).live[x].lost && Next(p, step).live[x].job == p.live[x].job
  {
  }

  /** An execution that found its lease lost commits nothing any more. */
  lemma LostNeverCommits(p: Pool, step: Step, x: nat)
    requires x in p.live && p.live[x].lost
    ensures step == Finish(x) ==> Next(p, step).jobs == p.jobs && Next(p, step).effects == p.effects
    ensures x in Next(p, step).live ==> Next(p, step).live[x].lost
  {
    if x in Next(p, step).live { LostStays(p, step, x); }
  }

  // ---- failures ----

  /** A handler that raises gives the job back: up for retry below five attempts, failed from five on. */
  lemma FailureIsCounted(p: Pool, x: nat)
    requires x in p.live && p.live[x].job in p.jobs && p.live[x].phase == Raised
    requires HoldersStep(p, Settle(x), p.live[x].job)
    ensures var job := p.jobs[p.live[x].job];
      var q := Next(p, Settle(x));
      && x !in q.live && q.effects == p.effects
      && q.jobs == p.jobs[p.live[x].job :=
           job.(status := if job.attempts < 5 then Retry else Failed, owner := None, expires := None,
                error := Some("raised"))]
  {
  }

  /** Before the handler starts, its holder cancels the job when that was asked for and fails one of an unknown kind;
      anyone else just ends. */
  lemma BeginDecides(p: Pool, x: nat)
    requires x in p.live && p.live[x].job in p.jobs && p.live[x].phase == Starting
    ensures var id := p.live[x].job;
      var job := p.jobs[id];
      var q := Next(p, Begin(x));
      && q.effects == p.effects
      && if !HoldersStep(p, Begin(x), id) then q.jobs == p.jobs && x !in q.live
         else if job.cancel then
           x !in q.live && q.jobs == p.jobs[id := job.(status := Cancelled, owner := None, expires := None)]
         else if job.kind != "remaster_domain" then
           x !in q.live && q.jobs == p.jobs[id :=
             job.(status := Failed, owner := None, expires := None, error := Some("unknown_job_kind"))]
         else q.jobs == p.jobs && q.live == p.live[x := p.live[x].(phase := Working)]
  {
  }

  /** A handler that ends well completes the job exactly when its execution still holds it, never found its lease lost,
      and no cancellation was asked for; otherwise it raises and nothing is committed. */
  lemma FinishCommitsIff(p: Pool, x: nat)
    requires x in p.live && p.live[x].job in p.jobs && p.live[x].phase == Working
    ensures var id := p.live[x].job;
      var job := p.jobs[id];
      var q := Next(p, Finish(x));
      if HoldersStep(p, Finish(x), id) && !p.live[x].lost && !job.cancel
      then
        && x !in q.live && q.effects == p.effects[id := EffectsOf(p, id) + [job.fence]]
        && q.jobs == p.jobs[id := job.(status := Complete, owner := None, expires := None, error := None)]
      else q.jobs == p.jobs && q.effects == p.effects && q.live == p.live[x := p.live[x].(phase := Raised)]
  {
  }
}
