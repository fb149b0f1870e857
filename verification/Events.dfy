/** The event of a run: every job, parked wait and completion carries it, and so does the job saved for a rerun. */
module Events {
  import opened Values
  import opened Jobs
  import opened Runs
  import opened Plans
  import opened Invariant
  import opened Handlers
  import opened Steps
  import opened Restarts
  import opened ForeachRuns
  import opened Unfolding
  import opened Wafers
  import opened Dags
  import opened Compilation
  import opened Controls
  import opened WaferRuns
  import Attempts

  ghost predicate JobsCarry(queue: map<nat, NodeJob>, event: Json) {
    forall k :: k in queue ==> EventOf(queue[k].input) == event
  }

  ghost predicate WaitsCarry(parked: map<NodeId, Continuation>, event: Json) {
    forall n :: n in parked ==> EventOf(parked[n].input) == event
  }

  ghost predicate DoneCarry(h: seq<Completion>, event: Json) {
    forall i :: 0 <= i < |h| ==> EventOf(h[i].input) == event
  }

  /** Whatever is queued, parked, completed or saved in the run has this event. */
  ghost predicate CarriesEvent(run: Run, event: Json) {
    && JobsCarry(run.queue, event) && WaitsCarry(run.parked, event) && DoneCarry(run.history, event)
    && (run.saved.Some? ==> EventOf(run.saved.value.input) == event)
  }

  // ----- one transaction

  lemma {:induction false} EnqueueCarries(run: Run, jobs: seq<NodeJob>, event: Json)
    requires JobsCarry(run.queue, event) && forall i :: 0 <= i < |jobs| ==> EventOf(jobs[i].input) == event
    ensures JobsCarry(Enqueue(run, jobs).queue, event)
    ensures var after := Enqueue(run, jobs); after == run.(queue := after.queue, rows := after.rows, nextId := after.nextId)
  {
    if jobs != [] {
      EnqueueCarries(run, jobs[..|jobs| - 1], event);
    }
  }

  lemma {:induction false} ReadyAreGiven(dependents: seq<NodeId>, ready: set<NodeId>, downstream: seq<NodeJob>)
    ensures forall d :: d in ReadyJobs(dependents, ready, downstream) ==> d in downstream
  {
    if downstream != [] {
      ReadyAreGiven(dependents, ready, downstream[..|downstream| - 1]);
    }
  }

  ghost predicate SeqCarries(jobs: seq<NodeJob>, event: Json) {
    forall i :: 0 <= i < |jobs| ==> EventOf(jobs[i].input) == event
  }

  lemma ReadyCarry(dependents: seq<NodeId>, ready: set<NodeId>, downstream: seq<NodeJob>, event: Json)
    requires SeqCarries(downstream, event)
    ensures SeqCarries(ReadyJobs(dependents, ready, downstream), event)
  {
    ReadyAreGiven(dependents, ready, downstream);
    hide ReadyJobs;
    var jobs := ReadyJobs(dependents, ready, downstream);
    forall i | 0 <= i < |jobs|
      ensures EventOf(jobs[i].input) == event
    {
      assert jobs[i] in downstream;
    }
  }

  /** A fan-out of jobs with the event. */
  lemma FanOutCarries(run: Run, dependents: seq<NodeId>, downstream: seq<NodeJob>, event: Json)
    requires JobsCarry(run.queue, event) && SeqCarries(downstream, event)
    ensures Runs.FanOut(run, dependents, downstream).Some? ==>
              var after := Runs.FanOut(run, dependents, downstream).value.0;
              && JobsCarry(after.queue, event) && after.parked == run.parked && after.history == run.history && after.saved == run.saved
  {
    hide Decrement, ReadyJobs, Enqueue;
    match Decrement(run.remaining, dependents)
    case None =>
    case Some((m, ready)) =>
      ReadyCarry(dependents, ready, downstream, event);
      EnqueueCarries(run.(remaining := m), ReadyJobs(dependents, ready, downstream), event);
  }

  lemma CommitCarries(run: Run, atom: NodeAtom, event: Json)
    requires CarriesEvent(run, event) && SeqCarries(atom.downstream, event) && DoneCarry(atom.log, event)
    ensures CommitAtom(run, atom).Some? ==> CarriesEvent(CommitAtom(run, atom).value, event)
  {
    hide Runs.FanOut, ClaimValid, SeqCarries, DoneCarry, JobsCarry, WaitsCarry;
    var written := run.(results := run.results[atom.nodeId := atom.result], history := run.history + atom.log);
    DoneMore(run.history, atom.log, event);
    FanOutCarries(written, atom.dependents, atom.downstream, event);
    var fanned := Runs.FanOut(written, atom.dependents, atom.downstream);
    if fanned.Some? && atom.ack.Some? {
      FewerJobs(fanned.value.0.queue, atom.ack.value.id, event);
    }
  }

  lemma DoneMore(h: seq<Completion>, log: seq<Completion>, event: Json)
    requires DoneCarry(h, event) && DoneCarry(log, event)
    ensures DoneCarry(h + log, event)
  {
  }

  lemma FewerJobs(queue: map<nat, NodeJob>, id: nat, event: Json)
    requires JobsCarry(queue, event)
    ensures JobsCarry(queue - {id}, event)
  {
  }

  lemma NextCarry(c: Completion, ds: seq<NodeJob>, event: Json)
    requires EventOf(c.input) == event
    ensures SeqCarries(NextJobs(c, ds), event)
  {
  }

  lemma FailureCarries(lim: Limits, run: Run, claim: Claim, cause: Cause, event: Json)
    requires HasJob(run, claim.id) && CarriesEvent(run, event)
    ensures CarriesEvent(RecordFailure(lim, run, claim, cause), event)
  {
    hide FailureResult, EffectiveInput;
    EffectiveEvent(run.results, run.queue[claim.id]);
  }

  lemma EffectiveEvent(results: map<NodeId, Json>, job: NodeJob)
    ensures EventOf(EffectiveInput(results, job)) == EventOf(job.input)
  {
    assert EVENT[0] != STEPS[0];
  }

  lemma FinishCarries(lim: Limits, run: Run, claim: Claim, c: Completion, event: Json)
    requires HasJob(run, claim.id) && CarriesEvent(run, event) && EventOf(c.input) == event
    ensures CarriesEvent(Finish(run, claim, c), event) && CarriesEvent(FinishOrFail(lim, run, claim, c), event)
  {
    var job := run.queue[claim.id];
    NextCarry(c, job.downstream, event);
    CommitCarries(run, AtomOf(job, claim, c, None), event);
    FailureCarries(lim, run, claim, OtherCause, event);
    hide CommitAtom, RecordFailure, NextJobs;
  }

  /** Iterations have the scheduler's event, unless the loop variable takes its place. */
  lemma FanCarries(lim: Limits, run: Run, claim: Claim, items: seq<Json>, event: Json)
    requires HasJob(run, claim.id) && CarriesEvent(run, event)
    requires run.queue[claim.id].loop.Some? ==> run.queue[claim.id].loop.value.bodyAs != EVENT
    ensures CarriesEvent(FanForeach(lim, run, claim, items), event)
  {
    hide CommitAtom, RecordFailure, SetRemaining, ItemsResult, CarriesEvent;
    var job := run.queue[claim.id];
    if job.loop.Some? {
      var loop := job.loop.value;
      var counted := run.(remaining := SetRemaining(run.remaining, loop.rejoins, |items|));
      Recounted(run, counted, event);
      BodiesCarry(job, loop, items, event);
      Queued(run, claim.id, event);
      CommitCarries(counted, ScatterAtom(claim, Completing(job, None, job.input, ItemsResult(items)), BodyJobs(job, loop, items)), event);
      FailureCarries(lim, counted, claim, OtherCause, event);
      if CommitAtom(counted, ScatterAtom(claim, Completing(job, None, job.input, ItemsResult(items)), BodyJobs(job, loop, items))).Some? {
        CheckCarries(CommitAtom(counted, ScatterAtom(claim, Completing(job, None, job.input, ItemsResult(items)), BodyJobs(job, loop, items))).value, event);
      }
    }
  }

  lemma Queued(run: Run, id: nat, event: Json)
    requires CarriesEvent(run, event) && id in run.queue
    ensures EventOf(run.queue[id].input) == event
  {
  }

  lemma Recounted(run: Run, counted: Run, event: Json)
    requires CarriesEvent(run, event) && counted == run.(remaining := counted.remaining)
    ensures CarriesEvent(counted, event)
  {
  }

  lemma CheckCarries(run: Run, event: Json)
    requires CarriesEvent(run, event)
    ensures CarriesEvent(CheckComplete(run), event)
  {
  }

  lemma BodiesCarry(job: NodeJob, loop: Loop, items: seq<Json>, event: Json)
    requires loop.bodyAs != EVENT
    ensures EventOf(job.input) == event ==> SeqCarries(BodyJobs(job, loop, items), event)
  {
    hide MarkRejoins, RejoinJobs;
  }

  lemma ParkCarries(run: Run, claim: Claim, signal: string, runAt: int, event: Json)
    requires ClaimValid(run, claim) && CarriesEvent(run, event)
    ensures CarriesEvent(CheckComplete(Park(run, claim, signal, runAt)), event)
  {
    hide CheckComplete;
    CheckCarries(Park(run, claim, signal, runAt), event);
  }

  lemma ResumeCarries(run: Run, n: NodeId, source: string, payload: Json, event: Json)
    requires CarriesEvent(run, event)
    ensures CarriesEvent(Resume(run, n, source, payload), event)
  {
    if run.status == Waiting && n in run.parked {
      hide Runs.FanOut, NextJobs, WakeResult;
      var cont := run.parked[n];
      var c := Waking(cont, source, payload);
      NextCarry(c, cont.downstream, event);
      var written := run.(results := run.results[cont.nodeId := c.result], history := run.history + [c]);
      FanOutCarries(written, cont.dependents, NextJobs(c, cont.downstream), event);
    }
  }

  /** Handling a job keeps the event. */
  lemma HandleCarries(lim: Limits, run: Run, claim: Claim, out: Outcome, event: Json)
    requires HasJob(run, claim.id) && Fits(run.queue[claim.id], out) && CarriesEvent(run, event)
    requires var job := run.queue[claim.id];
             job.def.nodeType.Foreach? && job.loop.Some? ==> job.loop.value.bodyAs != EVENT
    ensures CarriesEvent(Handle(lim, run, claim, out), event)
  {
    hide Finish, FinishOrFail, FanForeach, Park, RecordFailure, CheckComplete, EffectiveInput, CarriesEvent;
    var job := run.queue[claim.id];
    Queued(run, claim.id, event);
    EffectiveEvent(run.results, job);
    FailureCarries(lim, run, claim, OtherCause, event);
    if !Attempts.Open(run) {
      ShelveCarries(run, claim, event);
    } else if job.skip {
      FinishCarries(lim, run, claim, Completing(job, None, job.input, SKIPPED), event);
    } else {
      match out
      case Broke(cause) => FailureCarries(lim, run, claim, cause, event);
      case WaitFor(signal, runAt, buffered) =>
        if buffered.Some? && signal != "" {
          FinishCarries(lim, run, claim, Completing(job, None, job.input, WakeResult("signal", buffered.value)), event);
        } else if ClaimValid(run, claim) {
          ParkCarries(run, claim, signal, runAt, event);
        }
      case Output(value) =>
        if value.JStr? {
          FinishCarries(lim, run, claim, Completing(job, Some(value.s), job.input, BranchResult(value.s)), event);
        }
        if job.def.nodeType.Foreach? && value.JArr? {
          FanCarries(lim, run, claim, value.items, event);
        }
        FinishCarries(lim, run, claim, Completing(job, None, job.input, value), event);
        FinishCarries(lim, run, claim, Completing(job, None, EffectiveInput(run.results, job), value), event);
    }
  }

  lemma ShelveCarries(run: Run, claim: Claim, event: Json)
    requires CarriesEvent(run, event)
    ensures CarriesEvent(Shelve(run, claim, Dropped), event)
  {
  }

  // ----- every step and history

  /** No scheduler of the plan calls its items the event. */
  ghost predicate EventFree(p0: Plan) {
    forall f :: IsLoop(p0, f) ==> p0.jobs[f].loop.value.bodyAs != EVENT
  }

  /** The loop variable of a queued scheduler is the plan's. */
  lemma QueuedLoop(p0: Plan, p: Plan, run: Run, id: nat)
    requires Tracks(p0, p, run) && EventFree(p0) && id in run.queue && run.queue[id].def.nodeType.Foreach?
    ensures run.queue[id].loop.Some? ==> run.queue[id].loop.value.bodyAs != EVENT
  {
    SchedulerParts(p, run, id);
    hide RunInv, WfPlan, HistoryOk, JobFor, DoneSet;
    var n := run.queue[id].nodeId;
    assert NewOk(p0, p, run.history, n) && NodeOk(p0, p, run.history, n);
  }

  lemma StepCarries(lim: Limits, p0: Plan, p: Plan, run: Run, a: Action, event: Json)
    requires Tracks(p0, p, run) && EventFree(p0) && Enabled(run, a) && CarriesEvent(run, event)
    ensures CarriesEvent(Next(lim, run, a), event)
  {
    hide Tracks, EventFree, Handle, Resume, Cancel, CarriesEvent;
    match a
    case Work(claim, out) =>
      TakeCarries(run, claim, event);
      var taken := Take(run, claim);
      if run.queue[claim.id].def.nodeType.Foreach? {
        QueuedLoop(p0, p, run, claim.id);
      }
      HandleCarries(lim, taken, claim, out, event);
    case Tick(claim) =>
      var taken := TakeTimer(run, claim);
      RetimedCarries(run, taken, event);
      ResumeCarries(taken, run.timers[claim.id].node, "timer", JNull, event);
      RetimedCarries(Resume(taken, run.timers[claim.id].node, "timer", JNull), Next(lim, run, a), event);
    case Wake(n, payload) => ResumeCarries(run, n, "signal", payload, event);
    case Stop => CancelCarries(run, event);
  }

  lemma TakeCarries(run: Run, claim: Claim, event: Json)
    requires HasJob(run, claim.id) && CarriesEvent(run, event)
    ensures CarriesEvent(Take(run, claim), event)
  {
  }

  lemma RetimedCarries(run: Run, after: Run, event: Json)
    requires CarriesEvent(run, event) && after == run.(timers := after.timers)
    ensures CarriesEvent(after, event)
  {
  }

  lemma CancelCarries(run: Run, event: Json)
    requires CarriesEvent(run, event)
    ensures CarriesEvent(Cancel(run), event)
  {
    CancelIs(run);
    hide Cancel;
  }

  lemma {:induction false} HistoryCarries(lim: Limits, p0: Plan, p: Plan, runs: seq<Run>, acts: seq<Action>, event: Json, i: nat)
    requires IsForeachHistory(lim, p0, p, runs, acts) && i <= |acts| && EventFree(p0) && CarriesEvent(runs[0], event)
    ensures CarriesEvent(runs[i], event)
  {
    hide Tracks, Next, Supported, PlanAlong, EventFree, CarriesEvent;
    if i > 0 {
      HistoryCarries(lim, p0, p, runs, acts, event, i - 1);
      HistoryTracks(lim, p0, p, runs, acts, i - 1);
      assert Enabled(runs[i - 1], acts[i - 1]) && runs[i] == Next(lim, runs[i - 1], acts[i - 1]);
      StepCarries(lim, p0, PlanAlong(p, runs, acts[..i - 1]), runs[i - 1], acts[i - 1], event);
    }
  }

  // ----- the Wafer's event

  /** No foreach of the Wafer names its loop variable `event`. */
  predicate NoEventLoop(nodes: seq<WaferNode>) {
    forall i {:trigger nodes[i]} :: 0 <= i < |nodes| && nodes[i].nodeType.Foreach? ==> StrField(nodes[i].config, "as") != EVENT
  }

  lemma PlanEventFree(w: Wafer, reg: Registry, r: string, event: Json, p: Plan)
    requires PlanFor(w, reg, r, event, p) && NoEventLoop(w.nodes)
    ensures EventFree(p)
  {
    hide PlanFor, Carries, KnownDeps, IdAt;
    forall f | IsLoop(p, f)
      ensures p.jobs[f].loop.value.bodyAs != EVENT
    {
      var i := PlanNode(w, reg, r, event, p, f);
      PlanLoop(w, reg, r, event, p, i);
      LoopVariable(w.nodes[i].config, BodyId(p, f), p.jobs[f].loop.value.bodyAs);
    }
  }

  lemma LoopVariable(config: Json, body: string, asVar: string)
    requires ConfigSays(config, body, asVar) && StrField(config, "as") != EVENT
    ensures asVar != EVENT
  {
    assert EVENT[0] != "item"[0];
  }

  lemma StartCarries(was: Run, counts: map<NodeId, int>, head: NodeJob, event: Json)
    requires IdsOk(was) && Clear(was) && EventOf(head.input) == event
    requires was.saved.Some? ==> EventOf(was.saved.value.input) == event
    ensures CarriesEvent(Started(was, counts, head), event)
  {
    hide Started, LiveJobs, LiveRows, IdsOk;
    StartedBooks(was, counts, head);
  }

  /**
   In every state of every history of a run that was started over nothing live, also with foreach nodes unless one
   calls its items the event: every queued job, parked wait, completion and saved job has the event of the start. So
   a restart, which begins with the event stored with the saved job, has the same event again if it is an object or null.
   */
  lemma WaferEvent(lim: Limits, w: Wafer, reg: Registry, r: string, event: Json, was: Run, runs: seq<Run>,
          acts: seq<Action>, i: nat)
    requires Bounded(lim) && IsHistory(lim, runs, acts) && i <= |acts| && NoEventLoop(w.nodes)
    requires forall i :: 0 <= i < |acts| ==> Supported(runs[i], acts[i])
    requires StartedOver(w, reg, r, event, was, runs[0]) && IdsOk(was) && Clear(was)
    requires was.saved.Some? ==> EventOf(was.saved.value.input) == event
    ensures forall k :: k in runs[i].queue ==> EventOf(runs[i].queue[k].input) == event
    ensures forall n :: n in runs[i].parked ==> EventOf(runs[i].parked[n].input) == event
    ensures forall j :: 0 <= j < |runs[i].history| ==> EventOf(runs[i].history[j].input) == event
    ensures runs[i].saved.Some? ==> EventOf(runs[i].saved.value.input) == event
    ensures runs[i].saved.Some? && (event.JObj? || event.JNull?) ==> SavedEvent(runs[i].saved.value) == event
  {
    hide PlanFor, StartedOver, Next, IdsOk, Clear, RunsWafer, Tracks, Supported, EventFree, NoEventLoop, Startable, Started, EventOf;
    var p := StartedIsOk(w, reg, r, event, was, runs[0]);
    var q, counts, head := StartParts(w, reg, r, event, was, runs[0]);
    var seed := PlanSeed(w, reg, r, event, q);
    SoleSeed(q, counts, head, seed);
    StartCarries(was, counts, head, event);
    PlanEventFree(w, reg, r, event, p);
    HistoryCarries(lim, p, p, runs, acts, event, i);
  }
}
