/** One atomic step of a run, and the run invariant across every step and every history of steps. */
module Steps {
  import opened Values
  import opened Jobs
  import opened Runs
  import opened Plans
  import opened Invariant
  import opened Landing
  import opened Handlers
  import opened Preservation

  /** A step: a worker claims and handles a job, a timer fires, a signal wakes a wait, or the run is cancelled. */
  datatype Action =
    | Work(claim: Claim, out: Outcome)
    | Tick(claim: Claim)
    | Wake(node: NodeId, payload: Json)
    | Stop

  predicate Enabled(run: Run, a: Action) {
    match a
    case Work(claim, out) =>
      HasJob(run, claim.id) && run.rows[claim.id].place == Live && Fits(run.queue[claim.id], out)
    case Tick(claim) => claim.id in run.timers
    case Wake(_, _) => true
    case Stop => true
  }

  function TakeTimer(run: Run, claim: Claim): Run
    requires claim.id in run.timers
  {
    run.(timers := run.timers[claim.id := run.timers[claim.id].(owner := Some(claim.worker))])
  }

  function Next(lim: Limits, run: Run, a: Action): Run
    requires Enabled(run, a)
  {
    match a
    case Work(claim, out) => Handle(lim, Take(run, claim), claim, out)
    case Tick(claim) => FireTimer(TakeTimer(run, claim), claim)
    case Wake(n, payload) => Resume(run, n, "signal", payload)
    case Stop => Cancel(run)
  }

  /** The worker gives up no later than the queue does. */
  predicate Bounded(lim: Limits) {
    lim.secretRetries <= lim.queueMax && lim.maxAttempts <= lim.queueMax
  }

  /** How many claims a job gets that fails for the cause each time. A claimed job has had one. */
  function ClaimsFor(lim: Limits, cause: Cause): nat {
    var retries := match cause
      case SecretMissing => 0
      case SourceUnreachable => lim.secretRetries
      case SecretStale => lim.secretRetries
      case OtherCause => lim.maxAttempts;
    if retries == 0 then 1 else retries
  }

  ghost predicate ForeachFree(p: Plan) {
    forall n :: n in p.jobs ==> !p.jobs[n].def.nodeType.Foreach?
  }

  // ----- steps that only move bookkeeping

  lemma TakeKeeps(p: Plan, run: Run, claim: Claim)
    requires RunInv(p, run) && HasJob(run, claim.id) && run.rows[claim.id].place == Live
    ensures RunInv(p, Take(run, claim)) && ClaimValid(Take(run, claim), claim)
  {
    hide Core, Covered, ResultsOk;
    if run.status == Failed {
      var k :| k in run.rows && run.rows[k].place == Dead;
      assert Take(run, claim).rows[k].place == Dead;
    }
  }

  lemma ShelveKeeps(p: Plan, run: Run, claim: Claim, place: Place)
    requires RunInv(p, run) && ClaimValid(run, claim)
    requires run.status != Running && run.status != Waiting && place != Live
    ensures RunInv(p, Shelve(run, claim, place))
  {
    hide Core, Covered, ResultsOk;
    if run.status == Failed {
      var k :| k in run.rows && run.rows[k].place == Dead;
      assert Shelve(run, claim, place).rows[k].place == Dead;
    }
  }

  /** A failed attempt of a node that has not completed leaves the completed results alone. */
  lemma FailureKeepsResults(h: seq<Completion>, results: map<NodeId, Json>, n: NodeId, r: Json)
    requires ResultsOk(h, results) && n !in DoneSet(h)
    ensures ResultsOk(h, results[n := r])
  {
    forall i | 0 <= i < |h|
      ensures h[i].node != n
    {
      assert h[i].node in DoneSet(h);
    }
  }

  lemma FailKeeps(p: Plan, run: Run, claim: Claim)
    requires RunInv(p, run) && (run.status == Running || run.status == Waiting) && ClaimValid(run, claim)
    ensures RunInv(p, Shelve(run, claim, Dead).(status := Failed))
  {
    hide Core, Covered, ResultsOk;
    assert Shelve(run, claim, Dead).rows[claim.id].place == Dead;
  }

  lemma RetryKeeps(lim: Limits, p: Plan, run: Run, claim: Claim)
    requires RunInv(p, run) && (run.status == Running || run.status == Waiting) && ClaimValid(run, claim)
    requires run.rows[claim.id].attempts < lim.queueMax
    ensures RunInv(p, Retry(lim, run, claim))
  {
    hide Core, Covered, ResultsOk;
  }

  /** Fields the invariant does not constrain may change; so may the result rows of open nodes. */
  lemma RowsElsewhere(p: Plan, run: Run, n: NodeId, r: Json, saved: Option<NodeJob>)
    requires RunInv(p, run) && n !in DoneSet(run.history)
    ensures RunInv(p, run.(results := run.results[n := r], saved := saved))
  {
    hide Core, Covered, DoneSet;
    assert ResultsOk(run.history, run.results[n := r]) by {
      FailureKeepsResults(run.history, run.results, n, r);
    }
    hide ResultsOk;
  }

  lemma OpenNode(p: Plan, run: Run, id: nat)
    requires RunInv(p, run) && id in run.queue
    ensures run.queue[id].nodeId !in DoneSet(run.history)
  {
    NewResult(p, run, id);
  }

  /**
   A failed attempt keeps the invariant exactly when it is the last claim that the cause allows, or the queue allows
   more. Past that, the queue dead-letters the job while the run stays running.
   */
  lemma RecordFailureExactly(lim: Limits, p: Plan, run: Run, claim: Claim, cause: Cause)
    requires RunInv(p, run) && (run.status == Running || run.status == Waiting) && ClaimValid(run, claim)
    ensures RunInv(p, RecordFailure(lim, run, claim, cause)) <==>
            Terminal(lim, cause, run.rows[claim.id].attempts) || run.rows[claim.id].attempts < lim.queueMax
    ensures var n := run.rows[claim.id].attempts;
            n > 0 ==> (RunInv(p, RecordFailure(lim, run, claim, cause)) <==> n >= ClaimsFor(lim, cause) || n < lim.queueMax)
  {
    hide RunInv, EffectiveInput, FailureResult, DoneSet;
    var attempts := run.rows[claim.id].attempts;
    if Terminal(lim, cause, attempts) || attempts < lim.queueMax {
      OpenNode(p, run, claim.id);
      var job := run.queue[claim.id];
      var saved := if Terminal(lim, cause, attempts) then Some(job.(input := EffectiveInput(run.results, job))) else run.saved;
      RowsElsewhere(p, run, job.nodeId, FailureResult(cause), saved);
      var written := run.(results := run.results[job.nodeId := FailureResult(cause)], saved := saved);
      if Terminal(lim, cause, attempts) {
        FailKeeps(p, written, claim);
      } else {
        RetryKeeps(lim, p, written, claim);
      }
    } else {
      SilentlyDead(lim, run, claim, cause);
      OpenAllLive(p, RecordFailure(lim, run, claim, cause), claim.id);
    }
  }

  lemma SilentlyDead(lim: Limits, run: Run, claim: Claim, cause: Cause)
    requires ClaimValid(run, claim) && !Terminal(lim, cause, run.rows[claim.id].attempts)
    requires run.rows[claim.id].attempts >= lim.queueMax
    ensures var after := RecordFailure(lim, run, claim, cause);
            claim.id in after.rows && after.rows[claim.id].place == Dead && after.status == run.status
  {
    hide FailureResult, EffectiveInput;
  }

  lemma OpenAllLive(p: Plan, run: Run, id: nat)
    requires id in run.rows && run.rows[id].place == Dead && (run.status == Running || run.status == Waiting)
    ensures !RunInv(p, run)
  {
    hide Core, Covered, ResultsOk, IdsOk;
  }

  lemma RecordFailureKeeps(lim: Limits, p: Plan, run: Run, claim: Claim, cause: Cause)
    requires Bounded(lim)
    requires RunInv(p, run) && (run.status == Running || run.status == Waiting) && ClaimValid(run, claim)
    ensures RunInv(p, RecordFailure(lim, run, claim, cause))
    ensures RecordFailure(lim, run, claim, cause).history == run.history
  {
    hide RunInv, EffectiveInput, FailureResult;
    RecordFailureExactly(lim, p, run, claim, cause);
  }

  // ----- parking and resuming

  lemma ParkCore(p: Plan, h: seq<Completion>, remaining: map<NodeId, int>, queue: map<nat, NodeJob>,
          parked: map<NodeId, Continuation>,
                 job: NodeJob, signal: string, runAt: int)
    requires Core(p, h, remaining, queue, parked) && Covered(p, h, queue, parked, {job.nodeId})
    requires Outstanding(p, h, job.nodeId) && job == JobFor(p, h, job.nodeId)
    requires job.def.nodeType.Wait? && !job.skip && !HasToken(queue, job.nodeId)
    ensures var parked' := parked[job.nodeId := ContinuationOf(job, signal, runAt)];
            Core(p, h, remaining, queue, parked') && Covered(p, h, queue, parked', {})
  {
    hide WfPlan, HistoryOk, CountsOk, TokensOk;
  }

  lemma ParkIds(run: Run, claim: Claim, signal: string, runAt: int)
    requires IdsOk(run) && AllLive(run) && ClaimValid(run, claim)
    ensures IdsOk(Park(run, claim, signal, runAt)) && AllLive(Park(run, claim, signal, runAt))
  {
  }

  lemma ParkKeeps(p: Plan, run: Run, claim: Claim, signal: string, runAt: int)
    requires RunInv(p, run) && (run.status == Running || run.status == Waiting) && ClaimValid(run, claim)
    requires run.queue[claim.id].def.nodeType.Wait? && !run.queue[claim.id].skip
    ensures RunInv(p, CheckComplete(Park(run, claim, signal, runAt)))
    ensures CheckComplete(Park(run, claim, signal, runAt)) == Park(run, claim, signal, runAt)
  {
    hide Core, Covered, ResultsOk, Outstanding, JobFor, HasToken, IdsOk, AllLive;
    Detach(p, run, claim.id);
    ParkIds(run, claim, signal, runAt);
    var job := run.queue[claim.id];
    ParkCore(p, run.history, run.remaining, Remove(run, claim.id).queue, run.parked, job, signal, runAt);
    var after := Park(run, claim, signal, runAt);
    assert job.nodeId in after.parked;
    ParkIs(run, claim, signal, runAt);
    hide Park, ContinuationOf;
  }

  lemma ParkIs(run: Run, claim: Claim, signal: string, runAt: int)
    requires ClaimValid(run, claim)
    ensures var after := Park(run, claim, signal, runAt); var job := run.queue[claim.id];
            && after == run.(status := Waiting, pending := run.pending - 1, queue := Remove(run, claim.id).queue,
                             parked := run.parked[job.nodeId := ContinuationOf(job, signal, runAt)],
                             rows := after.rows, timers := after.timers, nextId := after.nextId)
  {
  }

  /** Unparking a wait leaves its node the only one unaccounted for, and about to complete. */
  lemma Unpark(p: Plan, run: Run, n: NodeId, source: string, payload: Json)
    requires Core(p, run.history, run.remaining, run.queue, run.parked)
    requires Covered(p, run.history, run.queue, run.parked, {})
    requires n in run.parked
    ensures var c := Waking(run.parked[n], source, payload); var parked := run.parked - {n};
            && c.node == n && n !in DoneSet(run.history)
            && Core(p, run.history, run.remaining, run.queue, parked)
            && Covered(p, run.history, run.queue, parked, {n})
            && InFlight(p, run.history, run.queue, parked, c)
            && run.parked[n].dependents == p.jobs[n].dependents
            && run.parked[n].downstream == p.jobs[n].downstream
  {
    hide WfPlan, HistoryOk, CountsOk, TokensOk, JobFor;
    ParkedShape(p, run, n);
  }

  lemma ParkedShape(p: Plan, run: Run, n: NodeId)
    requires Core(p, run.history, run.remaining, run.queue, run.parked) && n in run.parked
    ensures n in p.jobs && p.jobs[n].def.nodeType.Wait?
    ensures JobFor(p, run.history, n).nodeId == n
    ensures run.parked[n].dependents == p.jobs[n].dependents && run.parked[n].downstream == p.jobs[n].downstream
  {
    JobShape(p, run.history, n);
  }

  lemma {:induction false} EnqueueIgnoresParked(run: Run, parked: map<NodeId, Continuation>, jobs: seq<NodeJob>)
    ensures Enqueue(run.(parked := parked), jobs) == Enqueue(run, jobs).(parked := parked)
    ensures Enqueue(run, jobs).parked == run.parked && Enqueue(run, jobs).status == run.status
  {
    if jobs != [] {
      EnqueueIgnoresParked(run, parked, jobs[..|jobs| - 1]);
    }
  }

  /** A resume is the fan-out of its wait's completion, whether the wait is unparked before or after it. */
  lemma ResumeIs(run: Run, n: NodeId, source: string, payload: Json, fanned: Run, count: nat)
    requires run.status == Waiting && n in run.parked && run.parked[n].nodeId == n
    requires var c := Waking(run.parked[n], source, payload);
             FanOut(Written(run.(parked := run.parked - {n}), c), run.parked[n].dependents, NextJobs(c, run.parked[n].downstream))
             == Some((fanned, count))
    ensures fanned.parked == run.parked - {n}
    ensures Resume(run, n, source, payload) == fanned.(
                                                 pending := fanned.pending + count,
                                                 status := if fanned.parked == map[] then Running else Waiting)
  {
    hide Decrement, ReadyJobs, Enqueue, NextJobs;
    var cont := run.parked[n];
    var c := Waking(cont, source, payload);
    var (m, ready) := Decrement(run.remaining, cont.dependents).value;
    var jobs := ReadyJobs(cont.dependents, ready, NextJobs(c, cont.downstream));
    EnqueueIgnoresParked(Written(run, c).(remaining := m), run.parked - {n}, jobs);
    assert Written(run, c).(remaining := m, parked := run.parked - {n}) == Written(run.(parked := run.parked - {n}), c).(remaining := m);
  }

  /** What a resume of a parked wait does, with every clause but the status one. */
  lemma ResumeLands(p: Plan, run: Run, n: NodeId, source: string, payload: Json) returns (after: Run, ids: seq<NodeId>)
    requires RunInv(p, run) && run.status == Waiting && n in run.parked
    ensures after == Resume(run, n, source, payload)
    ensures var c := Waking(run.parked[n], source, payload);
            && c.node == n
            && Frontier(p, DoneSet(run.history), n, ids) && (forall m :: m in ids ==> m in p.jobs)
            && after == Written(run, c).(
                 status := if run.parked - {n} == map[] then Running else Waiting,
                 parked := run.parked - {n},
                 pending := |after.queue|,
                 remaining := after.remaining,
                 queue := Grown(p, run.queue, run.nextId, c, ids),
                 rows := after.rows,
                 nextId := run.nextId + |ids|)
    ensures IdsOk(after) && AllLive(after)
    ensures Core(p, after.history, after.remaining, after.queue, after.parked)
    ensures Covered(p, after.history, after.queue, after.parked, {})
  {
    hide Core, Covered, ResultsOk, InFlight, Frontier, Grown, FanOut, NextJobs, FreshRows, Resume, DoneSet, IdsOk, AllLive;
    hide WakeResult, Outstanding, JobFor, Launched, RunInv;
    var cont := run.parked[n];
    var c := Waking(cont, source, payload);
    WaitingParts(p, run);
    Unpark(p, run, n, source, payload);
    var bare := run.(parked := run.parked - {n});
    BareIds(run, bare.parked);
    var fanned, ids' := FanOutLands(p, bare, c);
    ids := ids';
    FanOutIds(p, bare, c, ids, fanned);
    FreshRowsLive(bare, |ids|, fanned);
    ResumeIs(run, n, source, payload, fanned, |ids|);
    after := Resume(run, n, source, payload);
    SameIds(fanned, after);
  }

  lemma WaitingParts(p: Plan, run: Run)
    requires RunInv(p, run) && run.status == Waiting
    ensures IdsOk(run) && AllLive(run) && run.pending == |run.queue|
    ensures Core(p, run.history, run.remaining, run.queue, run.parked)
    ensures Covered(p, run.history, run.queue, run.parked, {})
  {
    hide Core, Covered, ResultsOk, IdsOk, AllLive;
  }

  lemma ResumeKeeps(p: Plan, run: Run, n: NodeId, source: string, payload: Json)
    requires RunInv(p, run)
    ensures RunInv(p, Resume(run, n, source, payload))
    ensures run.status == Waiting && n in run.parked ==>
              Resume(run, n, source, payload).history == run.history + [Waking(run.parked[n], source, payload)]
  {
    if run.status == Waiting && n in run.parked {
      hide Core, Covered, ResultsOk, Frontier, Grown, Resume, DoneSet, IdsOk, AllLive, StatusOk;
      var c := Waking(run.parked[n], source, payload);
      var after, ids := ResumeLands(p, run, n, source, payload);
      ParkedNode(p, run, n);
      ResultsAppend(run.history, c, run.results);
      ResumeStatus(run, after, n, c);
    }
  }

  lemma ResumeStatus(run: Run, after: Run, n: NodeId, c: Completion)
    requires StatusOk(run) && run.status == Waiting && c.how == ByResume
    requires after.status == (if run.parked - {n} == map[] then Running else Waiting)
    requires after.parked == run.parked - {n} && after.history == run.history + [c]
    requires after.fired == run.fired && AllLive(after)
    ensures StatusOk(after)
  {
  }

  lemma ParkedNode(p: Plan, run: Run, n: NodeId)
    requires RunInv(p, run) && n in run.parked
    ensures n !in DoneSet(run.history)
  {
  }

  lemma BareIds(run: Run, parked: map<NodeId, Continuation>)
    requires IdsOk(run)
    ensures IdsOk(run.(parked := parked)) && (AllLive(run) ==> AllLive(run.(parked := parked)))
    ensures forall k :: k in run.queue ==> k < run.nextId
  {
  }

  lemma SameIds(run: Run, after: Run)
    requires IdsOk(run) && AllLive(run)
    requires after == run.(pending := after.pending, status := after.status)
    ensures IdsOk(after) && AllLive(after)
  {
  }

  // ----- timers, cancelling, claimed jobs

  lemma TimersElsewhere(p: Plan, run: Run, timers: map<nat, Timer>)
    requires RunInv(p, run) && timers.Keys <= run.timers.Keys
    ensures RunInv(p, run.(timers := timers))
  {
    hide Core, Covered, ResultsOk;
    assert forall k :: k in timers ==> k in run.timers;
  }

  lemma ResumeKeepsTimers(run: Run, n: NodeId, source: string, payload: Json)
    ensures Resume(run, n, source, payload).timers == run.timers
  {
    if run.status == Waiting && n in run.parked {
      hide Decrement, ReadyJobs, Enqueue, NextJobs;
      var cont := run.parked[n];
      var c := Waking(cont, source, payload);
      match Decrement(run.remaining, cont.dependents)
      case None =>
      case Some((m, ready)) =>
        var written := run.(results := run.results[cont.nodeId := c.result], history := run.history + [c]);
        EnqueueSpec(written.(remaining := m), ReadyJobs(cont.dependents, ready, NextJobs(c, cont.downstream)));
    }
  }

  lemma TickKeeps(p: Plan, run: Run, claim: Claim)
    requires RunInv(p, run) && claim.id in run.timers
    ensures RunInv(p, FireTimer(TakeTimer(run, claim), claim))
  {
    hide RunInv, Resume;
    TimersElsewhere(p, run, TakeTimer(run, claim).timers);
    var n := run.timers[claim.id].node;
    ResumeKeeps(p, TakeTimer(run, claim), n, "timer", JNull);
    ResumeKeepsTimers(TakeTimer(run, claim), n, "timer", JNull);
    var resumed := Resume(TakeTimer(run, claim), n, "timer", JNull);
    TimersElsewhere(p, resumed, resumed.timers - {claim.id});
  }

  lemma StopKeeps(p: Plan, run: Run)
    requires RunInv(p, run)
    ensures RunInv(p, Cancel(run))
  {
    hide WfPlan, HistoryOk, CountsOk, TokensOk, Covered, ResultsOk, IdsOk, AllLive, Cancel;
    CancelIs(run);
    CancelIds(run);
  }

  lemma CancelIs(run: Run)
    ensures var after := Cancel(run);
            && after == run.(status := Cancelled, rows := after.rows, timers := after.timers, parked := map[])
            && after.rows.Keys == run.rows.Keys && after.timers.Keys <= run.timers.Keys
  {
    hide Discard, Discarded;
  }

  lemma CancelIds(run: Run)
    requires IdsOk(run)
    ensures IdsOk(Cancel(run))
  {
    hide Cancel;
    CancelIs(run);
    var after := Cancel(run);
    assert forall k :: k in after.rows <==> k in run.rows;
    assert forall k :: k in after.timers ==> k in run.timers;
  }

  lemma FinishedKeeps(lim: Limits, p: Plan, run: Run, claim: Claim, c: Completion)
    requires RunInv(p, run) && (run.status == Running || run.status == Waiting)
    requires MayFinish(run, claim, c)
    ensures RunInv(p, FinishOrFail(lim, run, claim, c))
    ensures FinishOrFail(lim, run, claim, c) == Finish(run, claim, c)
    ensures Finish(run, claim, c).history == run.history + [c]
  {
    FinishPreserves(p, run, claim, c);
    hide Core, Covered, ResultsOk, Grown, Frontier, CommitAtom, AtomOf, OutcomeOk, StatusOk, RecordFailure;
    var committed, ids := CommitLands(p, run, claim, c);
  }

  /** The completion record a handled job leaves, if it completes. */
  function CompletionOf(run: Run, job: NodeJob, out: Outcome): Option<Completion> {
    if job.skip then Some(Completing(job, None, job.input, SKIPPED))
    else
      match out
      case Broke(_) => None
      case WaitFor(signal, _, buffered) =>
        if buffered.Some? && signal != "" then Some(Completing(job, None, job.input, WakeResult("signal", buffered.value))) else None
      case Output(value) =>
        match job.def.nodeType
        case Switch =>
          if value.JStr? && value.s != "" then Some(Completing(job, Some(value.s), job.input, BranchResult(value.s))) else None
        case Foreach => None
        case _ => Some(Completing(job, None, EffectiveInput(run.results, job), value))
  }

  lemma CompletionFits(run: Run, claim: Claim, out: Outcome)
    requires ClaimValid(run, claim) && Fits(run.queue[claim.id], out)
    requires !run.queue[claim.id].def.nodeType.Foreach?
    ensures var c := CompletionOf(run, run.queue[claim.id], out);
            c.Some? ==> MayFinish(run, claim, c.value)
  {
  }

  /** Handling a claimed job of an open run completes its node, parks it, or records a failure. */
  lemma HandleIs(lim: Limits, run: Run, claim: Claim, out: Outcome)
    requires ClaimValid(run, claim) && Fits(run.queue[claim.id], out)
    requires run.status == Running || run.status == Waiting
    requires !run.queue[claim.id].def.nodeType.Foreach?
    ensures var job := run.queue[claim.id]; var c := CompletionOf(run, job, out); var after := Handle(lim, run, claim, out);
            && (c.Some? ==> after == Finish(run, claim, c.value) || after == FinishOrFail(lim, run, claim, c.value))
            && (c.None? && out.WaitFor? ==> !job.skip && job.def.nodeType.Wait? && after == CheckComplete(Park(run, claim, out.signal, out.runAt)))
            && (c.None? && !out.WaitFor? ==> exists cause :: after == RecordFailure(lim, run, claim, cause))
  {
    hide Finish, FinishOrFail, Park, RecordFailure, CheckComplete;
    var job := run.queue[claim.id];
    if CompletionOf(run, job, out).None? && !out.WaitFor? {
      var cause := if out.Broke? then out.cause else OtherCause;
      assert Handle(lim, run, claim, out) == RecordFailure(lim, run, claim, cause);
    }
  }

  lemma WorkKeeps(lim: Limits, p: Plan, run: Run, claim: Claim, out: Outcome)
    requires Bounded(lim)
    requires RunInv(p, run) && ClaimValid(run, claim) && Fits(run.queue[claim.id], out)
    requires !run.queue[claim.id].def.nodeType.Foreach?
    ensures RunInv(p, Handle(lim, run, claim, out))
  {
    hide RunInv, Finish, FinishOrFail, Park, RecordFailure, CompletionOf, CheckComplete, MayFinish;
    if run.status != Running && run.status != Waiting {
      ShelveKeeps(p, run, claim, Dropped);
    } else {
      hide Handle;
      var c := CompletionOf(run, run.queue[claim.id], out);
      HandleIs(lim, run, claim, out);
      if c.Some? {
        CompletionFits(run, claim, out);
        FinishPreserves(p, run, claim, c.value);
        FinishedKeeps(lim, p, run, claim, c.value);
      } else if out.WaitFor? {
        ParkKeeps(p, run, claim, out.signal, out.runAt);
      } else {
        var cause :| Handle(lim, run, claim, out) == RecordFailure(lim, run, claim, cause);
        RecordFailureKeeps(lim, p, run, claim, cause);
      }
    }
  }

  // ----- every step, every history

  /** The job a step claims is not a foreach scheduler. */
  predicate Ordinary(run: Run, a: Action) {
    a.Work? && a.claim.id in run.queue ==> !run.queue[a.claim.id].def.nodeType.Foreach?
  }

  /** Every atomic step of a run keeps its invariant. */
  lemma StepKeeps(lim: Limits, p: Plan, run: Run, a: Action)
    requires Bounded(lim) && RunInv(p, run) && Enabled(run, a) && Ordinary(run, a)
    ensures RunInv(p, Next(lim, run, a))
  {
    hide RunInv, Handle, FireTimer, Resume, Cancel;
    match a
    case Work(claim, out) =>
      TakeKeeps(p, run, claim);
      WorkKeeps(lim, p, Take(run, claim), claim, out);
    case Tick(claim) => TickKeeps(p, run, claim);
    case Wake(n, payload) => ResumeKeeps(p, run, n, "signal", payload);
    case Stop => StopKeeps(p, run);
  }

  /** `runs` is a history of steps: each state is the previous one after the step between them. */
  ghost predicate IsHistory(lim: Limits, runs: seq<Run>, acts: seq<Action>) {
    && |runs| == |acts| + 1
    && forall i :: 0 <= i < |acts| ==> Enabled(runs[i], acts[i]) && runs[i + 1] == Next(lim, runs[i], acts[i])
  }

  lemma NoForeachQueued(p: Plan, run: Run, id: nat)
    requires ForeachFree(p) && RunInv(p, run) && id in run.queue
    ensures !run.queue[id].def.nodeType.Foreach?
  {
    JobShape(p, run.history, run.queue[id].nodeId);
  }

  /** The invariant holds throughout every history of a foreach-free run that starts with it. */
  lemma {:induction false} HistoryKeeps(lim: Limits, p: Plan, runs: seq<Run>, acts: seq<Action>)
    requires Bounded(lim) && ForeachFree(p)
    requires IsHistory(lim, runs, acts) && RunInv(p, runs[0])
    ensures forall i :: 0 <= i < |runs| ==> RunInv(p, runs[i])
  {
    hide RunInv, Next, ForeachFree;
    if acts != [] {
      var n := |acts| - 1;
      HistoryKeeps(lim, p, runs[..n + 1], acts[..n]);
      assert RunInv(p, runs[..n + 1][n]);
      assert Enabled(runs[n], acts[n]);
      if acts[n].Work? {
        NoForeachQueued(p, runs[n], acts[n].claim.id);
      }
      StepKeeps(lim, p, runs[n], acts[n]);
      forall i | 0 <= i < |runs|
        ensures RunInv(p, runs[i])
      {
        if i <= n {
          assert runs[..n + 1][i] == runs[i];
        }
      }
    }
  }
}
