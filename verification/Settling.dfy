/** Runs with foreach schedulers settle too: every fan-out uses up a scheduler. */
module Settling {
  import opened Values
  import opened Jobs
  import opened Runs
  import opened Plans
  import opened Invariant
  import opened Handlers
  import opened Steps
  import opened Outcomes
  import opened ForeachRuns
  import opened Unfolding
  import opened Termination

  /** The schedulers of the plan `p0` that have not completed. */
  ghost function Schedulers(p0: Plan, h: seq<Completion>): set<NodeId> {
    set n | n in p0.jobs && p0.jobs[n].def.nodeType.Foreach? && n !in DoneSet(h)
  }

  lemma {:induction false} FewerLeft(a: set<NodeId>, b: set<NodeId>)
    requires a <= b
    ensures |a| <= |b| && (a != b ==> |a| < |b|)
  {
    assert b == a + (b - a);
    assert a != b ==> b - a != {};
  }

  lemma NoMoreLeft(p0: Plan, h: seq<Completion>, h': seq<Completion>)
    requires h <= h'
    ensures |Schedulers(p0, h')| <= |Schedulers(p0, h)|
    ensures forall f :: f in Schedulers(p0, h) && f in DoneSet(h') ==> |Schedulers(p0, h')| < |Schedulers(p0, h)|
  {
    DoneGrows(h, h');
    hide DoneSet;
    FewerLeft(Schedulers(p0, h'), Schedulers(p0, h));
  }

  /** The scheduler a step completes was one of those left. */
  lemma FanningLeft(p0: Plan, p: Plan, run: Run, a: Action)
    requires Tracks(p0, p, run) && Enabled(run, a) && Fanning(run, a)
    ensures run.queue[a.claim.id].nodeId in Schedulers(p0, run.history)
  {
    var n := run.queue[a.claim.id].nodeId;
    hide RunInv, JobFor, WfPlan, HistoryOk, DoneSet;
    OpenNode(p, run, a.claim.id);
    SchedulerParts(p, run, a.claim.id);
    assert NewOk(p0, p, run.history, n);
    assert n in p0.jobs ==> NodeOk(p0, p, run.history, n);
  }

  /** A fan-out, also one over nothing, uses up its scheduler and brings in no other. */
  lemma FanLeaves(lim: Limits, p0: Plan, p: Plan, run: Run, a: Action)
    requires Bounded(lim) && Tracks(p0, p, run) && Enabled(run, a) && Supported(run, a) && Fanning(run, a)
    ensures |Schedulers(p0, Next(lim, run, a).history)| < |Schedulers(p0, run.history)|
  {
    hide Tracks, Next, Supported, PlanAfter, Schedulers, DoneSet;
    StepTracks(lim, p0, p, run, a);
    FanningLeft(p0, p, run, a);
    NoMoreLeft(p0, run.history, Next(lim, run, a).history);
  }

  /** Either a scheduler fewer is left, or as many and the run is closer to rest along the same plan. */
  ghost predicate Nearer(lim: Limits, p0: Plan, p: Plan, run: Run, p': Plan, after: Run) {
    || |Schedulers(p0, after.history)| < |Schedulers(p0, run.history)|
    || (p' == p && |Schedulers(p0, after.history)| <= |Schedulers(p0, run.history)| && Closer(lim, p, after, run))
  }

  lemma OrdinaryNearer(lim: Limits, p0: Plan, p: Plan, run: Run, a: Action)
    requires Bounded(lim) && Tracks(p0, p, run) && Enabled(run, a) && Ordinary(run, a) && (a.Work? || a.Tick?)
    ensures Nearer(lim, p0, p, run, p, Next(lim, run, a))
  {
    hide RunInv, Unfolds, Next, Closer, DoneSet, Schedulers;
    StepHistory(lim, p, run, a);
    NoMoreLeft(p0, run.history, Next(lim, run, a).history);
    WorkerStepCloser(lim, p, run, a);
  }

  lemma BelowNext(run: Run, id: nat)
    requires IdsOk(run) && id in run.queue
    ensures id < run.nextId
  {
  }

  /** A scheduler's job that is dropped or fails. */
  lemma IdleNearer(lim: Limits, p0: Plan, p: Plan, run: Run, a: Action)
    requires Bounded(lim) && Tracks(p0, p, run) && Enabled(run, a) && !Ordinary(run, a) && !Fanning(run, a)
    ensures Nearer(lim, p0, p, run, p, Next(lim, run, a))
  {
    Scheduled(p0, p, run, a);
    var cause := IdleIs(lim, run, a);
    hide RunInv, Unfolds, Closer, DoneSet, RecordFailure, Shelve, Fanning, Schedulers, Next;
    Books(p, run);
    TakeKeeps(p, run, a.claim);
    BelowNext(run, a.claim.id);
    if run.status != Running && run.status != Waiting {
      ShelvedHistory(Take(run, a.claim), a.claim);
      DroppedCloser(lim, p, run, a.claim);
    } else {
      RecordFailureKeeps(lim, p, Take(run, a.claim), a.claim, cause);
      FailedCloser(lim, p, run, a.claim, cause);
    }
  }

  lemma IdleIs(lim: Limits, run: Run, a: Action) returns (cause: Cause)
    requires Enabled(run, a) && !Ordinary(run, a)
    requires run.status == Running || run.status == Waiting ==>
               !run.queue[a.claim.id].skip && !(a.out.Output? && a.out.value.JArr?)
    ensures Next(lim, run, a) ==
            if run.status != Running && run.status != Waiting then Shelve(Take(run, a.claim), a.claim, Dropped)
            else RecordFailure(lim, Take(run, a.claim), a.claim, cause)
  {
    hide RecordFailure, Shelve;
    cause := if a.out.Broke? then a.out.cause else OtherCause;
  }

  lemma ShelvedHistory(run: Run, claim: Claim)
    ensures Shelve(run, claim, Dropped).history == run.history
  {
  }

  /** A scheduler's job that is neither skipped nor served a list is dropped or fails. */
  lemma Scheduled(p0: Plan, p: Plan, run: Run, a: Action)
    requires Tracks(p0, p, run) && Enabled(run, a) && !Ordinary(run, a) && !Fanning(run, a)
    ensures a.Work?
    ensures run.status == Running || run.status == Waiting ==>
              !run.queue[a.claim.id].skip && !(a.out.Output? && a.out.value.JArr?)
  {
    hide RunInv, Unfolds;
    TakeKeeps(p, run, a.claim);
    TakenTracks(p0, p, run, a.claim);
    var b := TrackedScheduler(p0, p, Take(run, a.claim), a.claim);
  }

  lemma TakenTracks(p0: Plan, p: Plan, run: Run, claim: Claim)
    requires Tracks(p0, p, run) && HasJob(run, claim.id) && run.rows[claim.id].place == Live
    ensures Tracks(p0, p, Take(run, claim)) && ClaimValid(Take(run, claim), claim)
  {
    hide RunInv, Unfolds;
    TakeKeeps(p, run, claim);
  }

  /** Every supported step a worker takes brings the run nearer to rest, along the plan it then follows. */
  lemma StepNearer(lim: Limits, p0: Plan, p: Plan, run: Run, a: Action)
    requires Bounded(lim) && Tracks(p0, p, run)
    requires Enabled(run, a) && Supported(run, a) && (a.Work? || a.Tick?)
    ensures Tracks(p0, PlanAfter(p, run, a), Next(lim, run, a))
    ensures Nearer(lim, p0, p, run, PlanAfter(p, run, a), Next(lim, run, a))
  {
    hide Tracks, Next, Supported, Expand, Schedulers, DoneSet, Closer;
    StepTracks(lim, p0, p, run, a);
    if Fanning(run, a) {
      FanLeaves(lim, p0, p, run, a);
    } else if Ordinary(run, a) {
      OrdinaryNearer(lim, p0, p, run, a);
    } else {
      IdleNearer(lim, p0, p, run, a);
    }
  }

  /**
   The plan and the state in which a schedule leaves a run with foreach schedulers, started with the plan `p0`:
   at rest, or about to complete a scheduler without an item for its rejoins. That this is a function is the
   termination theorem: schedulers left, then nodes left, then attempts left, then timers.
   */
  ghost function SettleAll(lim: Limits, p0: Plan, p: Plan, run: Run, pick: Run -> Action): (rest: (Plan, Run))
    requires Bounded(lim) && Tracks(p0, p, run) && IsSchedule(pick)
    ensures Tracks(p0, rest.0, rest.1)
    ensures Busy(rest.1) ==> !Supported(rest.1, pick(rest.1))
    decreases |Schedulers(p0, run.history)|, NodesLeft(p, run), Load(run.rows, lim.queueMax, run.nextId), |run.timers|
  {
    hide Tracks, Expand, DoneSet, Schedulers, Next;
    if !Busy(run) || !Supported(run, pick(run)) then (p, run)
    else
      StepNearer(lim, p0, p, run, pick(run));
      SettleAll(lim, p0, PlanAfter(p, run, pick(run)), Next(lim, run, pick(run)), pick)
  }

  /**
   A run at rest, for the plan it was started with: if it is still running, every node completed, the last by a
   resume; if it waits, nothing is pending; and it is marked completed exactly when every node completed, the
   last by a commit.
   */
  lemma WaferAtRest(p0: Plan, p: Plan, run: Run)
    requires Tracks(p0, p, run) && !Busy(run) && p0.jobs != map[]
    ensures run.status == Running ==>
              WaferDone(p0, run.history) && run.history != [] && run.history[|run.history| - 1].how == ByResume
    ensures run.status == Waiting ==> run.pending == 0
    ensures run.status == Completed ==> WaferDone(p0, run.history)
  {
    hide RunInv, Unfolds, AllDone, WaferDone, Busy;
    NotEmpty(p0, p, run.history);
    AllDoneIsWafer(p0, p, run);
    AtRest(p, run);
    if run.status != Cancelled {
      CompletedWafer(p0, p, run);
    }
  }
}
