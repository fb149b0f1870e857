/** Between external signals every run settles, whichever job or timer is served next. */
module Termination {
  import opened Values
  import opened Jobs
  import opened Runs
  import opened Plans
  import opened Invariant
  import opened Landing
  import opened Handlers
  import opened Preservation
  import opened Steps
  import opened Outcomes

  /** The attempts a job may still use, and one more for its place in the queue. */
  function RowLoad(rows: map<nat, Row>, max: nat, k: nat): nat {
    if k in rows && rows[k].place == Live
    then 1 + (if rows[k].attempts < max then max - rows[k].attempts else 0)
    else 0
  }

  function Load(rows: map<nat, Row>, max: nat, n: nat): nat {
    if n == 0 then 0 else Load(rows, max, n - 1) + RowLoad(rows, max, n - 1)
  }

  ghost function NodesLeft(p: Plan, run: Run): nat {
    |p.jobs.Keys - DoneSet(run.history)|
  }

  /** The run got closer to rest: fewer nodes left, or as many and less work queued, or as much and fewer timers. */
  ghost predicate Closer(lim: Limits, p: Plan, after: Run, run: Run) {
    || NodesLeft(p, after) < NodesLeft(p, run)
    || (NodesLeft(p, after) == NodesLeft(p, run)
        && (|| Load(after.rows, lim.queueMax, after.nextId) < Load(run.rows, lim.queueMax, run.nextId)
            || (Load(after.rows, lim.queueMax, after.nextId) == Load(run.rows, lim.queueMax, run.nextId)
                && |after.timers| < |run.timers|)))
  }

  /** One job's load went down and no other changed. */
  ghost predicate Lighter(rows: map<nat, Row>, rows': map<nat, Row>, max: nat, k: nat) {
    && (forall j :: j != k ==> RowLoad(rows', max, j) == RowLoad(rows, max, j))
    && RowLoad(rows', max, k) < RowLoad(rows, max, k)
  }

  lemma {:induction false} LoadLess(rows: map<nat, Row>, rows': map<nat, Row>, max: nat, n: nat, k: nat)
    requires Lighter(rows, rows', max, k)
    ensures k < n ==> Load(rows', max, n) < Load(rows, max, n)
    ensures k >= n ==> Load(rows', max, n) == Load(rows, max, n)
  {
    hide RowLoad;
    if n > 0 {
      LoadLess(rows, rows', max, n - 1, k);
    }
  }

  lemma CompletionCloser(lim: Limits, p: Plan, run: Run, after: Run, c: Completion)
    requires after.history == run.history + [c]
    requires c.node in p.jobs && c.node !in DoneSet(run.history)
    ensures Closer(lim, p, after, run)
  {
    DoneSetAppend(run.history, c);
    hide DoneSet, Load;
    assert p.jobs.Keys - DoneSet(run.history) == (p.jobs.Keys - DoneSet(after.history)) + {c.node};
  }

  lemma QueueCloser(lim: Limits, p: Plan, run: Run, after: Run, k: nat)
    requires after.history == run.history && k < run.nextId
    requires Lighter(run.rows, after.rows, lim.queueMax, k)
    requires after.nextId == run.nextId || (after.nextId == run.nextId + 1 && run.nextId !in after.rows)
    ensures Closer(lim, p, after, run)
  {
    LoadLess(run.rows, after.rows, lim.queueMax, run.nextId, k);
    LoadPad(after.rows, lim.queueMax, run.nextId);
    hide Load, DoneSet, Lighter;
  }

  lemma LoadPad(rows: map<nat, Row>, max: nat, n: nat)
    ensures n !in rows ==> Load(rows, max, n + 1) == Load(rows, max, n)
  {
  }

  lemma ShelvedLighter(lim: Limits, run: Run, claim: Claim, after: Run)
    requires HasJob(run, claim.id) && run.rows[claim.id].place == Live
    requires || after.rows == run.rows - {claim.id}
             || (after.rows.Keys == run.rows.Keys && (forall k :: k in run.rows && k != claim.id ==> after.rows[k] == run.rows[k])
                 && (after.rows[claim.id].place != Live
                     || run.rows[claim.id].attempts < after.rows[claim.id].attempts <= lim.queueMax))
    ensures Lighter(run.rows, after.rows, lim.queueMax, claim.id)
  {
  }

  lemma FailedCloser(lim: Limits, p: Plan, run: Run, claim: Claim, cause: Cause)
    requires Bounded(lim) && HasJob(run, claim.id) && run.rows[claim.id].place == Live && claim.id < run.nextId
    ensures Closer(lim, p, RecordFailure(lim, Take(run, claim), claim, cause), run)
  {
    hide Closer, Lighter, EffectiveInput, FailureResult;
    var after := RecordFailure(lim, Take(run, claim), claim, cause);
    ShelvedLighter(lim, run, claim, after);
    QueueCloser(lim, p, run, after, claim.id);
  }

  lemma DroppedCloser(lim: Limits, p: Plan, run: Run, claim: Claim)
    requires HasJob(run, claim.id) && run.rows[claim.id].place == Live && claim.id < run.nextId
    ensures Closer(lim, p, Shelve(Take(run, claim), claim, Dropped), run)
  {
    hide Closer, Lighter;
    var after := Shelve(Take(run, claim), claim, Dropped);
    ShelvedLighter(lim, run, claim, after);
    QueueCloser(lim, p, run, after, claim.id);
  }

  lemma ParkedCloser(lim: Limits, p: Plan, run: Run, claim: Claim, signal: string, runAt: int)
    requires IdsOk(run) && HasJob(run, claim.id) && run.rows[claim.id].place == Live
    ensures Closer(lim, p, Park(Take(run, claim), claim, signal, runAt), run)
  {
    hide Closer, Lighter;
    var after := Park(Take(run, claim), claim, signal, runAt);
    assert after.rows == run.rows - {claim.id};
    ShelvedLighter(lim, run, claim, after);
    QueueCloser(lim, p, run, after, claim.id);
  }

  lemma FinishedCloser(lim: Limits, p: Plan, run: Run, taken: Run, claim: Claim, c: Completion)
    requires RunInv(p, taken) && (taken.status == Running || taken.status == Waiting) && MayFinish(taken, claim, c)
    requires taken.history == run.history
    ensures Closer(lim, p, Finish(taken, claim, c), run)
    ensures FinishOrFail(lim, taken, claim, c) == Finish(taken, claim, c)
  {
    OpenNodes(p, taken);
    FinishedKeeps(lim, p, taken, claim, c);
    hide RunInv, Closer, Finish, FinishOrFail;
    CompletionCloser(lim, p, run, Finish(taken, claim, c), c);
  }

  lemma WorkCloser(lim: Limits, p: Plan, run: Run, claim: Claim, out: Outcome)
    requires Bounded(lim) && RunInv(p, run)
    requires HasJob(run, claim.id) && run.rows[claim.id].place == Live && Fits(run.queue[claim.id], out)
    requires !run.queue[claim.id].def.nodeType.Foreach?
    ensures Closer(lim, p, Handle(lim, Take(run, claim), claim, out), run)
  {
    var taken := Take(run, claim);
    TakeKeeps(p, run, claim);
    assert IdsOk(run);
    hide RunInv, CompletionOf, Finish, FinishOrFail, Closer, MayFinish, CheckComplete, Park, RecordFailure, Shelve;
    if run.status != Running && run.status != Waiting {
      DroppedCloser(lim, p, run, claim);
    } else {
      hide Handle;
      var c := CompletionOf(taken, run.queue[claim.id], out);
      HandleIs(lim, taken, claim, out);
      if c.Some? {
        CompletionFits(taken, claim, out);
        FinishedCloser(lim, p, run, taken, claim, c.value);
      } else if out.WaitFor? {
        ParkKeeps(p, taken, claim, out.signal, out.runAt);
        ParkedCloser(lim, p, run, claim, out.signal, out.runAt);
      } else {
        var cause :| Handle(lim, taken, claim, out) == RecordFailure(lim, taken, claim, cause);
        FailedCloser(lim, p, run, claim, cause);
      }
    }
  }

  lemma ParkedName(p: Plan, run: Run, n: NodeId)
    requires RunInv(p, run) && n in run.parked
    ensures run.parked[n].nodeId == n && n in p.jobs && n !in DoneSet(run.history)
  {
    ParkedShape(p, run, n);
  }

  /** A timer that finds nothing to resume is gone. */
  lemma LateTickCloser(lim: Limits, p: Plan, run: Run, claim: Claim)
    requires claim.id in run.timers
    requires run.status != Waiting || run.timers[claim.id].node !in run.parked
    ensures Closer(lim, p, FireTimer(TakeTimer(run, claim), claim), run)
  {
    hide Load, DoneSet;
    var after := FireTimer(TakeTimer(run, claim), claim);
    assert after.timers == run.timers - {claim.id};
    assert run.timers.Keys == after.timers.Keys + {claim.id};
  }

  lemma TickCloser(lim: Limits, p: Plan, run: Run, claim: Claim)
    requires RunInv(p, run) && claim.id in run.timers
    ensures Closer(lim, p, FireTimer(TakeTimer(run, claim), claim), run)
  {
    hide RunInv, Resume, Closer;
    var n := run.timers[claim.id].node;
    if run.status == Waiting && n in run.parked {
      var taken := TakeTimer(run, claim);
      TimersElsewhere(p, run, taken.timers);
      ResumeKeeps(p, taken, n, "timer", JNull);
      ResumeKeepsTimers(taken, n, "timer", JNull);
      ParkedName(p, run, n);
      CompletionCloser(lim, p, run, FireTimer(taken, claim), Waking(run.parked[n], "timer", JNull));
    } else {
      LateTickCloser(lim, p, run, claim);
    }
  }

  /** Each worker step brings the run closer to rest. */
  lemma WorkerStepCloser(lim: Limits, p: Plan, run: Run, a: Action)
    requires Bounded(lim) && RunInv(p, run) && Enabled(run, a) && Ordinary(run, a) && (a.Work? || a.Tick?)
    ensures Closer(lim, p, Next(lim, run, a), run)
  {
    hide RunInv, Closer, Handle, FireTimer;
    match a
    case Work(claim, out) => WorkCloser(lim, p, run, claim, out);
    case Tick(claim) => TickCloser(lim, p, run, claim);
  }

  /** Something a worker could claim. */
  ghost predicate Busy(run: Run) {
    (exists k :: k in run.queue && k in run.rows && run.rows[k].place == Live) || run.timers != map[]
  }

  /** A schedule: while there is something to claim, it claims something, with some outcome. */
  ghost predicate IsSchedule(pick: Run -> Action) {
    forall run :: Busy(run) ==> Enabled(run, pick(run)) && (pick(run).Work? || pick(run).Tick?)
  }

  /** The state in which a schedule leaves the run. That this is a function is the termination theorem. */
  ghost function Settle(lim: Limits, p: Plan, run: Run, pick: Run -> Action): (rest: Run)
    requires Bounded(lim) && ForeachFree(p) && RunInv(p, run) && IsSchedule(pick)
    ensures RunInv(p, rest) && !Busy(rest)
    decreases NodesLeft(p, run), Load(run.rows, lim.queueMax, run.nextId), |run.timers|
  {
    if !Busy(run) then run
    else
      var a := pick(run);
      assert Ordinary(run, a) by {
        if a.Work? && a.claim.id in run.queue {
          NoForeachQueued(p, run, a.claim.id);
        }
      }
      StepKeeps(lim, p, run, a);
      WorkerStepCloser(lim, p, run, a);
      Settle(lim, p, Next(lim, run, a), pick)
  }

  /**
   A run at rest is completed, failed, cancelled or waiting; or it is running with every node completed,
   the last of them by a resume.
   */
  lemma AtRest(p: Plan, run: Run)
    requires RunInv(p, run) && !Busy(run) && p.jobs != map[]
    ensures run.status == Running ==>
              AllDone(p, run) && run.pending == 0 && run.history != [] && run.history[|run.history| - 1].how == ByResume
    ensures run.status == Waiting ==> run.pending == 0
  {
    if run.status == Running || run.status == Waiting {
      assert forall k :: k in run.queue ==> k in run.rows;
      assert run.queue.Keys == {};
      PendingZero(p, run);
      CompletedExactly(p, run);
    }
  }
}
