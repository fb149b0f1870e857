/** Starting a run, and rerunning a failed one: when the run invariant holds again. */
module Restarts {
  import opened Values
  import opened Jobs
  import opened Runs
  import opened Plans
  import opened Invariant
  import opened Landing
  import opened Handlers
  import opened Preservation
  import opened Steps
  import opened Outcomes
  import ForeachRuns
  import opened Unfolding

  /** A new run row; other rows of a reused run id stay, and dead and dropped jobs leave the books. */
  function Created(was: Run): Run {
    was.(status := Running, pending := 1, history := [], fired := 0, queue := LiveJobs(was), rows := LiveRows(was))
  }

  /** The run row, counters and head job that a start writes. */
  function Started(run: Run, counts: map<NodeId, int>, head: NodeJob): Run {
    EnqueueOne(Created(run).(remaining := run.remaining + counts), head)
  }

  /**
   A new run row leaves the claims on the id's jobs as they were, and books only claimable jobs; with the head
   still to be enqueued, its pending count is right exactly when no job of an earlier run is claimable.
   */
  lemma CreatedBooks(was: Run)
    ensures var run := Created(was);
            && AllLive(run)
            && (IdsOk(was) ==> IdsOk(run))
            && (forall claim :: ClaimValid(run, claim) <==> ClaimValid(was, claim))
            && (run.pending == |run.queue| + 1 <==> LiveJobs(was) == map[])
  {
    assert |LiveJobs(was)| == |LiveJobs(was).Keys|;
  }

  const NO_RUN := Run(Running, 0, map[], map[], map[], map[], map[], map[], 0, None, [], 0)

  /** A plan with one root, whose seed is `head`, and the counters to start it with. */
  ghost predicate Startable(p: Plan, counts: map<NodeId, int>, head: NodeJob) {
    && WfPlan(p)
    && p.seeds == map[head.nodeId := head]
    && forall n :: n in p.jobs && n in p.deps ==> n in counts && counts[n] == |p.deps[n]|
  }

  lemma StartedCore(p: Plan, remaining: map<NodeId, int>, counts: map<NodeId, int>, head: NodeJob, id: nat)
    requires Startable(p, counts, head)
    ensures Core(p, [], remaining + counts, map[id := head], map[]) && Covered(p, [], map[id := head], map[], {})
  {
    var queue := map[id := head];
    assert head.nodeId in p.seeds;
    assert DepsOk(p, head.nodeId) && TemplateOk(p, head.nodeId);
    assert DoneSet([]) == {};
    assert forall s: set<NodeId> :: s - DoneSet([]) == s;
    forall n | n in p.jobs && n in p.deps && p.deps[n] <= DoneSet([])
      ensures HasToken(queue, n)
    {
      assert DepsOk(p, n);
      assert queue[id].nodeId == n;
    }
  }

  /**
   Starting a run (also over the leftovers of a failed run with the same id) establishes the invariant
   exactly when no job of that id is claimable and no wait of it is parked.
   */
  lemma StartEstablishes(p: Plan, run: Run, counts: map<NodeId, int>, head: NodeJob)
    requires Startable(p, counts, head) && IdsOk(run)
    ensures RunInv(p, Started(run, counts, head)) <==> LiveJobs(run) == map[] && run.parked == map[]
  {
    hide Core, Covered, Startable, IdsOk, AllLive, LiveJobs, Started;
    StartedBooks(run, counts, head);
    var after := Started(run, counts, head);
    if LiveJobs(run) == map[] && run.parked == map[] {
      StartedCore(p, run.remaining, counts, head, run.nextId);
      assert after.queue == map[run.nextId := head];
    } else if LiveJobs(run) != map[] {
      assert LiveJobs(run).Keys != {};
    }
  }

  lemma StartedBooks(run: Run, counts: map<NodeId, int>, head: NodeJob)
    requires IdsOk(run)
    ensures var after := Started(run, counts, head);
            && IdsOk(after) && AllLive(after)
            && after == run.(status := Running, pending := 1, remaining := run.remaining + counts, history := [], fired := 0,
                             queue := LiveJobs(run)[run.nextId := head], rows := after.rows, nextId := run.nextId + 1)
            && |after.queue| == |LiveJobs(run)| + 1
  {
    hide LiveRows, LiveJobs;
    StartedRows(run);
    hide IdsOk;
    StartedIds(run, counts, head);
  }

  lemma StartedIds(run: Run, counts: map<NodeId, int>, head: NodeJob)
    requires IdsOk(run)
    ensures IdsOk(Started(run, counts, head)) && AllLive(Started(run, counts, head))
  {
    hide LiveRows, LiveJobs;
    StartedRows(run);
  }

  lemma StartedRows(run: Run)
    requires IdsOk(run)
    ensures forall k :: k in LiveRows(run) <==> k in LiveJobs(run)
    ensures forall k :: k in LiveRows(run) ==> LiveRows(run)[k].place == Live && k < run.nextId
    ensures run.nextId !in LiveJobs(run)
  {
  }

  // ----- failed runs

  /** A run that is over stays as it is: no step completes, enqueues or parks anything, or fires the callback. */
  lemma ClosedStays(lim: Limits, run: Run, a: Action)
    requires run.status != Running && run.status != Waiting && Enabled(run, a)
    ensures var after := Next(lim, run, a);
            && (after.status == run.status || (a.Stop? && after.status == Cancelled))
            && after.history == run.history && after.results == run.results && after.remaining == run.remaining
            && after.queue == run.queue && after.pending == run.pending && after.fired == run.fired
  {
  }

  /** A failed run goes nowhere by itself: nothing completes in it, and it is never marked completed. */
  lemma FailedStays(lim: Limits, p: Plan, run: Run, a: Action)
    requires RunInv(p, run) && run.status == Failed && Enabled(run, a)
    ensures Next(lim, run, a).status == Failed || (a.Stop? && Next(lim, run, a).status == Cancelled)
    ensures Next(lim, run, a).history == run.history && Next(lim, run, a).fired == 0
    ensures Next(lim, run, a).queue == run.queue && Next(lim, run, a).pending == run.pending
  {
    ClosedStays(lim, run, a);
    hide Core, Covered, ResultsOk, IdsOk, Next;
  }

  /** It stays failed, with what completed and what is pending, in every history, unless it is cancelled. */
  lemma {:induction false} FailedThroughout(lim: Limits, p: Plan, runs: seq<Run>, acts: seq<Action>, i: nat)
    requires IsHistory(lim, runs, acts) && i <= |acts| && RunInv(p, runs[0]) && runs[0].status == Failed
    ensures runs[i].status == Failed || (runs[i].status == Cancelled && exists j :: 0 <= j < i && acts[j].Stop?)
    ensures runs[i].history == runs[0].history && runs[i].fired == 0
    ensures runs[i].queue == runs[0].queue && runs[i].pending == runs[0].pending
  {
    hide Next, RunInv;
    if i > 0 {
      FailedThroughout(lim, p, runs, acts, i - 1);
      assert Enabled(runs[i - 1], acts[i - 1]);
      ClosedStays(lim, runs[i - 1], acts[i - 1]);
    } else {
      NotFired(p, runs[0]);
    }
  }

  lemma NotFired(p: Plan, run: Run)
    requires RunInv(p, run) && run.status == Failed
    ensures run.fired == 0
  {
    hide Core, Covered, ResultsOk, IdsOk;
  }

  /** The event that is stored with a saved job: a restart begins with it. Only an object is kept. */
  function SavedEvent(job: NodeJob): Json {
    if EventOf(job.input).JObj? then EventOf(job.input) else JNull
  }

  function AtPlace(rows: map<nat, Row>, place: Place): set<nat> {
    set k | k in rows && rows[k].place == place
  }

  /** `pending` counts the claimable, the dead-lettered and the dropped jobs. */
  lemma PendingCounts(p: Plan, run: Run)
    requires RunInv(p, run)
    ensures run.pending == |AtPlace(run.rows, Live)| + |AtPlace(run.rows, Dead)| + |AtPlace(run.rows, Dropped)|
  {
    Books(p, run);
    hide RunInv;
    assert run.queue.Keys == run.rows.Keys;
    assert |run.queue| == |run.queue.Keys|;
    RowsSplit(run.rows);
  }

  lemma RowsSplit(rows: map<nat, Row>)
    ensures |rows.Keys| == |AtPlace(rows, Live)| + |AtPlace(rows, Dead)| + |AtPlace(rows, Dropped)|
  {
    var live, dead, dropped := AtPlace(rows, Live), AtPlace(rows, Dead), AtPlace(rows, Dropped);
    assert rows.Keys == live + dead + dropped;
    assert |live + dead + dropped| == |live + dead| + |dropped| == |live| + |dead| + |dropped|;
  }

  /** The saved job is a dead-lettered one. */
  ghost predicate SavedIsDead(run: Run) {
    run.saved.Some? && exists k :: k in run.queue && k in run.rows && run.rows[k].place == Dead && run.queue[k] == run.saved.value
  }

  /** At the last claim that the cause allows, a failed attempt fails the run and saves the job as it ran: unless it collects, the very job that was queued. */
  lemma GivingUpSaves(lim: Limits, p: Plan, run: Run, claim: Claim, cause: Cause)
    requires Bounded(lim) && RunInv(p, run) && (run.status == Running || run.status == Waiting) && ClaimValid(run, claim)
    requires 0 < run.rows[claim.id].attempts && ClaimsFor(lim, cause) <= run.rows[claim.id].attempts
    ensures var after := RecordFailure(lim, run, claim, cause); var job := run.queue[claim.id];
            && RunInv(p, after) && after.status == Failed && after.queue == run.queue
            && after.rows[claim.id].place == Dead
            && after.saved == Some(job.(input := EffectiveInput(run.results, job)))
            && (!Assembles(job) ==> SavedIsDead(after))
  {
    hide RunInv, FailureResult, IdsOk;
    RecordFailureKeeps(lim, p, run, claim, cause);
    hide Bounded, EffectiveInput;
    assert RecordFailure(lim, run, claim, cause).rows[claim.id].place == Dead;
    AsItWas(run.results, run.queue[claim.id]);
  }

  lemma AsItWas(results: map<NodeId, Json>, job: NodeJob)
    ensures !Assembles(job) ==> job.(input := EffectiveInput(results, job)) == job
  {
  }

  /** A rejoin that was saved with its array in its input runs, when it is rerun, with the same input. */
  lemma AssembledTwice(results: map<NodeId, Json>, job: NodeJob)
    ensures EffectiveInput(results, job.(input := EffectiveInput(results, job))) == EffectiveInput(results, job)
  {
    if Assembles(job) {
      var c := job.collect.value;
      var arr := JArr(Collected(results, c.from, c.count));
      var steps := StepsOf(job.input);
      assert steps[c.name := arr][c.name := arr] == steps[c.name := arr];
      assert job.input[STEPS := JObj(steps[c.name := arr])][STEPS := JObj(steps[c.name := arr])] == job.input[STEPS := JObj(steps[c.name := arr])];
    }
  }

  lemma RerunBooks(run: Run)
    requires IdsOk(run) && run.saved.Some?
    ensures |RerunContinue(run).queue| == |LiveJobs(run)| + 1
    ensures var after := RerunContinue(run);
            && IdsOk(after)
            && after == run.(status := Running, pending := 1, queue := LiveJobs(run)[run.nextId := run.saved.value],
                             rows := after.rows, nextId := run.nextId + 1)
            && run.nextId !in LiveJobs(run)
            && AllLive(after)
  {
    assert run.nextId !in LiveJobs(run);
  }

  /** `job` is the job its node should have, and no other node is enqueued and not completed. */
  ghost predicate SoleOpen(p: Plan, h: seq<Completion>, job: NodeJob) {
    && Outstanding(p, h, job.nodeId) && job == JobFor(p, h, job.nodeId)
    && forall n {:trigger Outstanding(p, h, n)} :: Outstanding(p, h, n) ==> n == job.nodeId
  }

  /** One queued job, and nothing parked, is right exactly if its node is the only one open. */
  lemma SoleJob(p: Plan, h: seq<Completion>, remaining: map<NodeId, int>, id: nat, job: NodeJob)
    requires WfPlan(p) && HistoryOk(p, h) && CountsOk(p, h, remaining)
    ensures var queue := map[id := job];
            Core(p, h, remaining, queue, map[]) && Covered(p, h, queue, map[], {}) <==> SoleOpen(p, h, job)
  {
    hide WfPlan, HistoryOk, CountsOk, JobFor, DoneSet, Covered, TokensOk;
    SoleToken(p, h, id, job);
    SoleCovers(p, h, id, job);
  }

  lemma SoleToken(p: Plan, h: seq<Completion>, id: nat, job: NodeJob)
    ensures TokensOk(p, h, map[id := job]) <==> Outstanding(p, h, job.nodeId) && job == JobFor(p, h, job.nodeId)
    ensures ParkedOk(p, h, map[]) && Exclusive(map[id := job], map[])
  {
    hide JobFor, DoneSet;
    assert map[id := job][id] == job;
  }

  lemma SoleCovers(p: Plan, h: seq<Completion>, id: nat, job: NodeJob)
    ensures Covered(p, h, map[id := job], map[], {}) <==>
            forall n {:trigger Outstanding(p, h, n)} :: Outstanding(p, h, n) ==> n == job.nodeId
  {
    hide DoneSet;
    var queue := map[id := job];
    assert queue[id] == job;
    assert forall n :: HasToken(queue, n) <==> n == job.nodeId;
    hide HasToken;
    if forall n {:trigger Outstanding(p, h, n)} :: Outstanding(p, h, n) ==> n == job.nodeId {
      forall n | n in p.jobs && n in p.deps && p.deps[n] <= DoneSet(h)
        ensures n in DoneSet(h) || HasToken(queue, n)
      {
        assert n in DoneSet(h) || Outstanding(p, h, n);
      }
    }
  }

  lemma RunParts(p: Plan, run: Run)
    requires RunInv(p, run)
    ensures WfPlan(p) && HistoryOk(p, run.history) && CountsOk(p, run.history, run.remaining)
    ensures ResultsOk(run.history, run.results) && IdsOk(run)
  {
    hide WfPlan, HistoryOk, CountsOk, TokensOk, ParkedOk, Exclusive, Covered, ResultsOk, IdsOk, StatusOk;
  }

  lemma RerunIf(p: Plan, run: Run)
    requires RunInv(p, run) && run.saved.Some? && run.fired == 0 && run.parked == map[] && LiveJobs(run) == map[]
    requires SoleOpen(p, run.history, run.saved.value)
    ensures RunInv(p, RerunContinue(run))
  {
    hide RunInv, WfPlan, HistoryOk, CountsOk, SoleOpen, ResultsOk, AllLive, RerunContinue, LiveJobs, IdsOk, Core, Covered;
    RunParts(p, run);
    RerunBooks(run);
    SoleJob(p, run.history, run.remaining, run.nextId, run.saved.value);
    var after := RerunContinue(run);
    assert after.queue == map[run.nextId := run.saved.value];
    Reopened(p, after, run.nextId);
  }

  lemma Reopened(p: Plan, run: Run, id: nat)
    requires IdsOk(run) && AllLive(run) && ResultsOk(run.history, run.results) && id in run.queue && run.queue.Keys == {id}
    requires Core(p, run.history, run.remaining, run.queue, run.parked) && Covered(p, run.history, run.queue, run.parked, {})
    requires run.status == Running && run.pending == 1 && run.fired == 0 && run.parked == map[]
    ensures RunInv(p, run)
  {
    hide Core, Covered, IdsOk, AllLive, ResultsOk;
    assert |run.queue| == |run.queue.Keys| == 1;
  }

  lemma RerunOnlyIf(p: Plan, run: Run)
    requires RunInv(p, run) && run.saved.Some? && RunInv(p, RerunContinue(run))
    ensures run.fired == 0 && run.parked == map[] && LiveJobs(run) == map[] && SoleOpen(p, run.history, run.saved.value)
  {
    hide RunInv, WfPlan, HistoryOk, CountsOk, SoleOpen, ResultsOk, AllLive, RerunContinue, IdsOk, Core, Covered;
    RunParts(p, run);
    RerunBooks(run);
    var after := RerunContinue(run);
    Books(p, after);
    RunningParts(p, after);
    assert LiveJobs(run).Keys == {};
    hide LiveJobs;
    assert after.queue == map[run.nextId := run.saved.value];
    SoleJob(p, run.history, run.remaining, run.nextId, run.saved.value);
  }

  lemma RunningParts(p: Plan, run: Run)
    requires RunInv(p, run) && run.status == Running
    ensures run.fired == 0 && run.parked == map[]
    ensures Core(p, run.history, run.remaining, run.queue, run.parked) && Covered(p, run.history, run.queue, run.parked, {})
  {
    hide Core, Covered, ResultsOk, IdsOk, AllLive;
  }

  /** The saved job is the run's only outstanding work: one job, which no worker can claim any more, and nothing parked. */
  predicate OnlySaved(run: Run) {
    && run.saved.Some? && |run.queue| == 1 && run.parked == map[]
    && forall k :: k in run.queue ==> k in run.rows && run.rows[k].place != Live && run.queue[k] == run.saved.value
  }

  lemma SoleKey<V>(m: map<nat, V>) returns (k: nat)
    requires |m| == 1
    ensures m.Keys == {k}
  {
    assert |m.Keys| == 1;
    k :| k in m.Keys;
    assert |m.Keys - {k}| == 0;
  }

  /** In a run that was not cancelled, the saved job's node is the only one open exactly if its job is the only one. */
  lemma OnlySavedIsSole(p: Plan, run: Run)
    requires RunInv(p, run) && run.status != Cancelled && run.saved.Some?
    ensures OnlySaved(run) <==>
            run.fired == 0 && run.parked == map[] && LiveJobs(run) == map[] && SoleOpen(p, run.history, run.saved.value)
  {
    hide RunInv, LiveJobs;
    if OnlySaved(run) {
      var k := SoleKey(run.queue);
      NoneLive(run);
      QueuedOpen(p, run, k);
      NotFiredYet(p, run, k);
    }
    if run.parked == map[] && LiveJobs(run) == map[] && SoleOpen(p, run.history, run.saved.value) {
      SoleIsQueued(p, run);
    }
  }

  lemma NoneLive(run: Run)
    requires OnlySaved(run)
    ensures LiveJobs(run) == map[]
  {
    assert forall j :: j !in LiveJobs(run);
  }

  lemma NotFiredYet(p: Plan, run: Run, k: nat)
    requires RunInv(p, run) && run.status != Cancelled && k in run.queue
    ensures run.fired == 0
  {
    hide Core, Covered, ResultsOk, IdsOk;
  }

  /** With one job queued and nothing parked, its node is the only one open. */
  lemma QueuedOpen(p: Plan, run: Run, k: nat)
    requires RunInv(p, run) && run.status != Cancelled && run.queue.Keys == {k} && run.parked == map[]
    ensures SoleOpen(p, run.history, run.queue[k])
  {
    hide RunInv, JobFor;
    ForeachRuns.SchedulerParts(p, run, k);
    OpenNodes(p, run);
    hide WfPlan, HistoryOk;
    forall n | Outstanding(p, run.history, n)
      ensures n == run.queue[k].nodeId
    {
      PlaceOf(p, run, n);
    }
  }

  lemma SoleIsQueued(p: Plan, run: Run)
    requires RunInv(p, run) && run.status != Cancelled && run.saved.Some?
    requires run.parked == map[] && LiveJobs(run) == map[] && SoleOpen(p, run.history, run.saved.value)
    ensures OnlySaved(run)
  {
    hide RunInv, JobFor, LiveJobs;
    var n := run.saved.value.nodeId;
    PlaceOf(p, run, n);
    var k :| k in run.queue && run.queue[k].nodeId == n;
    OpenNodes(p, run);
    OneJobPerNode(p, run);
    forall j | j in run.queue
      ensures j == k
    {
      assert Outstanding(p, run.history, run.queue[j].nodeId);
    }
    assert run.queue.Keys == {k};
    assert |run.queue| == |run.queue.Keys|;
    ForeachRuns.SchedulerParts(p, run, k);
    NotLive(p, run, k);
  }

  lemma NotLive(p: Plan, run: Run, k: nat)
    requires RunInv(p, run) && k in run.queue && LiveJobs(run) == map[]
    ensures k in run.rows && run.rows[k].place != Live
  {
    hide Core, Covered, ResultsOk, StatusOk;
    assert k !in LiveJobs(run);
  }

  lemma OneJobPerNode(p: Plan, run: Run)
    requires RunInv(p, run)
    ensures forall k, k' :: k in run.queue && k' in run.queue && run.queue[k].nodeId == run.queue[k'].nodeId ==> k == k'
  {
    hide WfPlan, HistoryOk, CountsOk, TokensOk, ParkedOk, Covered, ResultsOk, StatusOk;
  }

  lemma SavedIsThere(run: Run)
    requires OnlySaved(run)
    ensures run.saved.Some?
  {
  }

  /**
   Rerun `continue`, of any run that still has a saved job, whatever its status. It restores the run invariant
   exactly when the run was never reported completed, nothing is claimable or parked, and the saved job is that of
   the only node still open; unless the run was cancelled, exactly when that job was the run's only outstanding work.
   It keeps the history, so no completed node is executed again.
   */
  lemma RerunContinueExactly(p: Plan, run: Run)
    requires RunInv(p, run) && run.saved.Some?
    ensures RunInv(p, RerunContinue(run)) <==>
            run.fired == 0 && run.parked == map[] && LiveJobs(run) == map[] && SoleOpen(p, run.history, run.saved.value)
    ensures run.status != Cancelled ==> (RunInv(p, RerunContinue(run)) <==> OnlySaved(run))
    ensures RerunContinue(run).history == run.history && RerunContinue(run).results == run.results
  {
    hide RunInv, OnlySaved, LiveJobs, LiveRows, SoleOpen;
    if run.fired == 0 && run.parked == map[] && LiveJobs(run) == map[] && SoleOpen(p, run.history, run.saved.value) {
      RerunIf(p, run);
    }
    if RunInv(p, RerunContinue(run)) {
      RerunOnlyIf(p, run);
    }
    if run.status != Cancelled {
      OnlySavedIsSole(p, run);
    }
  }

  /**
   The saved job outlives its rerun: a second `continue`, on the run that the first one set going again, enqueues
   the job a second time and sets the pending count back to one, and no plan accounts for the run any more.
   */
  lemma ContinueTwice(p: Plan, run: Run)
    requires RunInv(p, run) && run.status == Failed && OnlySaved(run)
    ensures var once := RerunContinue(run); var twice := RerunContinue(once);
            && RunInv(p, once) && once.status == Running && once.saved == run.saved
            && twice.pending == 1 && |twice.queue| == 2 && (forall k :: k in twice.queue ==> twice.queue[k] == run.saved.value)
            && forall q: Plan :: !RunInv(q, twice)
  {
    hide RunInv, OnlySaved, LiveJobs, AllLive, IdsOk, SoleOpen;
    SavedIsThere(run);
    RerunContinueExactly(p, run);
    var once := RerunContinue(run);
    RunParts(p, run);
    hide WfPlan, HistoryOk, CountsOk, ResultsOk;
    RerunBooks(run);
    RerunBooks(once);
    hide RerunContinue;
    AllAreLive(once);
    var twice := RerunContinue(once);
    forall q: Plan
      ensures !RunInv(q, twice)
    {
      if RunInv(q, twice) {
        Books(q, twice);
      }
    }
  }

  lemma AllAreLive(run: Run)
    requires IdsOk(run) && AllLive(run)
    ensures LiveJobs(run) == run.queue
  {
  }

  /**
   After a sound rerun `continue`, every history is one of the engine's ordinary histories again, and no node
   that had completed before the failure completes a second time.
   */
  lemma ContinueThenHistory(lim: Limits, p0: Plan, p: Plan, run: Run, runs: seq<Run>, acts: seq<Action>, i: nat)
    requires Tracks(p0, p, run) && run.status != Cancelled && OnlySaved(run)
    requires Bounded(lim) && IsHistory(lim, runs, acts) && runs[0] == RerunContinue(run) && i <= |acts|
    requires forall i :: 0 <= i < |acts| ==> ForeachRuns.Supported(runs[i], acts[i])
    ensures IsForeachHistory(lim, p0, p, runs, acts)
    ensures run.history <= runs[i].history
    ensures forall j :: |run.history| <= j < |runs[i].history| ==> runs[i].history[j].node !in DoneSet(run.history)
  {
    hide RunInv, Unfolds, OnlySaved, Next, ForeachRuns.Supported, RerunContinue;
    SavedIsThere(run);
    RerunContinueExactly(p, run);
    HistoryTracks(lim, p0, p, runs, acts, i);
    hide Tracks, IsForeachHistory;
    var q := PlanAlong(p, runs, acts[..i]);
    EntriesDiffer(p0, q, runs[i]);
    forall j, n | |run.history| <= j < |runs[i].history| && n in DoneSet(run.history)
      ensures runs[i].history[j].node != n
    {
      var k :| 0 <= k < |run.history| && run.history[k].node == n;
      assert runs[i].history[k] == run.history[k];
    }
  }
}
