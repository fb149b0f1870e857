/**
 When the counters of a run survive claims that lapse. The write that sets a rejoin's counter before a fan-out,
 and the resume transaction, are not guarded by any claim: here is exactly which moves the counters survive, in
 every history of fine moves, and histories in which they do not.
 */
module Steadiness {
  import opened Values
  import opened Jobs
  import opened Runs
  import opened Plans
  import opened Invariant
  import opened Landing
  import opened Handlers
  import opened Preservation
  import opened Steps
  import opened ForeachRuns
  import opened Unfolding
  import opened Checks
  import opened Redelivery

  // ----- what is kept

  /** The counters and places of a run, whatever its status, its result rows and whoever holds its claims. */
  ghost predicate Counters(p: Plan, run: Run) {
    && IdsOk(run)
    && Core(p, run.history, run.remaining, run.queue, run.parked)
    && Covered(p, run.history, run.queue, run.parked, {})
    && run.pending == |run.queue|
  }

  /** `r` is a rejoin of a scheduler that has not fanned out: nothing reads its counter before the fan-out sets it. */
  ghost predicate Unused(p0: Plan, h: seq<Completion>, r: NodeId) {
    exists f :: IsLoop(p0, f) && f !in DoneSet(h) && r in RejoinIds(p0, f)
  }

  /** The counters with those of unused rejoins as the run was started with them. */
  ghost function Restored(p0: Plan, h: seq<Completion>, remaining: map<NodeId, int>): (m: map<NodeId, int>)
    ensures m.Keys == remaining.Keys
    ensures forall r :: r in remaining ==> m[r] == if Unused(p0, h, r) then 1 else remaining[r]
  {
    Tabulate(remaining.Keys, r requires r in remaining => if Unused(p0, h, r) then 1 else remaining[r])
  }

  ghost function Calm(p0: Plan, run: Run): Run {
    run.(remaining := Restored(p0, run.history, run.remaining))
  }

  /** `p` is what the fan-outs made of the plan `p0`, and all counters that something reads are right for it. */
  ghost predicate Steady(p0: Plan, p: Plan, run: Run) {
    Unfolds(p0, p, run.history) && Counters(p, Calm(p0, run))
  }

  /** The scheduler of an unused rejoin, in the plan followed. */
  lemma UnusedBy(p0: Plan, p: Plan, h: seq<Completion>, r: NodeId) returns (f: NodeId, b: NodeId)
    requires Unfolds(p0, p, h) && WfPlan(p) && Unused(p0, h, r)
    ensures ForeachShape(p, f, b) && f !in DoneSet(h) && r in p.jobs[b].dependents
    ensures r in p.jobs && r in p.deps && p.deps[r] == {b} && p.deps[b] == {f} && r !in p.seeds
  {
    f :| IsLoop(p0, f) && f !in DoneSet(h) && r in RejoinIds(p0, f);
    b := BodyId(p0, f);
    assert LoopOk(p0, p, h, f);
    assert NodeOk(p0, p, h, f);
    hide DoneSet, Served, Spread, IsBody, IsRejoin, WfPlan;
    BodyNamed(p, f, b);
  }

  /** With every counter right, those of unused rejoins read one. */
  lemma AllRestored(p0: Plan, p: Plan, h: seq<Completion>, remaining: map<NodeId, int>)
    requires Unfolds(p0, p, h) && WfPlan(p) && HistoryOk(p, h) && CountsOk(p, h, remaining)
    ensures Restored(p0, h, remaining) == remaining
  {
    hide DoneSet, Unfolds, WfPlan, HistoryOk, ForeachShape, Unused, Restored;
    forall r | r in remaining && Unused(p0, h, r)
      ensures remaining[r] == 1
    {
      var f, b := UnusedBy(p0, p, h, r);
      if b in DoneSet(h) {
        HistoryClosed(p, h, b);
      }
      assert p.deps[r] - DoneSet(h) == {b};
    }
  }

  /** A run that keeps its invariant is steady. */
  lemma TracksIsSteady(p0: Plan, p: Plan, run: Run)
    requires Tracks(p0, p, run) && run.status != Cancelled
    ensures Steady(p0, p, run) && Counters(p, run)
  {
    hide Unfolds, WfPlan, HistoryOk, CountsOk, TokensOk, ParkedOk, Exclusive, Covered, ResultsOk, StatusOk, IdsOk, Restored;
    AllRestored(p0, p, run.history, run.remaining);
    assert Calm(p0, run) == run;
  }

  // ----- bookkeeping

  /** Rows, results, status, timers and what is saved are no part of the counters. */
  lemma CountersElsewhere(p: Plan, run: Run, after: Run)
    requires Counters(p, run) && IdsOk(after)
    requires after.history == run.history && after.remaining == run.remaining && after.queue == run.queue
    requires after.parked == run.parked && after.pending == run.pending
    ensures Counters(p, after)
  {
    hide Core, Covered, IdsOk;
  }

  lemma SteadyElsewhere(p0: Plan, p: Plan, run: Run, after: Run)
    requires Steady(p0, p, run) && IdsOk(after)
    requires after.history == run.history && after.remaining == run.remaining && after.queue == run.queue
    requires after.parked == run.parked && after.pending == run.pending
    ensures Steady(p0, p, after)
  {
    hide Unfolds, Counters, Restored;
    CalmIds(p0, after);
    CountersElsewhere(p, Calm(p0, run), Calm(p0, after));
  }

  /** Ids do not depend on the counters. */
  lemma CalmIds(p0: Plan, run: Run)
    ensures IdsOk(Calm(p0, run)) <==> IdsOk(run)
  {
    hide Restored;
  }

  lemma SteadyIds(p0: Plan, p: Plan, run: Run)
    requires Steady(p0, p, run)
    ensures IdsOk(run) && run.pending == |run.queue|
  {
    hide Unfolds, Core, Covered, IdsOk, Restored;
    CalmIds(p0, run);
  }

  lemma BookkeepingSteady(lim: Limits, p0: Plan, p: Plan, run: Run, m: Move)
    requires Steady(p0, p, run) && Possible(run, m) && Bookkeeping(m)
    ensures Steady(p0, p, After(lim, run, m))
  {
    hide Steady, After, IdsOk;
    SteadyIds(p0, p, run);
    BookkeepingMovesNothing(lim, run, m);
    MoveKeepsIds(lim, run, m);
    SteadyElsewhere(p0, p, run, After(lim, run, m));
  }

  // ----- completions of nodes that are no schedulers

  /** No node that may complete leads to an unused rejoin. */
  lemma DependentsUsed(p0: Plan, p: Plan, h: seq<Completion>, n: NodeId)
    requires Unfolds(p0, p, h) && WfPlan(p) && Outstanding(p, h, n) && !p.jobs[n].def.nodeType.Foreach?
    ensures forall d :: d in p.jobs[n].dependents ==> !Unused(p0, h, d)
  {
    assert EdgesOk(p, n);
    forall d | d in p.jobs[n].dependents && Unused(p0, h, d)
      ensures false
    {
      var f, b := UnusedBy(p0, p, h, d);
      hide DoneSet, Unfolds, WfPlan, ForeachShape, Unused;
    }
  }

  lemma UnusedSame(p0: Plan, h: seq<Completion>, c: Completion)
    requires !IsLoop(p0, c.node)
    ensures forall r :: Unused(p0, h + [c], r) == Unused(p0, h, r)
  {
    DoneSetAppend(h, c);
    hide DoneSet, IsLoop;
  }

  lemma {:induction false} EnqueueFrame(run: Run, jobs: seq<NodeJob>, remaining: map<NodeId, int>,
          parked: map<NodeId, Continuation>)
    ensures Enqueue(run.(remaining := remaining, parked := parked), jobs)
            == Enqueue(run, jobs).(remaining := remaining, parked := parked)
    ensures Enqueue(run, jobs).remaining == run.remaining && Enqueue(run, jobs).parked == run.parked
    ensures Enqueue(run, jobs).status == run.status
  {
    if jobs != [] {
      EnqueueFrame(run, jobs[..|jobs| - 1], remaining, parked);
    }
  }

  /** Counters that agree on the dependents make the same dependents ready. */
  lemma DecrementAgrees(p0: Plan, h: seq<Completion>, c: Completion, remaining: map<NodeId, int>, ds: seq<NodeId>)
    returns (m: map<NodeId, int>, ready: set<NodeId>)
    requires Distinct(ds) && forall d :: d in ds ==> d in remaining && !Unused(p0, h, d)
    requires !IsLoop(p0, c.node)
    ensures Decrement(remaining, ds) == Some((m, ready))
    ensures Decrement(Restored(p0, h, remaining), ds) == Some((Restored(p0, h + [c], m), ready))
  {
    UnusedSame(p0, h, c);
    hide Unused, Decrement, Distinct;
    var restored := Restored(p0, h, remaining);
    DecrementSpec(remaining, ds);
    DecrementSpec(restored, ds);
    m, ready := Decrement(remaining, ds).value.0, Decrement(remaining, ds).value.1;
    var (m', ready') := Decrement(restored, ds).value;
    assert ready == ready';
    assert m' == Restored(p0, h + [c], m);
  }

  /** A transaction on other counters does the same, as long as the same dependents become ready. */
  lemma CommitFrame(run: Run, other: map<NodeId, int>, atom: NodeAtom, m: map<NodeId, int>, m': map<NodeId, int>,
          ready: set<NodeId>, after: Run)
    requires Decrement(run.remaining, atom.dependents) == Some((m, ready))
    requires Decrement(other, atom.dependents) == Some((m', ready))
    requires CommitAtom(run.(remaining := other), atom) == Some(after)
    ensures CommitAtom(run, atom) == Some(after.(remaining := m)) && after.remaining == m'
  {
    hide Decrement, ReadyJobs, Enqueue;
    var written := run.(results := run.results[atom.nodeId := atom.result], history := run.history + atom.log);
    var jobs := ReadyJobs(atom.dependents, ready, atom.downstream);
    assert written.(remaining := m).(remaining := m', parked := run.parked) == written.(remaining := m');
    EnqueueFrame(written.(remaining := m), jobs, m', run.parked);
  }

  /** The success of a job that is no scheduler, claimed validly. */
  lemma SubmitSteady(p0: Plan, p: Plan, run: Run, claim: Claim, c: Completion)
    requires Steady(p0, p, run) && MayFinish(run, claim, c)
    ensures var after := Committed(run, AtomOf(run.queue[claim.id], claim, c, None));
            Steady(p0, p, after) && after.history == run.history + [c] && after.results == run.results[c.node := c.result]
  {
    var calm := Calm(p0, run);
    var atom := AtomOf(run.queue[claim.id], claim, c, None);
    SubmitShape(p0, p, run, claim, c);
    hide Unfolds, Core, Covered, IdsOk, Frontier, Grown, MayFinish, CommitAtom, AtomOf, Restored, WfPlan, Distinct, Decrement, Unused;
    var m, ready := DecrementAgrees(p0, run.history, c, run.remaining, atom.dependents);
    var after, ids := CommitLands(p, calm, claim, c);
    CommitFrame(run, calm.remaining, atom, m, Restored(p0, run.history + [c], m), ready, after);
    assert calm.queue == run.queue;
    UnfoldsAppend(p0, p, run.history, c);
    assert Calm(p0, after.(remaining := m)) == after;
  }

  /** What a validly claimed job says about the atom of its success. */
  lemma SubmitShape(p0: Plan, p: Plan, run: Run, claim: Claim, c: Completion)
    requires Steady(p0, p, run) && MayFinish(run, claim, c)
    ensures MayFinish(Calm(p0, run), claim, c) && IdsOk(run)
    ensures !IsLoop(p0, c.node) && c.node in p.jobs && !p.jobs[c.node].def.nodeType.Foreach?
    ensures var ds := AtomOf(run.queue[claim.id], claim, c, None).dependents;
            Distinct(ds) && forall d :: d in ds ==> d in run.remaining && !Unused(p0, run.history, d)
  {
    var calm := Calm(p0, run);
    var job := run.queue[claim.id];
    SteadyIds(p0, p, run);
    SteadyJob(p0, p, run, claim.id);
    NotALoop(p0, p, run.history, c.node);
    DependentsUsed(p0, p, run.history, c.node);
    CountedDependents(p0, p, run, c.node);
    hide Unfolds, Core, Covered, IdsOk, OutcomeOk, Restored, WfPlan, HistoryOk, Unused, JobFor, Outstanding, Distinct;
  }

  /** A job in the queue is its node's, and the node is outstanding. */
  lemma SteadyJob(p0: Plan, p: Plan, run: Run, id: nat)
    requires Steady(p0, p, run) && id in run.queue
    ensures WfPlan(p) && HistoryOk(p, run.history)
    ensures var job := run.queue[id]; var n := job.nodeId;
            && Outstanding(p, run.history, n) && job == JobFor(p, run.history, n)
            && job == p.jobs[n].(input := job.input, skip := job.skip)
  {
    hide Unfolds, HistoryOk, CountsOk, ParkedOk, Exclusive, Covered, IdsOk, Restored, DoneSet;
    assert TokensOk(p, run.history, run.queue);
    JobShape(p, run.history, run.queue[id].nodeId);
  }

  lemma NotALoop(p0: Plan, p: Plan, h: seq<Completion>, n: NodeId)
    requires Unfolds(p0, p, h) && n in p.jobs && !p.jobs[n].def.nodeType.Foreach?
    ensures !IsLoop(p0, n)
  {
    if IsLoop(p0, n) {
      KindStays(p0, p, h, n);
    }
  }

  lemma CountedDependents(p0: Plan, p: Plan, run: Run, n: NodeId)
    requires Steady(p0, p, run) && n in p.jobs && !p.jobs[n].def.nodeType.Foreach?
    ensures Distinct(p.jobs[n].dependents) && forall d :: d in p.jobs[n].dependents ==> d in run.remaining
  {
    DependentsCounted(p, run.history, Restored(p0, run.history, run.remaining), n);
    hide Unfolds, Core, Covered, IdsOk, Unused, Distinct;
  }

  // ----- parks and resumes

  lemma SuspendSteady(p0: Plan, p: Plan, run: Run, claim: Claim, signal: string, runAt: int)
    requires Steady(p0, p, run) && ClaimValid(run, claim)
    requires run.queue[claim.id].def.nodeType.Wait? && !run.queue[claim.id].skip
    ensures Steady(p0, p, Park(run, claim, signal, runAt))
  {
    var calm := Calm(p0, run);
    var job := run.queue[claim.id];
    var after := Park(run, claim, signal, runAt);
    SteadyIds(p0, p, run);
    ParkShape(run, claim, signal, runAt);
    assert after.queue.Keys == run.queue.Keys - {claim.id};
    hide Unfolds, Core, Covered, IdsOk, Restored, Outstanding, JobFor, HasToken, Park, QueueGrows;
    Detach(p, calm, claim.id);
    assert Remove(calm, claim.id).queue == after.queue;
    ParkCore(p, calm.history, calm.remaining, after.queue, calm.parked, job, signal, runAt);
    CalmIds(p0, after);
  }

  /** The continuation a resume read: of a wait that is parked still, or has completed. */
  ghost predicate Waits(run: Run, n: NodeId, cont: Continuation) {
    && cont.nodeId == n
    && (forall d :: d in cont.dependents ==> d in run.remaining)
    && (if n in run.parked then run.parked[n] == cont else n in DoneSet(run.history))
  }

  /** What the wait that is parked leads to. */
  lemma ParkedParts(p0: Plan, p: Plan, run: Run, n: NodeId)
    requires Steady(p0, p, run) && n in run.parked
    ensures n in p.jobs && !p.jobs[n].def.nodeType.Foreach? && Outstanding(p, run.history, n) && !IsLoop(p0, n)
    ensures run.parked[n].nodeId == n
    ensures run.parked[n].dependents == p.jobs[n].dependents && run.parked[n].downstream == p.jobs[n].downstream
    ensures var ds := run.parked[n].dependents; Distinct(ds) && forall d :: d in ds ==> d in run.remaining && !Unused(p0, run.history, d)
  {
    var calm := Calm(p0, run);
    hide Unfolds, WfPlan, HistoryOk, CountsOk, TokensOk, Exclusive, Covered, IdsOk, Restored, Unused, Distinct;
    ParkedShape(p, calm, n);
    WakingNode(p, calm, n);
    assert Outstanding(p, run.history, n);
    hide ParkedOk, Outstanding;
    NotALoop(p0, p, run.history, n);
    DependentsUsed(p0, p, run.history, n);
    CountedDependents(p0, p, run, n);
  }

  /** A resume of a parked wait, whether the wait is unparked and the counters restored before it or after. */
  lemma ReviveFrame(run: Run, other: map<NodeId, int>, n: NodeId, source: string, payload: Json, m: map<NodeId, int>,
          m': map<NodeId, int>, ready: set<NodeId>, fanned: Run, count: nat)
    requires n in run.parked && run.parked[n].nodeId == n
    requires Decrement(run.remaining, run.parked[n].dependents) == Some((m, ready))
    requires Decrement(other, run.parked[n].dependents) == Some((m', ready))
    requires var c := Waking(run.parked[n], source, payload);
             FanOut(Written(run.(remaining := other, parked := run.parked - {n}), c), run.parked[n].dependents,
                    NextJobs(c, run.parked[n].downstream))
             == Some((fanned, count))
    ensures var after := Revived(run, n, run.parked[n], source, payload);
            && after == fanned.(pending := fanned.pending + count, remaining := m, status := after.status)
            && fanned.remaining == m' && fanned.parked == run.parked - {n}
  {
    hide Decrement, ReadyJobs, Enqueue, NextJobs, WakeResult;
    var cont := run.parked[n];
    var c := Waking(cont, source, payload);
    var jobs := ReadyJobs(cont.dependents, ready, NextJobs(c, cont.downstream));
    EnqueueFrame(Written(run, c).(remaining := m), jobs, m', run.parked - {n});
    assert Written(run, c).(remaining := m).(remaining := m', parked := run.parked - {n})
        == Written(run.(remaining := other, parked := run.parked - {n}), c).(remaining := m');
  }

  lemma ReviveSteady(p0: Plan, p: Plan, run: Run, n: NodeId, source: string, payload: Json)
    requires Steady(p0, p, run) && n in run.parked
    ensures Steady(p0, p, Revived(run, n, run.parked[n], source, payload))
  {
    hide Unfolds, Core, Covered, IdsOk, Frontier, Grown, Restored, WfPlan, Distinct, Decrement, Unused, InFlight, FanOut;
    hide NextJobs, FreshRows, Revived, Outstanding, JobFor, WakeResult, Launched, IsLoop, DoneSet;
    var calm := Calm(p0, run);
    var cont := run.parked[n];
    var c := Waking(cont, source, payload);
    ParkedParts(p0, p, run, n);
    SteadyIds(p0, p, run);
    var m, ready := DecrementAgrees(p0, run.history, c, run.remaining, cont.dependents);
    Unpark(p, calm, n, source, payload);
    var bare := calm.(parked := calm.parked - {n});
    BareIds(calm, bare.parked);
    CalmIds(p0, run);
    var fanned, ids := FanOutLands(p, bare, c);
    FanOutIds(p, bare, c, ids, fanned);
    ReviveFrame(run, calm.remaining, n, source, payload, m, Restored(p0, run.history + [c], m), ready, fanned, |ids|);
    UnfoldsAppend(p0, p, run.history, c);
    var after := Revived(run, n, cont, source, payload);
    WakenCounters(p, fanned, Calm(p0, after), |ids|);
  }

  lemma WakenCounters(p: Plan, fanned: Run, after: Run, count: nat)
    requires IdsOk(fanned) && Core(p, fanned.history, fanned.remaining, fanned.queue, fanned.parked)
    requires Covered(p, fanned.history, fanned.queue, fanned.parked, {}) && fanned.pending + count == |fanned.queue|
    requires after == fanned.(pending := fanned.pending + count, status := after.status)
    ensures Counters(p, after)
  {
    hide Core, Covered;
    SameIdsOk(fanned, after);
    hide IdsOk;
  }

  lemma {:induction false} Decrements(remaining: map<NodeId, int>, ds: seq<NodeId>)
    requires forall d :: d in ds ==> d in remaining
    ensures Decrement(remaining, ds).Some? && Decrement(remaining, ds).value.0.Keys == remaining.Keys
  {
    if ds != [] {
      Decrements(remaining, ds[..|ds| - 1]);
      assert ds[|ds| - 1] in ds;
    }
  }

  /** A second resume of one wait completes its node twice. */
  lemma ReviveTwice(p: Plan, run: Run, n: NodeId, cont: Continuation, source: string, payload: Json)
    requires IdsOk(run) && Waits(run, n, cont) && n !in run.parked
    ensures !HistoryOk(p, Revived(run, n, cont, source, payload).history)
  {
    Decrements(run.remaining, cont.dependents);
    ReviveCommits(run, n, cont, source, payload);
    hide Decrement, Revived, IdsOk, DoneSet;
    DoneTwice(p, run.history, Waking(cont, source, payload));
  }

  lemma DoneTwice(p: Plan, h: seq<Completion>, c: Completion)
    requires c.node in DoneSet(h)
    ensures !HistoryOk(p, h + [c])
  {
    hide HistoryOk, DoneSet;
    if HistoryOk(p, h + [c]) {
      DoneOnce(p, h, c);
    }
  }

  lemma DoneOnce(p: Plan, h: seq<Completion>, c: Completion)
    requires HistoryOk(p, h + [c])
    ensures c.node !in DoneSet(h)
  {
    assert EntryOk(p, h + [c], |h|);
    assert (h + [c])[..|h|] == h;
  }

  // ----- writing a rejoin's counter

  /** A scheduler job as its plan has it. */
  ghost predicate Schedules(p0: Plan, job: NodeJob) {
    job.def.nodeType.Foreach? ==> IsLoop(p0, job.nodeId) && job.loop == p0.jobs[job.nodeId].loop
  }

  /** A scheduler whose job left the queue has completed. */
  lemma SchedulerGone(p0: Plan, p: Plan, run: Run, id: nat, job: NodeJob)
    requires Steady(p0, p, run) && StillThere(run, id, job) && IsLoop(p0, job.nodeId)
    ensures id in run.queue <==> job.nodeId !in DoneSet(run.history)
  {
    if id in run.queue {
      SteadyJob(p0, p, run, id);
    } else if job.nodeId in run.parked {
      ParkedParts(p0, p, run, job.nodeId);
    }
    hide Unfolds, Counters, DoneSet, Restored, WfPlan, HistoryOk, JobFor;
  }

  /** A rejoin of a scheduler that fanned out is used, and waits for its iterations. */
  lemma UsedRejoin(p0: Plan, p: Plan, h: seq<Completion>, f: NodeId, r: NodeId)
    requires Unfolds(p0, p, h) && WfPlan(p) && IsLoop(p0, f) && f in DoneSet(h) && r in RejoinIds(p0, f)
    ensures !Unused(p0, h, r) && r in p.jobs && r in p.deps && r !in p.seeds
  {
    assert LoopOk(p0, p, h, f);
    var items := Served(h, f).value;
    assert JoinOk(p0, p, f, |items|, r);
    assert IterId(BodyId(p0, f), 0) in IterIds(BodyId(p0, f), |items|);
    assert DepsOk(p, r);
    if Unused(p0, h, r) {
      SoleScheduler(p0, h, f, r);
    }
  }

  /** No rejoin has two schedulers. */
  lemma SoleScheduler(p0: Plan, h: seq<Completion>, f: NodeId, r: NodeId)
    requires Looped(p0) && IsLoop(p0, f) && r in RejoinIds(p0, f) && f in DoneSet(h)
    ensures !Unused(p0, h, r)
  {
    assert ForeachShape(p0, f, BodyId(p0, f));
    forall g | IsLoop(p0, g) && r in RejoinIds(p0, g)
      ensures g == f
    {
      assert ForeachShape(p0, g, BodyId(p0, g));
      assert p0.deps[r] == {BodyId(p0, f)} && p0.deps[r] == {BodyId(p0, g)};
      assert BodyId(p0, g) in p0.deps[r];
      assert p0.deps[BodyId(p0, f)] == {f} && g in p0.deps[BodyId(p0, g)];
    }
  }

  /** A counter's write keeps the run steady exactly when the scheduler is still queued, or it writes what is there. */
  lemma RecountSteady(p0: Plan, p: Plan, run: Run, id: nat, job: NodeJob, r: NodeId, count: nat)
    requires Steady(p0, p, run) && StillThere(run, id, job) && IsLoop(p0, job.nodeId) && r in RejoinIds(p0, job.nodeId)
    ensures r in run.remaining
    ensures Steady(p0, p, run.(remaining := SetRemaining(run.remaining, [r], count))) <==>
            id in run.queue || run.remaining[r] == count
  {
    hide Steady, DoneSet, WfPlan, HistoryOk, CountsOk, Unfolds, IsLoop, Unused, Restored, StillThere, SetRemaining;
    var after := run.(remaining := SetRemaining(run.remaining, [r], count));
    SteadyWf(p0, p, run);
    SteadyUnfolds(p0, p, run);
    SchedulerGone(p0, p, run, id, job);
    SetOne(run.remaining, r, count);
    if id in run.queue {
      UnusedCounted(p0, p, run, job.nodeId, r);
      RecountUnused(p0, p, run, r, count);
    } else {
      UsedRejoin(p0, p, run.history, job.nodeId, r);
      UsedCounted(p0, p, run, r);
      if run.remaining[r] == count {
        assert after == run;
      } else {
        WrongCount(p0, p, run, after, r);
      }
    }
  }

  lemma SteadyUnfolds(p0: Plan, p: Plan, run: Run)
    requires Steady(p0, p, run)
    ensures Unfolds(p0, p, run.history)
  {
    hide Unfolds, Counters;
  }

  lemma RecountUnused(p0: Plan, p: Plan, run: Run, r: NodeId, count: nat)
    requires Steady(p0, p, run) && Unused(p0, run.history, r) && r in run.remaining
    ensures Steady(p0, p, run.(remaining := run.remaining[r := count]))
  {
    hide Unfolds, Counters, Unused;
    assert Restored(p0, run.history, run.remaining[r := count]) == Restored(p0, run.history, run.remaining);
  }

  lemma SetOne(remaining: map<NodeId, int>, r: NodeId, count: nat)
    ensures SetRemaining(remaining, [r], count) == if r in remaining then remaining[r := count] else remaining
  {
    assert [r][..0] == [];
  }

  lemma SteadyWf(p0: Plan, p: Plan, run: Run)
    requires Steady(p0, p, run)
    ensures WfPlan(p) && HistoryOk(p, run.history) && CountsOk(p, run.history, Restored(p0, run.history, run.remaining))
  {
    hide WfPlan, HistoryOk, CountsOk, TokensOk, ParkedOk, Exclusive, Covered, Unfolds, IdsOk, Restored;
  }

  lemma UnusedCounted(p0: Plan, p: Plan, run: Run, f: NodeId, r: NodeId)
    requires Steady(p0, p, run) && IsLoop(p0, f) && f !in DoneSet(run.history) && r in RejoinIds(p0, f)
    ensures Unused(p0, run.history, r) && r in run.remaining
  {
    SteadyWf(p0, p, run);
    hide DoneSet, WfPlan, HistoryOk, Unfolds, IsLoop;
    var g, b := UnusedBy(p0, p, run.history, r);
    hide ForeachShape;
  }

  lemma UsedCounted(p0: Plan, p: Plan, run: Run, r: NodeId)
    requires Steady(p0, p, run) && r in p.jobs && r in p.deps && r !in p.seeds && !Unused(p0, run.history, r)
    ensures r in run.remaining && run.remaining[r] == |p.deps[r] - DoneSet(run.history)|
  {
    SteadyWf(p0, p, run);
    hide DoneSet, WfPlan, HistoryOk, Unfolds, Unused;
  }

  /** A used counter that differs from a right one is wrong. */
  lemma WrongCount(p0: Plan, p: Plan, run: Run, after: Run, r: NodeId)
    requires Steady(p0, p, run) && r in p.jobs && r in p.deps && r !in p.seeds && !Unused(p0, run.history, r)
    requires after.history == run.history && r in run.remaining && r in after.remaining && after.remaining[r] != run.remaining[r]
    ensures !Steady(p0, p, after)
  {
    UsedCounted(p0, p, run, r);
    hide DoneSet, Unused;
    if Steady(p0, p, after) {
      UsedCounted(p0, p, after, r);
    }
  }

  // ----- fan-outs

  /** What a queued scheduler's job is, in the plan followed and in the first plan. */
  ghost predicate QueuedScheduler(p0: Plan, p: Plan, h: seq<Completion>, job: NodeJob, b: NodeId) {
    && WfPlan(p) && HistoryOk(p, h) && p.deps.Keys == p.jobs.Keys
    && ForeachShape(p, job.nodeId, b) && b in p.rank && job.nodeId !in DoneSet(h)
    && Outstanding(p, h, job.nodeId) && job == JobFor(p, h, job.nodeId)
    && job.runId == p.jobs[job.nodeId].runId && job.loop == p.jobs[job.nodeId].loop && job.downstream == p.jobs[job.nodeId].downstream
    && job.dependents == [] && job.def.nodeType.Foreach?
    && Unfolds(p0, p, h) && IsLoop(p0, job.nodeId) && BodyId(p0, job.nodeId) == b && job.loop == p0.jobs[job.nodeId].loop
  }

  lemma SteadyScheduler(p0: Plan, p: Plan, run: Run, id: nat) returns (b: NodeId)
    requires Steady(p0, p, run) && id in run.queue && run.queue[id].def.nodeType.Foreach?
    ensures QueuedScheduler(p0, p, run.history, run.queue[id], b)
  {
    hide Steady, DoneSet, WfPlan, HistoryOk, JobFor, ForeachShape, Unfolds, IsLoop, Outstanding;
    SteadyUnfolds(p0, p, run);
    SteadyJob(p0, p, run, id);
    var f := run.queue[id].nodeId;
    OutstandingOpen(p, run.history, f);
    b := OpenLoop(p0, p, run.history, f);
    BodyRank(p, f, b);
    SchedulerAtoms(p, f, b);
  }

  lemma OutstandingOpen(p: Plan, h: seq<Completion>, n: NodeId)
    requires Outstanding(p, h, n)
    ensures n in p.jobs && n !in DoneSet(h)
  {
  }

  /** A scheduler still to complete is the first plan's, and has the supported shape. */
  lemma OpenLoop(p0: Plan, p: Plan, h: seq<Completion>, f: NodeId) returns (b: NodeId)
    requires Unfolds(p0, p, h) && f in p.jobs && p.jobs[f].def.nodeType.Foreach? && f !in DoneSet(h)
    ensures p.deps.Keys == p.jobs.Keys && ForeachShape(p, f, b)
    ensures IsLoop(p0, f) && BodyId(p0, f) == b && p.jobs[f].loop == p0.jobs[f].loop
  {
    hide DoneSet, Served, Spread, IsBody, IsRejoin, IsIteration, ForeachShape;
    assert NewOk(p0, p, h, f);
    assert NodeOk(p0, p, h, f);
    assert IsLoop(p0, f);
    assert LoopOk(p0, p, h, f);
    b := BodyId(p0, f);
  }

  lemma SchedulerAtoms(p: Plan, f: NodeId, b: NodeId)
    requires ForeachShape(p, f, b)
    ensures f in p.jobs && p.jobs[f].dependents == []
  {
  }

  lemma ScheduledParts(p0: Plan, p: Plan, h: seq<Completion>, job: NodeJob, b: NodeId)
    requires QueuedScheduler(p0, p, h, job, b)
    ensures b in p.rank && b in p.jobs && job.loop.Some? && job.loop.value.body.nodeId == b
    ensures job.loop.value.rejoins == p.jobs[b].dependents && IsLoop(p0, job.nodeId) && Looped(p0)
    ensures RejoinIds(p0, job.nodeId) == job.loop.value.rejoins
  {
    ShapeParts(p, job.nodeId, b);
    hide ForeachShape, WfPlan, HistoryOk, Outstanding, JobFor, DoneSet;
  }

  /** Its completion over items that feed its rejoins is a fan-out of the plan followed. */
  lemma ScheduledFans(p0: Plan, p: Plan, h: seq<Completion>, job: NodeJob, b: NodeId, items: seq<Json>, c: Completion)
    requires QueuedScheduler(p0, p, h, job, b) && c.node == job.nodeId && OutcomeOk(job, c) && ItemsIn(c.result) == Some(items)
    requires c.input == job.input && job.loop.Some? && Feeds(items, job.loop.value.rejoins)
    ensures Scheduling(p, h, job.nodeId, b, job, items, c) && Spreading(p0, p, h, job.nodeId, b, job, items, c)
  {
    hide ForeachShape, WfPlan, HistoryOk, Outstanding, JobFor, DoneSet, Unfolds, ItemsIn, OutcomeOk;
    ShapeParts(p, job.nodeId, b);
  }

  /** Each of the rejoins has this counter. */
  predicate Counted(remaining: map<NodeId, int>, rejoins: seq<NodeId>, n: int) {
    forall r :: r in rejoins ==> r in remaining && remaining[r] == n
  }

  /** With the rejoins counted, the scheduler's completion restores what setting them would. */
  lemma RestoredFan(p0: Plan, h: seq<Completion>, f: NodeId, c: Completion, remaining: map<NodeId, int>, n: nat)
    requires Looped(p0) && IsLoop(p0, f) && c.node == f && Counted(remaining, RejoinIds(p0, f), n)
    ensures Restored(p0, h + [c], remaining) == SetRemaining(Restored(p0, h, remaining), RejoinIds(p0, f), n)
  {
    DoneSetAppend(h, c);
    hide DoneSet, Looped, SetRemaining;
    SetRemainingSpec(Restored(p0, h, remaining), RejoinIds(p0, f), n);
    forall r | r in remaining
      ensures Unused(p0, h + [c], r) <==> Unused(p0, h, r) && r !in RejoinIds(p0, f)
    {
      if r in RejoinIds(p0, f) {
        SoleScheduler(p0, h + [c], f, r);
      }
    }
  }

  /** The rows a fan-out over `items` leaves when its counters are not touched. */
  ghost predicate FannedOut(run: Run, id: nat, job: NodeJob, items: seq<Json>, c: Completion, after: Run)
    requires job.loop.Some?
  {
    && IdsOk(after) && after.pending == |after.queue|
    && after.history == run.history + [c] && after.remaining == run.remaining && after.parked == run.parked
    && after.queue == (run.queue - {id}) + NewTokens(run.nextId, BodyJobs(job, job.loop.value, items))
  }

  /** A scheduler's completion over items that feed its rejoins leaves a steady run exactly when they are counted. */
  lemma SpreadSteady(p0: Plan, p: Plan, run: Run, id: nat, b: NodeId, items: seq<Json>, c: Completion, after: Run)
    requires Steady(p0, p, run) && id in run.queue && QueuedScheduler(p0, p, run.history, run.queue[id], b)
    requires var job := run.queue[id];
             && c.node == job.nodeId && c.input == job.input && OutcomeOk(job, c) && ItemsIn(c.result) == Some(items)
             && job.loop.Some? && Feeds(items, job.loop.value.rejoins) && FannedOut(run, id, job, items, c, after)
    ensures b in p.rank
    ensures Steady(p0, Expand(p, b, run.queue[id], items), after) <==>
            Counted(run.remaining, run.queue[id].loop.value.rejoins, |items|)
  {
    hide Steady, QueuedScheduler, Scheduling, Spreading, OutcomeOk, ItemsIn, Expand, SetRemaining, Counted, Restored, IsLoop;
    hide Looped, Unfolds, FannedOut, BodyJobs, Core, Covered;
    var job := run.queue[id];
    ScheduledParts(p0, p, run.history, job, b);
    ScheduledFans(p0, p, run.history, job, b, items, c);
    UnfoldsFan(p0, p, run.history, job.nodeId, b, job, items, c);
    if Counted(run.remaining, job.loop.value.rejoins, |items|) {
      SpreadCore(p0, p, run, id, b, items, c);
      RestoredFan(p0, run.history, job.nodeId, c, run.remaining, |items|);
      FannedCounters(p0, Expand(p, b, job, items), run, id, job, items, c, after);
    } else {
      Miscounted(p0, p, run, id, b, items, c, after);
    }
  }

  lemma FannedCounters(p0: Plan, p': Plan, run: Run, id: nat, job: NodeJob, items: seq<Json>, c: Completion, after: Run)
    requires job.loop.Some? && FannedOut(run, id, job, items, c, after) && Unfolds(p0, p', run.history + [c])
    requires var queue' := (run.queue - {id}) + NewTokens(run.nextId, BodyJobs(job, job.loop.value, items));
             && Core(p', run.history + [c], Restored(p0, run.history + [c], run.remaining), queue', run.parked)
             && Covered(p', run.history + [c], queue', run.parked, {})
    ensures Steady(p0, p', after)
  {
    hide Core, Covered, Unfolds, Restored, IdsOk, BodyJobs, NewTokens;
    CalmIds(p0, after);
  }

  /** The nodes after the fan-out, with the rejoins' counters set. */
  lemma SpreadCore(p0: Plan, p: Plan, run: Run, id: nat, b: NodeId, items: seq<Json>, c: Completion)
    requires Steady(p0, p, run) && id in run.queue
    requires var job := run.queue[id]; Scheduling(p, run.history, job.nodeId, b, job, items, c)
    ensures var job := run.queue[id];
            && job.loop.Some? && b in p.rank
            && var p' := Expand(p, b, job, items);
            var queue' := (run.queue - {id}) + NewTokens(run.nextId, BodyJobs(job, job.loop.value, items));
            var set' := SetRemaining(Restored(p0, run.history, run.remaining), job.loop.value.rejoins, |items|);
            && Core(p', run.history + [c], set', queue', run.parked)
            && Covered(p', run.history + [c], queue', run.parked, {})
  {
    hide Unfolds, Scheduling, Expand, Core, Covered, BodyJobs, NewTokens, HasToken, SetRemaining, Restored, IdsOk, Outstanding, JobFor;
    var calm := Calm(p0, run);
    var job := run.queue[id];
    SchedulingFans(p, run.history, job.nodeId, b, job, items, c);
    Detach(p, calm, id);
    Below(calm, id);
    ExpandCore(p, run.history, calm.remaining, run.queue - {id}, run.parked, job.nodeId, b, job, items, c, run.nextId);
  }

  /** A rejoin whose counter is not the number of iterations is miscounted. */
  lemma Miscounted(p0: Plan, p: Plan, run: Run, id: nat, b: NodeId, items: seq<Json>, c: Completion, after: Run)
    requires Steady(p0, p, run) && id in run.queue && QueuedScheduler(p0, p, run.history, run.queue[id], b)
    requires var job := run.queue[id];
             && Scheduling(p, run.history, job.nodeId, b, job, items, c) && c.node == job.nodeId
             && job.loop.Some? && FannedOut(run, id, job, items, c, after)
             && !Counted(run.remaining, job.loop.value.rejoins, |items|)
    ensures b in p.rank && !Steady(p0, Expand(p, b, run.queue[id], items), after)
  {
    hide Steady, QueuedScheduler, Scheduling, OutcomeOk, Expand, Restored, IsLoop, DoneSet, Looped, IterIds, BodyJobs, Unused;
    hide IdsOk, NewTokens;
    var job := run.queue[id];
    var r :| r in job.loop.value.rejoins && !(r in run.remaining && run.remaining[r] == |items|);
    SchedulingFans(p, run.history, job.nodeId, b, job, items, c);
    ScheduledParts(p0, p, run.history, job, b);
    RejoinExpected(p, run.history, job, b, items, c, r);
    DoneSetAppend(run.history, c);
    SoleScheduler(p0, after.history, job.nodeId, r);
    if Steady(p0, Expand(p, b, job, items), after) {
      UsedCounted(p0, Expand(p, b, job, items), after, r);
    }
  }

  lemma RejoinExpected(p: Plan, h: seq<Completion>, job: NodeJob, b: NodeId, items: seq<Json>, c: Completion, r: NodeId)
    requires Scheduling(p, h, job.nodeId, b, job, items, c) && r in p.jobs[b].dependents
    ensures job.loop.Some? && b in p.rank
    ensures var p' := Expand(p, b, job, items);
            && r in p'.jobs && r in p'.deps && r !in p'.seeds
            && |p'.deps[r] - DoneSet(h + [c])| == |items|
  {
    FanFacts(p, job.nodeId, b, job, items);
    RejoinCount(p, h, job.nodeId, b, job, items, c, r);
    hide Fans, Expand, HistoryOk, OutcomeOk, Outstanding, JobFor, DoneSet, Marked, IterIds;
    Rejoin(p, job.nodeId, b, job, items, r);
    OldNode(p, job.nodeId, b, job, items, r);
  }

  /** Without an item for its rejoins no rewritten plan is well formed. */
  lemma NotFed(p0: Plan, p: Plan, h: seq<Completion>, job: NodeJob, b: NodeId)
    requires QueuedScheduler(p0, p, h, job, b) && job.loop.Some? && job.loop.value.rejoins != []
    ensures b in p.rank && !WfPlan(Expand(p, b, job, []))
  {
    ScheduledParts(p0, p, h, job, b);
    BodyNamed(p, job.nodeId, b);
    var r := p.jobs[b].dependents[0];
    NoBodies(job, job.loop.value);
    hide HistoryOk, Outstanding, JobFor, DoneSet, Unfolds, IsLoop, Looped, Named, Aligned;
    var p' := Expand(p, b, job, []);
    if WfPlan(p') {
      SeedsAre(p', r);
      hide WfPlan;
    }
  }

  lemma SeedsAre(p: Plan, r: NodeId)
    requires WfPlan(p) && r in p.jobs
    ensures r in p.deps && (r in p.seeds <==> p.deps[r] == {})
  {
    assert DepsOk(p, r);
  }

  lemma NotWf(p0: Plan, p: Plan, run: Run)
    ensures !WfPlan(p) ==> !Steady(p0, p, run)
  {
    hide WfPlan;
    if Steady(p0, p, run) {
      SteadyWf(p0, p, run);
    }
  }

  /** What the transaction of a claimed scheduler leaves. */
  lemma ScatterIs(run: Run, claim: Claim, items: seq<Json>) returns (after: Run)
    requires IdsOk(run) && run.pending == |run.queue| && ClaimValid(run, claim) && run.queue[claim.id].loop.Some?
    ensures var job := run.queue[claim.id]; var c := Spreads(job, items);
            && Committed(run, FanAtom(job, claim, items)) == after && FannedOut(run, claim.id, job, items, c, after)
            && c.node == job.nodeId && ItemsIn(c.result) == Some(items)
            && (!job.skip && !job.def.nodeType.Switch? ==> OutcomeOk(job, c))
  {
    hide IdsOk, CommitAtom, NewTokens, BodyJobs, ItemsIn;
    var job := run.queue[claim.id];
    after := FanOutIs(run, claim, Spreads(job, items), BodyJobs(job, job.loop.value, items));
  }

  /** The fan-out transaction of a claimed scheduler. */
  lemma ScatterSteady(p0: Plan, p: Plan, run: Run, claim: Claim, items: seq<Json>)
    requires Steady(p0, p, run) && ClaimValid(run, claim)
    requires run.queue[claim.id].def.nodeType.Foreach? && !run.queue[claim.id].skip
    ensures var job := run.queue[claim.id];
            && job.loop.Some? && job.loop.value.body.nodeId in p.rank
            && (Steady(p0, Expand(p, job.loop.value.body.nodeId, job, items), Committed(run, FanAtom(job, claim, items))) <==>
                Feeds(items, job.loop.value.rejoins) && Counted(run.remaining, job.loop.value.rejoins, |items|))
  {
    hide Steady, QueuedScheduler, Expand, Counted, IdsOk, CommitAtom, NewTokens, IsLoop, Looped;
    var job := run.queue[claim.id];
    var c := Spreads(job, items);
    var b := SteadyScheduler(p0, p, run, claim.id);
    ScheduledParts(p0, p, run.history, job, b);
    SteadyIds(p0, p, run);
    var after := ScatterIs(run, claim, items);
    hide BodyJobs, ItemsIn, FannedOut, FanAtom, ItemsResult;
    if Feeds(items, job.loop.value.rejoins) {
      SpreadSteady(p0, p, run, claim.id, b, items, c, after);
    } else {
      NotFed(p0, p, run.history, job, b);
      NotWf(p0, Expand(p, b, job, []), after);
    }
  }

  /** The completion of a claimed scheduler that a switch skipped. */
  lemma SkippedSteady(p0: Plan, p: Plan, run: Run, claim: Claim)
    requires Steady(p0, p, run) && ClaimValid(run, claim)
    requires run.queue[claim.id].def.nodeType.Foreach? && run.queue[claim.id].skip
    ensures var job := run.queue[claim.id];
            && job.loop.Some? && job.loop.value.body.nodeId in p.rank
            && var after := Committed(run, AtomOf(job, claim, Skipping(job), None));
            (Steady(p0, Expand(p, job.loop.value.body.nodeId, job, []), after) <==> job.loop.value.rejoins == [])
  {
    hide Steady, QueuedScheduler, Expand, Counted, IdsOk, CommitAtom, NewTokens, IsLoop, Looped, NextJobs, ItemsIn;
    var job := run.queue[claim.id];
    var c := Skipping(job);
    var b := SteadyScheduler(p0, p, run, claim.id);
    ScheduledParts(p0, p, run.history, job, b);
    SteadyIds(p0, p, run);
    if job.loop.value.rejoins == [] {
      NoneCarried(p0, p, run.history, job, b);
      NoneNext(c, job.downstream, run.nextId);
      NoneSpread(job, run.remaining, run.nextId);
      SkippedAtom(job, claim);
      var after := FanOutIs(run, claim, c, NextJobs(c, job.downstream));
      SkipFanned(run, claim.id, job, c, after);
      NoneCounted(run.remaining);
      assert ItemsIn(c.result) == Some([]);
      SpreadSteady(p0, p, run, claim.id, b, [], c, after);
    } else {
      NotFed(p0, p, run.history, job, b);
      NotWf(p0, Expand(p, b, job, []), Committed(run, AtomOf(job, claim, c, None)));
    }
  }

  lemma NoneCarried(p0: Plan, p: Plan, h: seq<Completion>, job: NodeJob, b: NodeId)
    requires QueuedScheduler(p0, p, h, job, b) && job.loop.Some? && job.loop.value.rejoins == []
    ensures job.downstream == [] && job.dependents == []
  {
    ScheduledParts(p0, p, h, job, b);
    BodyNamed(p, job.nodeId, b);
    hide WfPlan, HistoryOk, Outstanding, JobFor, DoneSet, Unfolds, IsLoop, Looped, Aligned;
  }

  lemma SkippedAtom(job: NodeJob, claim: Claim)
    requires job.dependents == []
    ensures AtomOf(job, claim, Skipping(job), None) == ScatterAtom(claim, Skipping(job), NextJobs(Skipping(job), job.downstream))
  {
  }

  lemma SkipFanned(run: Run, id: nat, job: NodeJob, c: Completion, after: Run)
    requires job.loop.Some? && NewTokens(run.nextId, BodyJobs(job, job.loop.value, [])) == map[]
    requires IdsOk(after) && after.pending == |after.queue|
    requires after.history == run.history + [c] && after.remaining == run.remaining && after.parked == run.parked
    requires after.queue == run.queue - {id} + map[]
    ensures FannedOut(run, id, job, [], c, after)
  {
    hide IdsOk, NewTokens, BodyJobs;
  }

  lemma NoneCounted(remaining: map<NodeId, int>)
    ensures Counted(remaining, [], 0)
  {
  }

  // ----- every move

  /** The plan followed after a move: rewritten by a fan-out that takes effect, else the same. */
  ghost function PlanNext(p: Plan, run: Run, m: Move): Plan {
    match m
    case Scatter(claim, job, items) =>
      if ClaimValid(run, claim) && job.loop.Some? && job.loop.value.body.nodeId in p.rank
      then Expand(p, job.loop.value.body.nodeId, job, items) else p
    case Submit(claim, job, _) =>
      if ClaimValid(run, claim) && job.def.nodeType.Foreach? && job.loop.Some? && job.loop.value.body.nodeId in p.rank
      then Expand(p, job.loop.value.body.nodeId, job, []) else p
    case _ => p
  }

  /**
   The moves the counters survive, by what the mover can look up:
   - a rejoin's counter is written while the scheduler is still queued, or as it stands;
   - a fan-out with a valid claim finds its rejoins at the number of its items, and has an item if it has rejoins;
   - a skipped scheduler that completes has no rejoins;
   - a resumed wait is still parked;
   and any other move.
   */
  predicate Harmless(run: Run, m: Move) {
    match m
    case Recount(claim, _, rejoin, count) => claim.id in run.queue || (rejoin in run.remaining && run.remaining[rejoin] == count)
    case Scatter(claim, job, items) =>
      ClaimValid(run, claim) && job.loop.Some? ==>
        Feeds(items, job.loop.value.rejoins) && Counted(run.remaining, job.loop.value.rejoins, |items|)
    case Submit(claim, job, _) =>
      ClaimValid(run, claim) && job.def.nodeType.Foreach? && job.loop.Some? ==> job.loop.value.rejoins == []
    case Revive(n, _, _, _) => n in run.parked
    case _ => true
  }

  /** What an honest mover knows: the job it read as the plan has it, or the continuation it read. */
  ghost predicate Known(p0: Plan, run: Run, m: Move) {
    && OfTheJob(run, m)
    && (JobOf(m).Some? ==> Schedules(p0, JobOf(m).value.1))
    && (m.Revive? ==> Waits(run, m.node, m.cont))
  }

  lemma SubmitExactly(lim: Limits, p0: Plan, p: Plan, run: Run, m: Move)
    requires Steady(p0, p, run) && Known(p0, run, m) && m.Submit?
    ensures Steady(p0, PlanNext(p, run, m), After(lim, run, m)) <==> Harmless(run, m)
  {
    hide Steady, CommitAtom, AtomOf, Expand, StillThere, DoneSet, OutcomeOk, Schedules;
    if ClaimValid(run, m.claim) {
      ValidJob(run, m);
      if m.job.def.nodeType.Foreach? {
        SkippedSteady(p0, p, run, m.claim);
      } else {
        SubmitSteady(p0, p, run, m.claim, m.c);
      }
    } else {
      StaleSubmitIsNothing(run, m.claim, m.job, m.c);
    }
  }

  lemma ScatterExactly(lim: Limits, p0: Plan, p: Plan, run: Run, m: Move)
    requires Steady(p0, p, run) && Known(p0, run, m) && m.Scatter?
    ensures Steady(p0, PlanNext(p, run, m), After(lim, run, m)) <==> Harmless(run, m)
  {
    hide Steady, CommitAtom, FanAtom, Expand, StillThere, DoneSet, Schedules, Counted;
    if ClaimValid(run, m.claim) {
      ValidJob(run, m);
      ScatterSteady(p0, p, run, m.claim, m.items);
    } else {
      AtomAcks(m.job, m.claim, Spreads(m.job, m.items), m.items);
      StaleAtomIsNothing(run, FanAtom(m.job, m.claim, m.items));
    }
  }

  lemma RecountExactly(lim: Limits, p0: Plan, p: Plan, run: Run, m: Move)
    requires Steady(p0, p, run) && Known(p0, run, m) && m.Recount?
    ensures Steady(p0, p, After(lim, run, m)) <==> Harmless(run, m)
  {
    hide Steady, StillThere, SetRemaining;
    RecountSteady(p0, p, run, m.claim.id, m.job, m.rejoin, m.count);
  }

  lemma SuspendExactly(lim: Limits, p0: Plan, p: Plan, run: Run, m: Move)
    requires Steady(p0, p, run) && Known(p0, run, m) && m.Suspend?
    ensures Steady(p0, p, After(lim, run, m))
  {
    hide Steady, StillThere, Park, Schedules;
    if ClaimValid(run, m.claim) {
      ValidJob(run, m);
      SuspendSteady(p0, p, run, m.claim, m.signal, m.runAt);
    }
  }

  lemma ReviveExactly(lim: Limits, p0: Plan, p: Plan, run: Run, m: Move)
    requires Steady(p0, p, run) && Known(p0, run, m) && m.Revive?
    ensures Steady(p0, p, After(lim, run, m)) <==> Harmless(run, m)
  {
    hide Steady, StillThere, Revived, DoneSet, HistoryOk, IdsOk;
    if m.node in run.parked {
      ReviveSteady(p0, p, run, m.node, m.source, m.payload);
    } else {
      SteadyIds(p0, p, run);
      ReviveTwice(p, run, m.node, m.cont, m.source, m.payload);
      if Steady(p0, p, After(lim, run, m)) {
        SteadyHistory(p0, p, After(lim, run, m));
      }
    }
  }

  lemma SteadyHistory(p0: Plan, p: Plan, run: Run)
    requires Steady(p0, p, run)
    ensures HistoryOk(p, run.history)
  {
    SteadyWf(p0, p, run);
  }

  /** A move keeps the run steady, for the plan it then follows, exactly if it is harmless. */
  lemma MoveExactly(lim: Limits, p0: Plan, p: Plan, run: Run, m: Move)
    requires Steady(p0, p, run) && Known(p0, run, m)
    ensures Steady(p0, PlanNext(p, run, m), After(lim, run, m)) <==> Harmless(run, m)
  {
    hide Steady, After, Known, Expand, Counted, Feeds;
    match m
    case Submit(_, _, _) => SubmitExactly(lim, p0, p, run, m);
    case Scatter(_, _, _) => ScatterExactly(lim, p0, p, run, m);
    case Recount(_, _, _, _) => RecountExactly(lim, p0, p, run, m);
    case Suspend(_, _, _, _) => SuspendExactly(lim, p0, p, run, m);
    case Revive(_, _, _, _) => ReviveExactly(lim, p0, p, run, m);
    case _ =>
      KnownPossible(p0, run, m);
      BookkeepingSteady(lim, p0, p, run, m);
  }

  lemma KnownPossible(p0: Plan, run: Run, m: Move)
    requires Known(p0, run, m)
    ensures Possible(run, m)
  {
    hide Schedules, StillThere;
  }

  // ----- what movers know

  lemma {:induction false} DecrementKeys(remaining: map<NodeId, int>, ds: seq<NodeId>)
    ensures Decrement(remaining, ds).Some? ==> Decrement(remaining, ds).value.0.Keys == remaining.Keys
  {
    if ds != [] {
      DecrementKeys(remaining, ds[..|ds| - 1]);
    }
  }

  lemma CommittedKeys(run: Run, atom: NodeAtom)
    ensures Committed(run, atom).remaining.Keys == run.remaining.Keys && Committed(run, atom).parked == run.parked
  {
    DecrementKeys(run.remaining, atom.dependents);
    hide Decrement, ReadyJobs, Enqueue, ClaimValid;
    var written := run.(results := run.results[atom.nodeId := atom.result], history := run.history + atom.log);
    match Decrement(run.remaining, atom.dependents)
    case None =>
    case Some((m, ready)) =>
      EnqueueFrame(written.(remaining := m), ReadyJobs(atom.dependents, ready, atom.downstream), m, run.parked);
  }

  lemma RevivedKeys(run: Run, n: NodeId, cont: Continuation, source: string, payload: Json)
    ensures Revived(run, n, cont, source, payload).remaining.Keys == run.remaining.Keys
  {
    DecrementKeys(run.remaining, cont.dependents);
    hide Decrement, ReadyJobs, Enqueue, NextJobs, WakeResult;
    var c := Waking(cont, source, payload);
    var written := run.(results := run.results[cont.nodeId := c.result], history := run.history + [c]);
    match Decrement(run.remaining, cont.dependents)
    case None =>
    case Some((m, ready)) =>
      EnqueueFrame(written.(remaining := m), ReadyJobs(cont.dependents, ready, NextJobs(c, cont.downstream)), m, run.parked);
  }

  /** No move drops a counter. */
  lemma MoveKeepsKeys(lim: Limits, run: Run, m: Move)
    requires Possible(run, m)
    ensures After(lim, run, m).remaining.Keys == run.remaining.Keys
  {
    hide CommitAtom, AtomOf, FanAtom, Revived, Faulted, Shelve, LateCheck, SetRemaining;
    match m
    case Submit(claim, job, c) => CommittedKeys(run, AtomOf(job, claim, c, None));
    case Scatter(claim, job, items) => CommittedKeys(run, FanAtom(job, claim, items));
    case Revive(n, cont, source, payload) => RevivedKeys(run, n, cont, source, payload);
    case Recount(_, _, rejoin, count) => SetOne(run.remaining, rejoin, count);
    case Suspend(_, _, _, _) =>
    case _ => BookkeepingMovesNothing(lim, run, m);
  }

  /** A wait whose continuation was read is parked as it was, or has completed. */
  lemma MoveWaits(lim: Limits, p0: Plan, p: Plan, run: Run, m: Move, n: NodeId, cont: Continuation)
    requires Steady(p0, p, run) && Known(p0, run, m) && Waits(run, n, cont)
    ensures Waits(After(lim, run, m), n, cont)
  {
    KnownPossible(p0, run, m);
    MoveKeepsKeys(lim, run, m);
    hide Steady, Known, After, DoneSet;
    WaitPlace(lim, p0, p, run, m, n, cont);
  }

  lemma WaitPlace(lim: Limits, p0: Plan, p: Plan, run: Run, m: Move, n: NodeId, cont: Continuation)
    requires Steady(p0, p, run) && Known(p0, run, m) && Possible(run, m)
    requires if n in run.parked then run.parked[n] == cont else n in DoneSet(run.history)
    ensures var after := After(lim, run, m);
            if n in after.parked then after.parked[n] == cont else n in DoneSet(after.history)
  {
    hide Steady, CommitAtom, AtomOf, FanAtom, Revived, Park, Faulted, Shelve, LateCheck, SetRemaining, OutcomeOk, IdsOk;
    hide StillThere, Schedules, DoneSet, QueueGrows, Decrement;
    SteadyIds(p0, p, run);
    match m
    case Submit(claim, job, c) =>
      AtomAcks(job, claim, c, []);
      AtomPlace(run, AtomOf(job, claim, c, None), c, n);
    case Scatter(claim, job, items) =>
      AtomAcks(job, claim, Spreads(job, items), items);
      AtomPlace(run, FanAtom(job, claim, items), Spreads(job, items), n);
    case Suspend(claim, job, signal, runAt) =>
      if ClaimValid(run, claim) {
        ValidJob(run, m);
        ParkShape(run, claim, signal, runAt);
        QueuedIsNew(p0, p, run, claim.id);
      }
    case Revive(k, c, source, payload) =>
      ReviveCommits(run, k, c, source, payload);
      DoneSetAppend(run.history, Waking(c, source, payload));
    case Recount(_, _, _, _) =>
    case _ => BookkeepingMovesNothing(lim, run, m);
  }

  lemma AtomPlace(run: Run, atom: NodeAtom, c: Completion, n: NodeId)
    requires IdsOk(run) && atom.ack.Some? && atom.log == [c]
    ensures Committed(run, atom).parked == run.parked
    ensures n in DoneSet(run.history) ==> n in DoneSet(Committed(run, atom).history)
  {
    CommittedKeys(run, atom);
    hide CommitAtom, IdsOk, DoneSet;
    if CommitAtom(run, atom).Some? {
      AtomCommits(run, atom);
      DoneSetAppend(run.history, c);
    }
  }

  /** A queued job's node is neither parked nor completed. */
  lemma QueuedIsNew(p0: Plan, p: Plan, run: Run, id: nat)
    requires Steady(p0, p, run) && id in run.queue
    ensures run.queue[id].nodeId !in run.parked && run.queue[id].nodeId !in DoneSet(run.history)
  {
    SteadyJob(p0, p, run, id);
    hide Unfolds, WfPlan, HistoryOk, CountsOk, TokensOk, ParkedOk, Covered, IdsOk, Restored, JobFor, DoneSet;
  }

  // ----- every history

  /** The plan followed after the moves, from the plan `p` on. */
  ghost function PlanMoved(p: Plan, runs: seq<Run>, moves: seq<Move>): Plan
    requires |moves| <= |runs|
  {
    if moves == [] then p
    else
      var n := |moves| - 1;
      PlanNext(PlanMoved(p, runs, moves[..n]), runs[n], moves[n])
  }

  /** In state `i` the run is steady, for the plan then followed. */
  ghost predicate SteadyAt(p0: Plan, p: Plan, runs: seq<Run>, moves: seq<Move>, i: nat)
    requires i <= |moves| < |runs|
  {
    Steady(p0, PlanMoved(p, runs, moves[..i]), runs[i])
  }

  /** It was steady in every state up to `i`. */
  ghost predicate SteadyUpTo(p0: Plan, p: Plan, runs: seq<Run>, moves: seq<Move>, i: nat)
    requires i <= |moves| < |runs|
  {
    forall j: nat {:trigger SteadyAt(p0, p, runs, moves, j)} :: j <= i ==> SteadyAt(p0, p, runs, moves, j)
  }

  /** The first `i` moves were harmless. */
  ghost predicate HarmlessUpTo(runs: seq<Run>, moves: seq<Move>, i: nat)
    requires i <= |moves| < |runs|
  {
    forall j: nat {:trigger Harmless(runs[j], moves[j])} :: j < i ==> Harmless(runs[j], moves[j])
  }

  /** A continuation, read in a steady state. */
  lemma ReadWaits(p0: Plan, p: Plan, run: Run, n: NodeId)
    requires Steady(p0, p, run) && n in run.parked
    ensures Waits(run, n, run.parked[n])
  {
    hide Steady, DoneSet;
    ParkedParts(p0, p, run, n);
  }

  lemma ReadSchedules(p0: Plan, p: Plan, run: Run, id: nat)
    requires Steady(p0, p, run) && id in run.queue
    ensures Schedules(p0, run.queue[id])
  {
    hide Steady, DoneSet, ForeachShape, WfPlan, HistoryOk, JobFor, Outstanding, Unfolds;
    if run.queue[id].def.nodeType.Foreach? {
      var b := SteadyScheduler(p0, p, run, id);
    }
  }

  /** As long as the run is steady, every mover knows what it read. */
  lemma {:induction false} MoverKnows(lim: Limits, p0: Plan, p: Plan, runs: seq<Run>, moves: seq<Move>, i: nat)
    requires IsFine(lim, runs, moves) && i < |moves| && SteadyUpTo(p0, p, runs, moves, i)
    ensures Known(p0, runs[i], moves[i]) && runs[i + 1] == After(lim, runs[i], moves[i])
    decreases i, 1
  {
    hide Steady, After, Waits, Schedules, OfTheJob, Possible, Fitting, IdsOk;
    var m := moves[i];
    FineStep(lim, runs, moves, i);
    assert Honest(runs, moves, i);
    if JobOf(m).Some? {
      var (claim, job) := JobOf(m).value;
      HonestReads(runs, moves, i);
      var g: nat, attempts: nat :| g < i && ReadAt(runs, moves, g, claim, job, attempts);
      assert SteadyAt(p0, p, runs, moves, g);
      ReadSchedules(p0, PlanMoved(p, runs, moves[..g]), runs[g], claim.id);
    }
    if m.Revive? {
      var g: nat :| g <= i && ReadWait(runs, g, m.node, m.cont);
      assert SteadyAt(p0, p, runs, moves, g);
      ReadWaits(p0, PlanMoved(p, runs, moves[..g]), runs[g], m.node);
      StillWaits(lim, p0, p, runs, moves, g, i, m.node, m.cont);
    }
  }

  lemma {:induction false} StillWaits(lim: Limits, p0: Plan, p: Plan, runs: seq<Run>, moves: seq<Move>, g: nat, i: nat,
          n: NodeId, cont: Continuation)
    requires IsFine(lim, runs, moves) && g <= i < |moves| && Waits(runs[g], n, cont)
    requires SteadyUpTo(p0, p, runs, moves, i)
    ensures Waits(runs[i], n, cont)
    decreases i, 0
  {
    hide Steady, After, Waits, Known, IdsOk;
    if g < i {
      StillWaits(lim, p0, p, runs, moves, g, i - 1, n, cont);
      MoverKnows(lim, p0, p, runs, moves, i - 1);
      assert SteadyAt(p0, p, runs, moves, i - 1);
      MoveWaits(lim, p0, PlanMoved(p, runs, moves[..i - 1]), runs[i - 1], moves[i - 1], n, cont);
    }
  }

  lemma NextSteady(lim: Limits, p0: Plan, p: Plan, runs: seq<Run>, moves: seq<Move>, i: nat)
    requires IsFine(lim, runs, moves) && i < |moves| && SteadyUpTo(p0, p, runs, moves, i)
    ensures SteadyAt(p0, p, runs, moves, i + 1) <==> Harmless(runs[i], moves[i])
  {
    hide Steady, After, Harmless, Known, IdsOk, PlanNext;
    MoverKnows(lim, p0, p, runs, moves, i);
    assert SteadyAt(p0, p, runs, moves, i);
    assert moves[..i + 1][..i] == moves[..i];
    MoveExactly(lim, p0, PlanMoved(p, runs, moves[..i]), runs[i], moves[i]);
  }

  /**
   In every history of fine moves the run is steady up to state `i` exactly if every move before it was harmless:
   the first harmful move is the one that makes a counter, or a place, wrong.
   */
  lemma {:induction false} CountersKeep(lim: Limits, p0: Plan, p: Plan, runs: seq<Run>, moves: seq<Move>, i: nat)
    requires IsFine(lim, runs, moves) && Steady(p0, p, runs[0]) && i <= |moves|
    ensures SteadyUpTo(p0, p, runs, moves, i) <==> HarmlessUpTo(runs, moves, i)
  {
    hide Steady, After, Harmless, IdsOk;
    if i == 0 {
      assert moves[..0] == [];
    } else {
      CountersKeep(lim, p0, p, runs, moves, i - 1);
      hide PlanMoved;
      if SteadyUpTo(p0, p, runs, moves, i - 1) {
        NextSteady(lim, p0, p, runs, moves, i - 1);
        hide SteadyAt;
      }
    }
  }

  // ----- the fan-out that comes late, or that never commits

  /** A worker that read a scheduler's job before state `i`, and is about to fan it out over `items`. */
  ghost predicate AboutToFan(lim: Limits, runs: seq<Run>, moves: seq<Move>, i: nat, claim: Claim, job: NodeJob) {
    && IsFine(lim, runs, moves) && i <= |moves|
    && HasRead(runs, moves, i, claim, job)
    && job.def.nodeType.Foreach? && !job.skip && job.loop.Some?
  }

  /** Its job is still there, or its node has completed; and it is the plan's. */
  lemma FanRead(lim: Limits, p0: Plan, p: Plan, runs: seq<Run>, moves: seq<Move>, i: nat, claim: Claim, job: NodeJob)
    requires AboutToFan(lim, runs, moves, i, claim, job) && SteadyUpTo(p0, p, runs, moves, i)
    ensures StillThere(runs[i], claim.id, job) && Schedules(p0, job)
  {
    hide Steady, After, StillThere, Schedules, IdsOk, PlanMoved;
    var g: nat, attempts: nat :| g < i && ReadAt(runs, moves, g, claim, job, attempts);
    JobStays(lim, runs, moves, g, i, claim.id);
    assert SteadyAt(p0, p, runs, moves, g);
    ReadSchedules(p0, PlanMoved(p, runs, moves[..g]), runs[g], claim.id);
  }

  /** Setting the counters of a scheduler's rejoins keeps all counters right exactly if they had this value. */
  lemma SetExactly(p0: Plan, p: Plan, run: Run, id: nat, job: NodeJob, n: nat)
    requires Steady(p0, p, run) && Counters(p, run) && StillThere(run, id, job) && IsLoop(p0, job.nodeId)
    ensures Counters(p, run.(remaining := SetRemaining(run.remaining, RejoinIds(p0, job.nodeId), n))) <==>
            Counted(run.remaining, RejoinIds(p0, job.nodeId), n)
  {
    hide Steady, Counters, StillThere, Unfolds, IsLoop, SetRemaining, WfPlan, HistoryOk, DoneSet;
    SteadyUnfolds(p0, p, run);
    SteadyWf(p0, p, run);
    SchedulerGone(p0, p, run, id, job);
    var rejoins := RejoinIds(p0, job.nodeId);
    var after := run.(remaining := SetRemaining(run.remaining, rejoins, n));
    forall r | r in rejoins
      ensures r in p.jobs && r in p.deps && r !in p.seeds && r in run.remaining
    {
      WaitingRejoin(p0, p, run.history, job.nodeId, r);
      CounterIs(p, run, r);
    }
    SetRemainingSpec(run.remaining, rejoins, n);
    if Counted(run.remaining, rejoins, n) {
      assert after.remaining == run.remaining;
      assert after == run;
    } else if Counters(p, after) {
      var r :| r in rejoins && run.remaining[r] != n;
      CounterIs(p, run, r);
      CounterIs(p, after, r);
    }
  }

  /** Fanned out or not, a scheduler's rejoins are nodes with counters. */
  lemma WaitingRejoin(p0: Plan, p: Plan, h: seq<Completion>, f: NodeId, r: NodeId)
    requires Unfolds(p0, p, h) && WfPlan(p) && HistoryOk(p, h) && IsLoop(p0, f) && r in RejoinIds(p0, f)
    ensures r in p.jobs && r in p.deps && r !in p.seeds
  {
    hide Unfolds, WfPlan, HistoryOk, DoneSet, IsLoop;
    if f in DoneSet(h) {
      UsedRejoin(p0, p, h, f, r);
    } else {
      var g, b := UnusedBy(p0, p, h, r);
      hide ForeachShape;
    }
  }

  lemma CounterIs(p: Plan, run: Run, r: NodeId)
    requires Counters(p, run) && r in p.jobs && r in p.deps && r !in p.seeds
    ensures r in run.remaining && run.remaining[r] == |p.deps[r] - DoneSet(run.history)|
  {
    hide WfPlan, HistoryOk, TokensOk, ParkedOk, Exclusive, Covered, IdsOk, DoneSet;
  }

  /** Setting those counters keeps the run steady exactly if the scheduler is still queued, or they had this value. */
  lemma SetSteady(p0: Plan, p: Plan, run: Run, id: nat, job: NodeJob, n: nat)
    requires Steady(p0, p, run) && StillThere(run, id, job) && IsLoop(p0, job.nodeId)
    ensures Steady(p0, p, run.(remaining := SetRemaining(run.remaining, RejoinIds(p0, job.nodeId), n))) <==>
            id in run.queue || Counted(run.remaining, RejoinIds(p0, job.nodeId), n)
  {
    hide Steady, StillThere, Unfolds, IsLoop, SetRemaining, WfPlan, HistoryOk, DoneSet, Unused;
    SteadyUnfolds(p0, p, run);
    SteadyWf(p0, p, run);
    SchedulerGone(p0, p, run, id, job);
    var rejoins := RejoinIds(p0, job.nodeId);
    var after := run.(remaining := SetRemaining(run.remaining, rejoins, n));
    if id in run.queue {
      forall r | r in rejoins
        ensures Unused(p0, run.history, r) && r in run.remaining
      {
        UnusedCounted(p0, p, run, job.nodeId, r);
      }
      SetRemainingSpec(run.remaining, rejoins, n);
      assert Restored(p0, run.history, after.remaining) == Restored(p0, run.history, run.remaining);
      SameCalm(p0, p, run, after);
    } else {
      forall r | r in rejoins
        ensures r in p.jobs && r in p.deps && r !in p.seeds && !Unused(p0, run.history, r) && r in run.remaining
      {
        UsedRejoin(p0, p, run.history, job.nodeId, r);
        UsedCounted(p0, p, run, r);
      }
      SetRemainingSpec(run.remaining, rejoins, n);
      if Counted(run.remaining, rejoins, n) {
        assert after.remaining == run.remaining;
        assert after == run;
      } else {
        var r :| r in rejoins && run.remaining[r] != n;
        WrongCount(p0, p, run, after, r);
      }
    }
  }

  lemma SameCalm(p0: Plan, p: Plan, run: Run, after: Run)
    requires Steady(p0, p, run) && after.history == run.history && Calm(p0, after) == Calm(p0, run)
    ensures Steady(p0, p, after)
  {
    hide Unfolds, Counters, Calm;
  }

  /**
   The fan-out of a worker that read the scheduler's job, at any time later, in a run in which all counters are
   right. It sets its rejoins' counters whoever holds the claim. If the claim has expired, or the worker crashes
   before it commits, all counters stay right exactly if it has no rejoins or each rejoin's counter was already
   the number of its items: as many items, and no iteration completed since. Nothing that is read goes wrong also
   if the scheduler is still queued, for its next fan-out sets them again. With a valid claim the run follows
   the rewritten plan exactly if there is an item or no rejoin.
   */
  lemma FanOutExactly(lim: Limits, p0: Plan, p: Plan, runs: seq<Run>, moves: seq<Move>, i: nat, claim: Claim,
          job: NodeJob, items: seq<Json>)
    requires AboutToFan(lim, runs, moves, i, claim, job) && Steady(p0, p, runs[0]) && HarmlessUpTo(runs, moves, i)
    requires Counters(PlanMoved(p, runs, moves[..i]), runs[i])
    ensures var q, run, rejoins := PlanMoved(p, runs, moves[..i]), runs[i], job.loop.value.rejoins;
            var counted := run.(remaining := SetRemaining(run.remaining, rejoins, |items|));
            var after := Committed(counted, FanAtom(job, claim, items));
            && (Counters(q, counted) <==> forall r :: r in rejoins ==> r in run.remaining && run.remaining[r] == |items|)
            && (Steady(p0, q, counted) <==> claim.id in run.queue || Counted(run.remaining, rejoins, |items|))
            && (!ClaimValid(run, claim) ==> after == counted)
            && (ClaimValid(run, claim) ==>
                  && job.loop.value.body.nodeId in q.rank
                  && (Steady(p0, Expand(q, job.loop.value.body.nodeId, job, items), after) <==> Feeds(items, rejoins)))
  {
    hide Steady, Counters, After, StillThere, SetRemaining, CommitAtom, FanAtom, Expand, Harmless, IdsOk, PlanMoved, HasRead;
    var q, run, rejoins := PlanMoved(p, runs, moves[..i]), runs[i], job.loop.value.rejoins;
    var counted := run.(remaining := SetRemaining(run.remaining, rejoins, |items|));
    CountersKeep(lim, p0, p, runs, moves, i);
    assert SteadyAt(p0, p, runs, moves, i);
    FanRead(lim, p0, p, runs, moves, i, claim, job);
    hide IsFine, SteadyUpTo, HarmlessUpTo;
    SetExactly(p0, q, run, claim.id, job, |items|);
    SetSteady(p0, q, run, claim.id, job, |items|);
    if ClaimValid(run, claim) {
      ReadIsQueued(run, claim.id, job);
      ValidFan(p0, q, run, claim, job, items);
    } else {
      AtomAcks(job, claim, Spreads(job, items), items);
      StaleAtomIsNothing(counted, FanAtom(job, claim, items));
    }
  }

  lemma ReadIsQueued(run: Run, id: nat, job: NodeJob)
    requires StillThere(run, id, job) && id in run.queue
    ensures run.queue[id] == job
  {
  }

  lemma ValidFan(p0: Plan, p: Plan, run: Run, claim: Claim, job: NodeJob, items: seq<Json>)
    requires ClaimValid(run, claim) && run.queue[claim.id] == job && job.def.nodeType.Foreach? && !job.skip && job.loop.Some?
    requires Steady(p0, p, run)
    requires Steady(p0, p, run.(remaining := SetRemaining(run.remaining, job.loop.value.rejoins, |items|)))
    ensures var counted := run.(remaining := SetRemaining(run.remaining, job.loop.value.rejoins, |items|));
            && job.loop.value.body.nodeId in p.rank
            && (Steady(p0, Expand(p, job.loop.value.body.nodeId, job, items), Committed(counted, FanAtom(job, claim, items)))
                <==> Feeds(items, job.loop.value.rejoins))
  {
    hide Steady, SetRemaining, CommitAtom, FanAtom, Expand, QueuedScheduler;
    var rejoins := job.loop.value.rejoins;
    var counted := run.(remaining := SetRemaining(run.remaining, rejoins, |items|));
    var b := SteadyScheduler(p0, p, run, claim.id);
    QueuedRejoins(p0, p, run, claim.id, b);
    SetRemainingSpec(run.remaining, rejoins, |items|);
    ScatterSteady(p0, p, counted, claim, items);
  }

  lemma QueuedRejoins(p0: Plan, p: Plan, run: Run, id: nat, b: NodeId)
    requires Steady(p0, p, run) && id in run.queue && QueuedScheduler(p0, p, run.history, run.queue[id], b)
    ensures run.queue[id].loop.Some? && forall r :: r in run.queue[id].loop.value.rejoins ==> r in run.remaining
  {
    hide Steady, QueuedScheduler, IsLoop, DoneSet, Looped;
    var job := run.queue[id];
    ScheduledParts(p0, p, run.history, job, b);
    ScheduledOpen(p0, p, run.history, job, b);
    forall r | r in job.loop.value.rejoins
      ensures r in run.remaining
    {
      UnusedCounted(p0, p, run, job.nodeId, r);
    }
  }

  lemma ScheduledOpen(p0: Plan, p: Plan, h: seq<Completion>, job: NodeJob, b: NodeId)
    requires QueuedScheduler(p0, p, h, job, b)
    ensures job.nodeId !in DoneSet(h)
  {
    hide WfPlan, HistoryOk, ForeachShape, Outstanding, JobFor, DoneSet, Unfolds, IsLoop;
  }

  // ----- failures that come late

  /** The job of a failed attempt is still queued or parked, or its node has completed. */
  lemma FaultRead(p0: Plan, p: Plan, run: Run, m: Move)
    requires Steady(p0, p, run) && OfTheJob(run, m) && m.Fault?
    ensures m.claim.id in run.queue || m.job.nodeId in run.parked <==> m.job.nodeId !in DoneSet(run.history)
  {
    hide Steady, DoneSet, Possible, Fitting, Outstanding;
    if m.claim.id in run.queue {
      QueuedIsNew(p0, p, run, m.claim.id);
    } else if m.job.nodeId in run.parked {
      ParkedParts(p0, p, run, m.job.nodeId);
      OutstandingOpen(p, run.history, m.job.nodeId);
    }
  }

  lemma DoneHasResult(run: Run, n: NodeId)
    requires ResultsOk(run.history, run.results) && n in DoneSet(run.history)
    ensures n in run.results
  {
  }

  /**
   A failed attempt in a history of fine moves, late or in time. The stored results stay those of the completed
   nodes exactly when the job is still in the queue or parked (so its node has not completed), or the row written
   is the result already stored. A run that was rightly running is wrongly failed exactly when the worker gives
   up without a valid claim and nothing is dead-lettered.
   */
  lemma FailureExactly(lim: Limits, p0: Plan, p: Plan, runs: seq<Run>, moves: seq<Move>, i: nat)
    requires IsFine(lim, runs, moves) && Steady(p0, p, runs[0]) && i < |moves| && HarmlessUpTo(runs, moves, i)
    requires moves[i].Fault? && ResultsOk(runs[i].history, runs[i].results) && FailedRightly(runs[i])
    ensures var run, after, m := runs[i], runs[i + 1], moves[i];
            && (m.claim.id !in run.queue && m.job.nodeId !in run.parked ==> m.job.nodeId in run.results)
            && (ResultsOk(after.history, after.results) <==>
                || m.claim.id in run.queue || m.job.nodeId in run.parked
                || run.results[m.job.nodeId] == FailureResult(m.cause))
            && (FailedRightly(after) <==>
                || !Terminal(lim, m.cause, m.attempts) || ClaimValid(run, m.claim)
                || exists k :: k in run.rows && run.rows[k].place == Dead)
  {
    hide Steady, FailedRightly, Faulted, Terminal, FailureResult, DoneSet, ClaimValid, ResultsOk, OfTheJob, IdsOk, Harmless;
    var run, m := runs[i], moves[i];
    CountersKeep(lim, p0, p, runs, moves, i);
    assert SteadyAt(p0, p, runs, moves, i);
    FineStep(lim, runs, moves, i);
    hide IsFine;
    FaultRead(p0, PlanMoved(p, runs, moves[..i]), run, m);
    if m.job.nodeId in DoneSet(run.history) {
      DoneHasResult(run, m.job.nodeId);
    }
    FaultOnResults(lim, run, m.claim, m.job, m.input, m.attempts, m.cause);
    FaultOnStatus(lim, run, m.claim, m.job, m.input, m.attempts, m.cause);
  }

  /** A failed attempt of a job that left the queue and is not parked, which writes another result than the one stored. */
  ghost predicate Overwrites(run: Run, m: Move) {
    && m.Fault? && m.claim.id !in run.queue && m.job.nodeId !in run.parked
    && m.job.nodeId in run.results && run.results[m.job.nodeId] != FailureResult(m.cause)
  }

  /**
   As long as every move is harmless and no late failure overwrites a result, the stored results are those of the
   completed nodes.
   */
  lemma {:induction false} ResultsHold(lim: Limits, p0: Plan, p: Plan, runs: seq<Run>, moves: seq<Move>, i: nat)
    requires IsFine(lim, runs, moves) && Steady(p0, p, runs[0]) && i <= |moves| && HarmlessUpTo(runs, moves, i)
    requires ResultsOk(runs[0].history, runs[0].results)
    requires forall j :: 0 <= j < i ==> !Overwrites(runs[j], moves[j])
    ensures ResultsOk(runs[i].history, runs[i].results)
  {
    hide Steady, After, ResultsOk, OfTheJob, FailureResult, IdsOk, Harmless, Overwrites;
    if i > 0 {
      ResultsHold(lim, p0, p, runs, moves, i - 1);
      CountersKeep(lim, p0, p, runs, moves, i - 1);
      FineStep(lim, runs, moves, i - 1);
      assert SteadyAt(p0, p, runs, moves, i - 1);
      assert Harmless(runs[i - 1], moves[i - 1]);
      hide IsFine;
      MoverKnows(lim, p0, p, runs, moves, i - 1);
      MoveHolds(lim, p0, PlanMoved(p, runs, moves[..i - 1]), runs[i - 1], moves[i - 1]);
    }
  }

  lemma MoveHolds(lim: Limits, p0: Plan, p: Plan, run: Run, m: Move)
    requires Steady(p0, p, run) && Known(p0, run, m) && Harmless(run, m)
    requires ResultsOk(run.history, run.results) && !Overwrites(run, m)
    ensures ResultsOk(After(lim, run, m).history, After(lim, run, m).results)
  {
    hide Steady, CommitAtom, AtomOf, FanAtom, Revived, Park, Faulted, Shelve, LateCheck, SetRemaining, OutcomeOk, IdsOk;
    hide StillThere, Schedules, DoneSet, QueueGrows, Decrement, ResultsOk, FailureResult, ItemsResult;
    SteadyIds(p0, p, run);
    match m
    case Submit(claim, job, c) =>
      AtomAcks(job, claim, c, []);
      AtomHolds(p0, p, run, m, AtomOf(job, claim, c, None), c);
    case Scatter(claim, job, items) =>
      AtomAcks(job, claim, Spreads(job, items), items);
      AtomHolds(p0, p, run, m, FanAtom(job, claim, items), Spreads(job, items));
    case Suspend(claim, job, signal, runAt) =>
      if ClaimValid(run, claim) {
        ParkShape(run, claim, signal, runAt);
      }
    case Revive(n, cont, source, payload) =>
      ParkedParts(p0, p, run, n);
      OutstandingOpen(p, run.history, n);
      ReviveCommits(run, n, cont, source, payload);
      ResultsAppend(run.history, Waking(cont, source, payload), run.results);
    case Recount(_, _, _, _) =>
    case Fault(claim, job, input, attempts, cause) =>
      FaultRead(p0, p, run, m);
      if job.nodeId in DoneSet(run.history) {
        DoneHasResult(run, job.nodeId);
      }
      FaultOnResults(lim, run, claim, job, input, attempts, cause);
    case _ => BookkeepingMovesNothing(lim, run, m);
  }

  lemma AtomHolds(p0: Plan, p: Plan, run: Run, m: Move, atom: NodeAtom, c: Completion)
    requires Steady(p0, p, run) && Known(p0, run, m) && ResultsOk(run.history, run.results) && IdsOk(run)
    requires JobOf(m).Some? && atom.ack == Some(JobOf(m).value.0) && atom.log == [c] && atom.result == c.result
    requires atom.nodeId == JobOf(m).value.1.nodeId && c.node == atom.nodeId
    ensures ResultsOk(Committed(run, atom).history, Committed(run, atom).results)
  {
    hide Steady, CommitAtom, StillThere, Schedules, DoneSet, ResultsOk, IdsOk, QueueGrows, Possible, Fitting;
    var claim := JobOf(m).value.0;
    if CommitAtom(run, atom).Some? {
      AtomCommits(run, atom);
      ValidJob(run, m);
      QueuedIsNew(p0, p, run, claim.id);
      ResultsAppend(run.history, c, run.results);
    }
  }
}
