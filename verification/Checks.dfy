/**
 The completion check as what it is in the source: two reads, first `pending`, then the status, with anything
 in between. When it marks a run completed rightly, and when not.
 */
module Checks {
  import opened Values
  import opened Jobs
  import opened Runs
  import opened Plans
  import opened Invariant
  import opened Landing
  import opened Handlers
  import opened Preservation
  import opened Steps
  import opened Outcomes
  import opened ForeachRuns
  import opened Unfolding

  /** The check of a worker that read `pendingRead`, and reads the status of `run`. */
  function LateCheck(pendingRead: int, run: Run): Run {
    if pendingRead == 0 && run.status != Waiting then run.(status := Completed, fired := run.fired + 1) else run
  }

  /** A run after a worker's commit: as one step, the check would restore its invariant. */
  ghost predicate Unchecked(p: Plan, run: Run) {
    RunInv(p, CheckComplete(run)) && (run.status == Running || run.status == Waiting)
  }

  /** After a worker's commit the run is unchecked, and the check as one step is what `Finish` does. */
  lemma CommitIsUnchecked(p: Plan, run: Run, claim: Claim, c: Completion) returns (committed: Run)
    requires RunInv(p, run) && (run.status == Running || run.status == Waiting) && MayFinish(run, claim, c)
    ensures CommitAtom(run, AtomOf(run.queue[claim.id], claim, c, None)) == Some(committed)
    ensures Unchecked(p, committed) && Finish(run, claim, c) == CheckComplete(committed)
  {
    FinishPreserves(p, run, claim, c);
    hide Core, Covered, ResultsOk, Grown, Frontier, CommitAtom, AtomOf, OutcomeOk, StatusOk;
    var committed', ids := CommitLands(p, run, claim, c);
    committed := committed';
  }

  /** A run is wrongly completed: marked so with a node still to come. */
  ghost predicate Wrong(p0: Plan, run: Run) {
    run.status == Completed && !WaferDone(p0, run.history)
  }

  // ----- an idle run, which only waits to be marked

  /** Every node completed, nothing is left to do. */
  ghost predicate Idle(p0: Plan, run: Run) {
    && run.queue == map[] && run.rows == map[] && run.parked == map[] && run.pending == 0
    && (run.status == Running || run.status == Cancelled) && run.fired == 0
    && WaferDone(p0, run.history)
  }

  lemma UncheckedIsIdle(p0: Plan, p: Plan, run: Run)
    requires Unchecked(p, run) && Unfolds(p0, p, run.history) && p0.jobs != map[]
    requires run.pending == 0 && run.status == Running
    ensures Idle(p0, run)
  {
    var checked := CheckComplete(run);
    hide Unfolds;
    CompletedWafer(p0, p, checked);
    hide Core, Covered, ResultsOk, WaferDone, CheckComplete;
    assert checked.status == Completed;
    assert forall k :: k !in checked.rows;
  }

  lemma IdleStays(lim: Limits, p0: Plan, run: Run, a: Action)
    requires Idle(p0, run) && Enabled(run, a)
    ensures Idle(p0, Next(lim, run, a)) && Next(lim, run, a).history == run.history
  {
    hide WaferDone;
  }

  lemma {:induction false} IdleThroughout(lim: Limits, p0: Plan, runs: seq<Run>, acts: seq<Action>, i: nat)
    requires IsHistory(lim, runs, acts) && i <= |acts| && Idle(p0, runs[0])
    ensures Idle(p0, runs[i])
  {
    hide Idle, Next;
    if i > 0 {
      IdleThroughout(lim, p0, runs, acts, i - 1);
      assert Enabled(runs[i - 1], acts[i - 1]);
      IdleStays(lim, p0, runs[i - 1], acts[i - 1]);
    }
  }

  // ----- any steps between the two reads

  /** `acts` happen between the two reads of a worker that committed in the run `runs[0]`. */
  ghost predicate Between(lim: Limits, p0: Plan, p: Plan, runs: seq<Run>, acts: seq<Action>) {
    && Bounded(lim) && IsHistory(lim, runs, acts) && p0.jobs != map[]
    && Unchecked(p, runs[0]) && Unfolds(p0, p, runs[0].history)
    && forall i :: 0 <= i < |acts| ==> Supported(runs[i], acts[i])
  }

  /** Unless it is idle, the run already keeps its invariant before the check. */
  lemma BusyTracks(lim: Limits, p0: Plan, p: Plan, runs: seq<Run>, acts: seq<Action>)
    requires Between(lim, p0, p, runs, acts)
    requires !(runs[0].pending == 0 && runs[0].status == Running)
    ensures IsForeachHistory(lim, p0, p, runs, acts)
  {
    hide RunInv, Unfolds, Next, Supported;
    assert CheckComplete(runs[0]) == runs[0];
  }

  /** What a late check finds in a run that keeps its invariant. */
  lemma LateCheckOn(p0: Plan, p: Plan, pendingRead: int, run: Run)
    requires Tracks(p0, p, run) && p0.jobs != map[]
    ensures Wrong(p0, LateCheck(pendingRead, run)) <==>
            pendingRead == 0 && run.status != Waiting &&
            (if run.status == Cancelled then !WaferDone(p0, run.history) else run.pending != 0)
    ensures run.status != Cancelled ==>
              (LateCheck(pendingRead, run).fired == 2 <==> pendingRead == 0 && run.status == Completed)
  {
    hide Tracks, WaferDone;
    if run.status != Cancelled {
      StatusShows(p0, p, run);
    }
  }

  /** Unless it was cancelled, status and pending say whether a run is done and whether it was reported. */
  lemma StatusShows(p0: Plan, p: Plan, run: Run)
    requires Tracks(p0, p, run) && run.status != Cancelled && p0.jobs != map[]
    ensures run.status != Waiting ==> (WaferDone(p0, run.history) <==> run.pending == 0)
    ensures run.status == Completed ==> WaferDone(p0, run.history)
    ensures run.fired == if run.status == Completed then 1 else 0
  {
    hide RunInv, Unfolds, WaferDone, AllDone, DoneSet;
    AllDoneIsWafer(p0, p, run);
    NotEmpty(p0, p, run.history);
    CompletedExactly(p, run);
    PendingZero(p, run);
  }

  /**
   The check as two reads, with any steps of other workers, timers, signals or a cancel in between. It marks
   the run completed with a node still to come exactly when it read zero pending and then finds the run not
   waiting although, by then, jobs are pending or, if it was cancelled, nodes are missing. It repeats the
   completion callback exactly when another worker completed the run in between.
   */
  lemma LateCheckExactly(lim: Limits, p0: Plan, p: Plan, runs: seq<Run>, acts: seq<Action>)
    requires Between(lim, p0, p, runs, acts)
    ensures var pendingRead, later := runs[0].pending, runs[|acts|];
            && (Wrong(p0, LateCheck(pendingRead, later)) <==>
                pendingRead == 0 && later.status != Waiting &&
                (if later.status == Cancelled then !WaferDone(p0, later.history) else later.pending != 0))
            && (later.status != Cancelled ==>
                  (LateCheck(pendingRead, later).fired == 2 <==> pendingRead == 0 && later.status == Completed))
  {
    hide Unchecked, Unfolds, Tracks, WaferDone, Next, Supported, Wrong, LateCheck;
    if runs[0].pending == 0 && runs[0].status == Running {
      UncheckedIsIdle(p0, p, runs[0]);
      IdleThroughout(lim, p0, runs, acts, |acts|);
      IdleCheck(p0, runs[0].pending, runs[|acts|]);
    } else {
      BusyTracks(lim, p0, p, runs, acts);
      HistoryTracks(lim, p0, p, runs, acts, |acts|);
      hide IsForeachHistory, PlanAlong;
      LateCheckOn(p0, PlanAlong(p, runs, acts[..|acts|]), runs[0].pending, runs[|acts|]);
    }
  }

  lemma IdleCheck(p0: Plan, pendingRead: int, run: Run)
    requires Idle(p0, run)
    ensures !Wrong(p0, LateCheck(pendingRead, run)) && LateCheck(pendingRead, run).fired <= 1
    ensures run.pending == 0 && run.status != Completed && WaferDone(p0, run.history)
  {
    hide WaferDone;
  }

  // ----- only deliveries between the two reads

  ghost predicate Stopped(acts: seq<Action>) {
    exists i :: 0 <= i < |acts| && acts[i].Stop?
  }

  /** The wait a signal or a timer is for. */
  function WaitOf(run: Run, a: Action): Option<NodeId> {
    match a
    case Wake(n, _) => Some(n)
    case Tick(claim) => if claim.id in run.timers then Some(run.timers[claim.id].node) else None
    case _ => None
  }

  /** The waits parked in `run` that the deliveries resumed, up to a cancel. */
  ghost function Answered(run: Run, acts: seq<Action>): set<NodeId> {
    if acts == [] then {}
    else
      var n := |acts| - 1;
      var rest := Answered(run, acts[..n]);
      var wait := WaitOf(run, acts[n]);
      if !Stopped(acts[..n]) && wait.Some? && wait.value in run.parked then rest + {wait.value} else rest
  }

  lemma StoppedNext(acts: seq<Action>)
    requires acts != []
    ensures Stopped(acts) <==> Stopped(acts[..|acts| - 1]) || acts[|acts| - 1].Stop?
  {
    var n := |acts| - 1;
    if Stopped(acts[..n]) {
      var i :| 0 <= i < n && acts[..n][i].Stop?;
      assert acts[i].Stop?;
    }
  }

  /** Where deliveries take a waiting run: the answered waits have completed and nothing else has. */
  ghost predicate Delivered(p: Plan, run: Run, answered: set<NodeId>, stopped: bool, after: Run) {
    && RunInv(p, after)
    && answered <= run.parked.Keys
    && DoneSet(after.history) == DoneSet(run.history) + answered
    && (forall k :: k in after.timers ==> k in run.timers && after.timers[k].node == run.timers[k].node)
    && (if stopped then after.status == Cancelled
        else
          && after.parked == run.parked - answered
          && after.status == if answered == run.parked.Keys then Running else Waiting)
  }

  lemma NotDelivered(p: Plan, run: Run)
    requires RunInv(p, run) && run.status == Waiting
    ensures Delivered(p, run, {}, false, run)
  {
    hide Core, Covered, ResultsOk, IdsOk;
    assert run.parked - {} == run.parked;
  }

  /** One resume: of a wait still parked, or of none. */
  lemma ResumeDelivers(p: Plan, run: Run, answered: set<NodeId>, stopped: bool, before: Run, n: NodeId, source: string,
          payload: Json)
    requires Delivered(p, run, answered, stopped, before)
    ensures Delivered(p, run, if !stopped && n in run.parked then answered + {n} else answered, stopped,
                      Resume(before, n, source, payload))
  {
    hide RunInv, Resume, DoneSet;
    if before.status == Waiting && n in before.parked {
      AnswerDelivers(p, run, answered, stopped, before, n, source, payload);
    } else {
      NoResume(before, n, source, payload);
      assert !stopped && n in run.parked ==> answered + {n} == answered;
    }
  }

  lemma NoResume(run: Run, n: NodeId, source: string, payload: Json)
    requires !(run.status == Waiting && n in run.parked)
    ensures Resume(run, n, source, payload) == run
  {
  }

  lemma AnswerDelivers(p: Plan, run: Run, answered: set<NodeId>, stopped: bool, before: Run, n: NodeId, source: string,
          payload: Json)
    requires Delivered(p, run, answered, stopped, before) && before.status == Waiting && n in before.parked
    ensures !stopped && n in run.parked
    ensures Delivered(p, run, answered + {n}, false, Resume(before, n, source, payload))
  {
    hide RunInv, Resume, DoneSet, Waking;
    ResumeKeeps(p, before, n, source, payload);
    ResumeKeepsTimers(before, n, source, payload);
    OneResumed(p, before, n, source, payload);
    assert run.parked - answered - {n} == run.parked - (answered + {n});
    LeftOver(run.parked, answered + {n});
    assert DoneSet(before.history) + {n} == DoneSet(run.history) + (answered + {n});
  }

  lemma LeftOver<V>(m: map<NodeId, V>, gone: set<NodeId>)
    requires gone <= m.Keys
    ensures m - gone == map[] <==> gone == m.Keys
  {
    assert (m - gone).Keys == m.Keys - gone;
    if (m - gone).Keys == {} {
      assert forall k :: k in m.Keys ==> k !in m.Keys - gone;
      assert forall k :: k !in m - gone;
    }
  }

  lemma OneResumed(p: Plan, run: Run, n: NodeId, source: string, payload: Json)
    requires RunInv(p, run) && run.status == Waiting && n in run.parked
    ensures var after := Resume(run, n, source, payload);
            && after.parked == run.parked - {n}
            && after.status == (if run.parked - {n} == map[] then Running else Waiting)
            && DoneSet(after.history) == DoneSet(run.history) + {n}
  {
    hide Core, Covered, ResultsOk, IdsOk, StatusOk, Frontier, Grown, Resume, AllLive, DoneSet;
    var after, ids := ResumeLands(p, run, n, source, payload);
    DoneSetAppend(run.history, Waking(run.parked[n], source, payload));
  }

  lemma StopDelivers(p: Plan, run: Run, answered: set<NodeId>, stopped: bool, before: Run)
    requires Delivered(p, run, answered, stopped, before)
    ensures Delivered(p, run, answered, true, Cancel(before))
  {
    hide RunInv, DoneSet;
    StopKeeps(p, before);
  }

  lemma TimersDelivered(p: Plan, run: Run, answered: set<NodeId>, stopped: bool, before: Run, timers: map<nat, Timer>)
    requires Delivered(p, run, answered, stopped, before)
    requires forall k :: k in timers ==> k in before.timers && timers[k].node == before.timers[k].node
    ensures Delivered(p, run, answered, stopped, before.(timers := timers))
  {
    hide RunInv, DoneSet;
    assert timers.Keys <= before.timers.Keys;
    TimersElsewhere(p, before, timers);
  }

  lemma StepDelivers(lim: Limits, p: Plan, run: Run, answered: set<NodeId>, stopped: bool, before: Run, a: Action)
    requires Delivered(p, run, answered, stopped, before) && Enabled(before, a) && !a.Work?
    ensures var wait := WaitOf(run, a);
            Delivered(p, run, if !stopped && wait.Some? && wait.value in run.parked then answered + {wait.value} else answered,
                      stopped || a.Stop?, Next(lim, before, a))
  {
    hide Resume, Cancel, RunInv, DoneSet;
    match a
    case Wake(n, payload) => ResumeDelivers(p, run, answered, stopped, before, n, "signal", payload);
    case Tick(claim) =>
      var taken := TakeTimer(before, claim);
      TimersDelivered(p, run, answered, stopped, before, taken.timers);
      TimerKnown(p, run, answered, stopped, before, claim.id);
      var n := before.timers[claim.id].node;
      ResumeDelivers(p, run, answered, stopped, taken, n, "timer", JNull);
      ResumeKeepsTimers(taken, n, "timer", JNull);
      var resumed := Resume(taken, n, "timer", JNull);
      hide Delivered;
      TimersDelivered(p, run, if !stopped && n in run.parked then answered + {n} else answered, stopped, resumed,
                      resumed.timers - {claim.id});
    case Stop => StopDelivers(p, run, answered, stopped, before);
  }

  lemma TimerKnown(p: Plan, run: Run, answered: set<NodeId>, stopped: bool, before: Run, k: nat)
    requires Delivered(p, run, answered, stopped, before) && k in before.timers
    ensures k in run.timers && before.timers[k].node == run.timers[k].node
  {
  }

  lemma {:induction false} HistoryDelivers(lim: Limits, p: Plan, runs: seq<Run>, acts: seq<Action>, i: nat)
    requires IsHistory(lim, runs, acts) && RunInv(p, runs[0]) && runs[0].status == Waiting
    requires (forall i :: 0 <= i < |acts| ==> !acts[i].Work?) && i <= |acts|
    ensures Delivered(p, runs[0], Answered(runs[0], acts[..i]), Stopped(acts[..i]), runs[i])
  {
    hide Delivered, RunInv, Next;
    if i == 0 {
      NotDelivered(p, runs[0]);
    } else {
      HistoryDelivers(lim, p, runs, acts, i - 1);
      assert acts[..i][..i - 1] == acts[..i - 1];
      StoppedNext(acts[..i]);
      assert Enabled(runs[i - 1], acts[i - 1]);
      StepDelivers(lim, p, runs[0], Answered(runs[0], acts[..i - 1]), Stopped(acts[..i - 1]), runs[i - 1], acts[i - 1]);
    }
  }

  lemma {:induction false} PlanStays(p: Plan, runs: seq<Run>, acts: seq<Action>)
    requires |acts| <= |runs| && forall i :: 0 <= i < |acts| ==> !acts[i].Work?
    ensures PlanAlong(p, runs, acts) == p
  {
    if acts != [] {
      PlanStays(p, runs, acts[..|acts| - 1]);
    }
  }

  /** Some node neither had completed at the first read nor was a wait that the deliveries answered. */
  ghost predicate Missing(p: Plan, run: Run, answered: set<NodeId>) {
    exists n :: n in p.jobs && n !in DoneSet(run.history) && n !in answered
  }

  lemma MissingIsNotDone(p: Plan, run: Run, answered: set<NodeId>, stopped: bool, after: Run)
    requires Delivered(p, run, answered, stopped, after)
    ensures Missing(p, run, answered) <==> !AllDone(p, after)
  {
    hide RunInv, DoneSet;
  }

  lemma WaitingCheck(p0: Plan, p: Plan, run: Run, answered: set<NodeId>, stopped: bool, after: Run)
    requires Delivered(p, run, answered, stopped, after) && Tracks(p0, p, after)
    ensures Wrong(p0, LateCheck(0, after)) <==> (stopped || answered == run.parked.Keys) && Missing(p, run, answered)
  {
    MissingIsNotDone(p, run, answered, stopped, after);
    AllDoneIsWafer(p0, p, after);
    hide RunInv, Unfolds, WaferDone, AllDone, Missing, DoneSet;
  }

  /**
   The check as two reads, with only deliveries (signals, timers, a cancel) in between. It marks the run
   completed with a node still to come exactly when, at the first read, nothing was pending and the run was
   parked, the deliveries then resumed every parked wait or cancelled the run, and some node had neither
   completed before nor was one of the waits they resumed.
   */
  lemma DeliveriesExactly(lim: Limits, p0: Plan, p: Plan, runs: seq<Run>, acts: seq<Action>)
    requires Between(lim, p0, p, runs, acts) && forall i :: 0 <= i < |acts| ==> !acts[i].Work?
    ensures var run := runs[0]; var answered := Answered(run, acts);
            Wrong(p0, LateCheck(run.pending, runs[|acts|])) <==>
            && run.pending == 0 && run.status == Waiting
            && (Stopped(acts) || answered == run.parked.Keys)
            && Missing(p, run, answered)
  {
    hide Unchecked, Unfolds, Tracks, WaferDone, Next, Supported, Wrong, LateCheck, Missing, Delivered, RunInv, Stopped;
    LateCheckExactly(lim, p0, p, runs, acts);
    if runs[0].pending == 0 && runs[0].status == Running {
      UncheckedIsIdle(p0, p, runs[0]);
      IdleThroughout(lim, p0, runs, acts, |acts|);
      IdleCheck(p0, runs[0].pending, runs[|acts|]);
    } else if runs[0].pending == 0 {
      UncheckedWaits(p, runs[0]);
      assert acts[..|acts|] == acts;
      HistoryDelivers(lim, p, runs, acts, |acts|);
      BusyTracks(lim, p0, p, runs, acts);
      HistoryTracks(lim, p0, p, runs, acts, |acts|);
      PlanStays(p, runs, acts);
      WaitingCheck(p0, p, runs[0], Answered(runs[0], acts), Stopped(acts), runs[|acts|]);
    }
  }

  lemma UncheckedWaits(p: Plan, run: Run)
    requires Unchecked(p, run) && run.status != Running
    ensures RunInv(p, run) && run.status == Waiting
  {
    hide RunInv;
    assert CheckComplete(run) == run;
  }

  // ----- such a run exists

  function BareJob(n: NodeId, nodeType: NodeType, dependents: seq<NodeId>, downstream: seq<NodeJob>): NodeJob {
    NodeJob("r", n, NodeDef("", n, nodeType, JNull, [], [], ""), map[], false, dependents, downstream, None, None)
  }

  const LEAF := BareJob("m", Plain("set"), [], [])
  const PAUSE := BareJob("w", Wait, ["m"], [LEAF])

  /** A wait and one node after it. */
  const RELAY := Plan(map["w" := PAUSE, "m" := LEAF], map["w" := {}, "m" := {"w"}], map["w" := PAUSE], map["w" := 0, "m" := 1])

  /** The run parked at the wait, with nothing queued. */
  const PARKED_RUN := Run(Waiting, 0, map["m" := 1], map[], map["w" := ContinuationOf(PAUSE, "go", 0)], map[], map[], map[], 1, None, [], 0)

  lemma RelayWf()
    ensures WfPlan(RELAY) && Looped(RELAY)
  {
    assert "w"[0] != "m"[0];
    assert forall n :: n in RELAY.jobs ==> n == "w" || n == "m";
    assert TemplateOk(RELAY, "w") && TemplateOk(RELAY, "m");
    assert DepsOk(RELAY, "w") && DepsOk(RELAY, "m");
    assert EdgesOk(RELAY, "w") && EdgesOk(RELAY, "m");
  }

  lemma ParkedRunOk()
    ensures Tracks(RELAY, RELAY, PARKED_RUN)
  {
    RelayWf();
    ParkedCore();
    hide WfPlan, Looped, Core, Covered, Unfolds;
    assert ForeachsOk(RELAY, []) by {
      assert forall n :: n in RELAY.jobs ==> n == "w" || n == "m";
    }
    Unfolded(RELAY);
  }

  lemma ParkedCore()
    ensures Core(RELAY, [], PARKED_RUN.remaining, map[], PARKED_RUN.parked) && Covered(RELAY, [], map[], PARKED_RUN.parked, {})
  {
    RelayWf();
    assert "w"[0] != "m"[0];
    assert DoneSet([]) == {};
    assert {"w"} - {} == {"w"};
    hide WfPlan, Looped;
    assert Outstanding(RELAY, [], "w") && !Outstanding(RELAY, [], "m");
    assert JobFor(RELAY, [], "w") == PAUSE;
  }

  /** A signal between the two reads marks this run completed with its last node still to run. */
  lemma CheckIsNotAtomic(payload: Json)
    ensures Unchecked(RELAY, PARKED_RUN) && PARKED_RUN.pending == 0
    ensures var checked := LateCheck(PARKED_RUN.pending, Resume(PARKED_RUN, "w", "signal", payload));
            checked.status == Completed && "m" !in DoneSet(checked.history) && checked.pending > 0
  {
    ParkedRunOk();
    assert "w"[0] != "m"[0];
    OneResumed(RELAY, PARKED_RUN, "w", "signal", payload);
    ResumeKeeps(RELAY, PARKED_RUN, "w", "signal", payload);
    var resumed := Resume(PARKED_RUN, "w", "signal", payload);
    hide Resume;
    assert PARKED_RUN.parked - {"w"} == map[];
    assert "m" in RELAY.jobs && "m" !in DoneSet(resumed.history);
    hide RunInv;
    PendingZero(RELAY, resumed);
    Books(RELAY, resumed);
  }
}
