/**
 The queue engine computes what a simple recursive interpreter computes.

 On a tree-shaped plan every schedule, with any number of failed attempts on the way, ends with exactly
 the results of evaluating the head job, threading its result, and recursing into its dependents.
 */
module Interpreter {
  import opened Values
  import opened Jobs
  import opened Runs
  import opened Plans
  import opened Invariant
  import opened Landing
  import opened Handlers
  import opened Preservation
  import opened Steps
  import opened Outcomes
  import opened Restarts

  /** Deterministic node functions, and the answer each wait is eventually given. */
  datatype World = World(
    exec: (NodeId, Input) -> Json,
    choose: (NodeId, Input) -> NodeId,
    answer: NodeId -> Json)

  type Pair = (NodeId, Json)

  /** How the interpreter completes one job on the given input. */
  function Evaluate(w: World, job: NodeJob, input: Input, skip: bool): Completion {
    var name := job.def.nodeName;
    if skip then Completion(job.nodeId, name, true, None, input, SKIPPED, ByCommit)
    else
      match job.def.nodeType
      case Switch =>
        var chosen := w.choose(job.nodeId, input);
        Completion(job.nodeId, name, false, Some(chosen), input, BranchResult(chosen), ByCommit)
      case Wait => Completion(job.nodeId, name, false, None, input, w.answer(job.nodeId), ByCommit)
      case _ => Completion(job.nodeId, name, false, None, input, w.exec(job.nodeId, input), ByCommit)
  }

  /** The interpreter: the results of a job and of everything below it. */
  ghost function Interpret(w: World, job: NodeJob, input: Input, skip: bool): set<Pair>
    decreases job
  {
    var c := Evaluate(w, job, input, skip);
    {(c.node, c.result)} + Below(w, c, job.downstream)
  }

  ghost function Below(w: World, c: Completion, ds: seq<NodeJob>): set<Pair>
    decreases ds
  {
    if ds == [] then {}
    else
      var next := NextJob(c, ds[0]);
      Interpret(w, ds[0], next.input, next.skip) + Below(w, c, ds[1..])
  }

  /** The results still to come from a queued job, and from a parked wait. */
  ghost function FromJob(w: World, job: NodeJob): set<Pair> {
    Interpret(w, job, job.input, job.skip)
  }

  ghost function FromParked(w: World, cont: Continuation): set<Pair> {
    var c := Completion(cont.nodeId, cont.nodeName, false, None, cont.input, w.answer(cont.nodeId), ByCommit);
    {(c.node, c.result)} + Below(w, c, cont.downstream)
  }

  ghost predicate Recorded(h: seq<Completion>, x: Pair) {
    exists i :: 0 <= i < |h| && x == (h[i].node, h[i].result)
  }

  ghost predicate Queued(w: World, queue: map<nat, NodeJob>, x: Pair) {
    exists k :: k in queue && x in FromJob(w, queue[k])
  }

  ghost predicate Parked(w: World, parked: map<NodeId, Continuation>, x: Pair) {
    exists n :: n in parked && x in FromParked(w, parked[n])
  }

  /** `full` is what was recorded, together with what the queued, parked and in-flight work will yield. */
  ghost predicate Accounted(w: World, full: set<Pair>, h: seq<Completion>, queue: map<nat, NodeJob>,
          parked: map<NodeId, Continuation>, flight: set<Pair>) {
    forall x {:trigger x in full} :: x in full <==> Recorded(h, x) || Queued(w, queue, x) || Parked(w, parked, x) || x in flight
  }

  /** Every node has at most one dependency, and nothing fans out dynamically or collects. */
  ghost predicate TreeShaped(p: Plan) {
    && (forall n {:trigger p.deps[n]} :: n in p.deps ==> forall d, d' :: d in p.deps[n] && d' in p.deps[n] ==> d == d')
    && (forall n {:trigger p.jobs[n]} :: n in p.jobs ==> p.jobs[n].collect.None? && !p.jobs[n].def.nodeType.Foreach?)
  }

  /** The step's outcome is the world's: its node functions, its answers, or a failed attempt. */
  ghost predicate Faithful(w: World, run: Run, a: Action)
    requires Enabled(run, a)
  {
    match a
    case Work(claim, out) =>
      var job := run.queue[claim.id];
      && (match out
          case Broke(_) => true
          case WaitFor(_, _, buffered) => buffered.Some? ==> WakeResult("signal", buffered.value) == w.answer(job.nodeId)
          case Output(value) =>
            if job.def.nodeType.Switch? then value == JStr(w.choose(job.nodeId, job.input))
            else value == w.exec(job.nodeId, job.input))
    case Tick(claim) =>
      var n := run.timers[claim.id].node;
      n in run.parked && run.status == Waiting ==> WakeResult("timer", JNull) == w.answer(n)
    case Wake(n, payload) => n in run.parked && run.status == Waiting ==> WakeResult("signal", payload) == w.answer(n)
    case Stop => false
  }

  // ----- facts about the interpreter

  lemma {:induction false} BelowMember(w: World, c: Completion, ds: seq<NodeJob>, x: Pair)
    ensures x in Below(w, c, ds) <==>
            exists i :: 0 <= i < |ds| && x in Interpret(w, ds[i], NextJob(c, ds[i]).input, NextJob(c, ds[i]).skip)
  {
    if ds != [] {
      BelowMember(w, c, ds[1..], x);
      if x in Below(w, c, ds[1..]) {
        var i :| 0 <= i < |ds[1..]| && x in Interpret(w, ds[1..][i], NextJob(c, ds[1..][i]).input, NextJob(c, ds[1..][i]).skip);
        assert ds[i + 1] == ds[1..][i];
      }
      if i :| 0 < i < |ds| && x in Interpret(w, ds[i], NextJob(c, ds[i]).input, NextJob(c, ds[i]).skip) {
        assert ds[1..][i - 1] == ds[i];
      }
    }
  }

  /** How a node completed does not matter to what lies below it. */
  lemma {:induction false} BelowIgnoresHow(w: World, c: Completion, how: How, ds: seq<NodeJob>)
    ensures Below(w, c.(how := how), ds) == Below(w, c, ds)
  {
    if ds != [] {
      BelowIgnoresHow(w, c, how, ds[1..]);
    }
  }

  /** A launched job yields what the interpreter yields for its template on the threaded input. */
  lemma LaunchedYields(w: World, c: Completion, template: NodeJob)
    ensures FromJob(w, NextJob(c, template)) == Interpret(w, template, NextJob(c, template).input, NextJob(c, template).skip)
  {
  }

  /** In a tree, completing a node unblocks every dependent: its subtree passes to the launched jobs. */
  lemma LandedYields(w: World, p: Plan, h: seq<Completion>, queue: map<nat, NodeJob>, base: nat, c: Completion,
          ids: seq<NodeId>, x: Pair)
    requires WfPlan(p) && TreeShaped(p)
    requires c.node in p.jobs && Aligned(p, p.jobs[c.node]) && !p.jobs[c.node].def.nodeType.Foreach?
    requires forall k :: k in queue ==> k < base
    requires Frontier(p, DoneSet(h), c.node, ids)
    ensures Queued(w, Grown(p, queue, base, c, ids), x) <==> Queued(w, queue, x) || x in Below(w, c, p.jobs[c.node].downstream)
  {
    var job := p.jobs[c.node];
    var grown := Grown(p, queue, base, c, ids);
    GrownAt(p, queue, base, c, ids);
    BelowMember(w, c, job.downstream, x);
    if Queued(w, queue, x) {
      var k :| k in queue && x in FromJob(w, queue[k]);
      assert x in FromJob(w, grown[k]);
    }
    if x in Below(w, c, job.downstream) {
      var i :| 0 <= i < |job.downstream| && x in Interpret(w, job.downstream[i], NextJob(c, job.downstream[i]).input, NextJob(c, job.downstream[i]).skip);
      var m := job.dependents[i];
      TreeUnblocks(p, DoneSet(h), c.node, m);
      var j :| 0 <= j < |ids| && ids[j] == m;
      LaunchedYields(w, c, p.jobs[m]);
      assert x in FromJob(w, grown[base + j]);
    }
    if Queued(w, grown, x) && !Queued(w, queue, x) {
      var k :| k in grown && x in FromJob(w, grown[k]);
      var m := ids[k - base];
      assert m in ids;
      LaunchedYields(w, c, p.jobs[m]);
      DependentIndex(p, c.node, m);
    }
  }

  lemma TreeUnblocks(p: Plan, done: set<NodeId>, n: NodeId, m: NodeId)
    requires WfPlan(p) && TreeShaped(p) && n in p.jobs && !p.jobs[n].def.nodeType.Foreach? && Aligned(p, p.jobs[n])
    requires m in p.jobs[n].dependents
    ensures m in p.jobs && Unblocked(p, done, n, m)
  {
    var i :| 0 <= i < |p.jobs[n].dependents| && p.jobs[n].dependents[i] == m;
    assert EdgesOk(p, n) && DepsOk(p, m);
  }

  lemma DependentIndex(p: Plan, n: NodeId, m: NodeId)
    requires WfPlan(p) && n in p.jobs && !p.jobs[n].def.nodeType.Foreach? && Aligned(p, p.jobs[n])
    requires m in p.jobs && m in p.deps && n in p.deps[m]
    ensures exists i :: 0 <= i < |p.jobs[n].downstream| && p.jobs[n].downstream[i] == p.jobs[m]
  {
    assert EdgesOk(p, n);
    var i :| 0 <= i < |p.jobs[n].dependents| && p.jobs[n].dependents[i] == m;
    assert p.jobs[n].downstream[i] == p.jobs[m];
  }

  lemma RecordedAppend(h: seq<Completion>, c: Completion, x: Pair)
    ensures Recorded(h + [c], x) <==> Recorded(h, x) || x == (c.node, c.result)
  {
    var h' := h + [c];
    if Recorded(h, x) {
      var i :| 0 <= i < |h| && x == (h[i].node, h[i].result);
      assert h'[i] == h[i];
    }
    if x == (c.node, c.result) {
      assert h'[|h|] == c;
    }
  }

  /** Landing a completion moves its own result to the record and its subtree to the launched jobs. */
  lemma LandAccounted(w: World, full: set<Pair>, p: Plan, h: seq<Completion>, queue: map<nat, NodeJob>,
          parked: map<NodeId, Continuation>,
                      base: nat, c: Completion, ids: seq<NodeId>)
    requires WfPlan(p) && TreeShaped(p)
    requires c.node in p.jobs && Aligned(p, p.jobs[c.node]) && !p.jobs[c.node].def.nodeType.Foreach?
    requires forall k :: k in queue ==> k < base
    requires Frontier(p, DoneSet(h), c.node, ids)
    requires Accounted(w, full, h, queue, parked, {(c.node, c.result)} + Below(w, c, p.jobs[c.node].downstream))
    ensures Accounted(w, full, h + [c], Grown(p, queue, base, c, ids), parked, {})
  {
    assert forall m :: m in ids ==> m in p.jobs;
    hide WfPlan, TreeShaped, Aligned, Frontier, Grown, Below, Recorded, Queued, Parked, DoneSet;
    forall x
      ensures x in full <==> Recorded(h + [c], x) || Queued(w, Grown(p, queue, base, c, ids), x) || Parked(w, parked, x) || x in {}
    {
      RecordedAppend(h, c, x);
      LandedYields(w, p, h, queue, base, c, ids, x);
    }
  }

  // ----- taking work out of its place

  lemma TakeQueued(w: World, full: set<Pair>, h: seq<Completion>, queue: map<nat, NodeJob>,
          parked: map<NodeId, Continuation>, id: nat)
    requires Accounted(w, full, h, queue, parked, {}) && id in queue
    ensures Accounted(w, full, h, queue - {id}, parked, FromJob(w, queue[id]))
  {
    hide FromJob, FromParked;
    forall x
      ensures Queued(w, queue, x) <==> Queued(w, queue - {id}, x) || x in FromJob(w, queue[id])
    {
      if Queued(w, queue, x) {
        var k :| k in queue && x in FromJob(w, queue[k]);
        assert k != id ==> k in queue - {id};
      }
      if k :| k in queue - {id} && x in FromJob(w, (queue - {id})[k]) {
        assert queue[k] == (queue - {id})[k];
      }
    }
    hide Queued, Recorded, Parked;
  }

  lemma TakeParked(w: World, full: set<Pair>, h: seq<Completion>, queue: map<nat, NodeJob>,
          parked: map<NodeId, Continuation>, n: NodeId)
    requires Accounted(w, full, h, queue, parked, {}) && n in parked
    ensures Accounted(w, full, h, queue, parked - {n}, FromParked(w, parked[n]))
  {
    hide FromJob, FromParked;
    forall x
      ensures Parked(w, parked, x) <==> Parked(w, parked - {n}, x) || x in FromParked(w, parked[n])
    {
      if Parked(w, parked, x) {
        var k :| k in parked && x in FromParked(w, parked[k]);
        assert k != n ==> k in parked - {n};
      }
      if k :| k in parked - {n} && x in FromParked(w, (parked - {n})[k]) {
        assert parked[k] == (parked - {n})[k];
      }
    }
    hide Queued, Recorded, Parked;
  }

  lemma PutParked(w: World, full: set<Pair>, h: seq<Completion>, queue: map<nat, NodeJob>,
          parked: map<NodeId, Continuation>, n: NodeId, cont: Continuation)
    requires n !in parked && Accounted(w, full, h, queue, parked, FromParked(w, cont))
    ensures Accounted(w, full, h, queue, parked[n := cont], {})
  {
    hide FromJob, FromParked;
    var parked' := parked[n := cont];
    forall x
      ensures Parked(w, parked', x) <==> Parked(w, parked, x) || x in FromParked(w, cont)
    {
      if Parked(w, parked, x) {
        var k :| k in parked && x in FromParked(w, parked[k]);
        assert x in FromParked(w, parked'[k]);
      }
      if x in FromParked(w, cont) {
        assert x in FromParked(w, parked'[n]);
      }
    }
    hide Queued, Recorded, Parked;
  }

  // ----- steps

  /** A faithful outcome completes a job the way the interpreter does. */
  lemma FaithfulCompletion(w: World, p: Plan, run: Run, claim: Claim, out: Outcome)
    requires WfPlan(p) && TreeShaped(p) && Core(p, run.history, run.remaining, run.queue, run.parked)
    requires Enabled(run, Work(claim, out)) && Faithful(w, run, Work(claim, out))
    ensures var job := run.queue[claim.id]; var n := job.nodeId; var c := CompletionOf(run, job, out);
            && n in p.jobs && job.downstream == p.jobs[n].downstream && !job.def.nodeType.Foreach? && !p.jobs[n].def.nodeType.Foreach?
            && (c.Some? ==> c.value == Evaluate(w, job, job.input, job.skip))
            && (c.Some? ==> FromJob(w, job) == {(c.value.node, c.value.result)} + Below(w, c.value, p.jobs[n].downstream))
  {
    var job := run.queue[claim.id];
    JobShape(p, run.history, job.nodeId);
    assert p.jobs[job.nodeId].collect.None?;
    hide WfPlan, TreeShaped, HistoryOk, CountsOk, TokensOk, ParkedOk, Exclusive, JobFor, Below;
  }

  lemma WorkAccounted(lim: Limits, w: World, full: set<Pair>, p: Plan, run: Run, claim: Claim, out: Outcome)
    requires Bounded(lim) && RunInv(p, run) && TreeShaped(p)
    requires run.status == Running || run.status == Waiting
    requires ClaimValid(run, claim) && Fits(run.queue[claim.id], out) && Faithful(w, run, Work(claim, out))
    requires Accounted(w, full, run.history, run.queue, run.parked, {})
    ensures var after := Handle(lim, run, claim, out);
            Accounted(w, full, after.history, after.queue, after.parked, {})
  {
    var job := run.queue[claim.id];
    var c := CompletionOf(run, job, out);
    assert IdsOk(run) && AllLive(run) && run.pending == |run.queue|;
    assert Core(p, run.history, run.remaining, run.queue, run.parked) && Covered(p, run.history, run.queue, run.parked, {});
    PlanOf(p, run);
    hide RunInv, Accounted, Handle, CompletionOf, Below, FromJob, Faithful, Core, Covered, MayFinish, Finish;
    hide FinishOrFail, RecordFailure, CheckComplete, Park;
    FaithfulCompletion(w, p, run, claim, out);
    HandleIs(lim, run, claim, out);
    TakeQueued(w, full, run.history, run.queue, run.parked, claim.id);
    if c.Some? {
      CompletionFits(run, claim, out);
      FinishedKeeps(lim, p, run, claim, c.value);
      FinishAccounted(w, full, p, run, claim, c.value);
    } else if out.WaitFor? {
      Detach(p, run, claim.id);
      ParkIs(run, claim, out.signal, out.runAt);
      ParkKeeps(p, run, claim, out.signal, out.runAt);
      ParkedYields(w, job, out.signal, out.runAt);
      PutParked(w, full, run.history, run.queue - {claim.id}, run.parked, job.nodeId, ContinuationOf(job, out.signal, out.runAt));
    } else {
      var cause :| Handle(lim, run, claim, out) == RecordFailure(lim, run, claim, cause);
      FailureMovesNothing(lim, run, claim, cause);
    }
  }

  lemma PlanOf(p: Plan, run: Run)
    requires RunInv(p, run)
    ensures WfPlan(p)
    ensures forall k :: k in run.queue ==> k < run.nextId
  {
  }

  lemma ParkedYields(w: World, job: NodeJob, signal: string, runAt: int)
    requires job.def.nodeType.Wait? && !job.skip
    ensures FromParked(w, ContinuationOf(job, signal, runAt)) == FromJob(w, job)
  {
  }

  lemma FailureMovesNothing(lim: Limits, run: Run, claim: Claim, cause: Cause)
    requires HasJob(run, claim.id)
    ensures var after := RecordFailure(lim, run, claim, cause);
            after.history == run.history && after.queue == run.queue && after.parked == run.parked
  {
    hide EffectiveInput, FailureResult;
  }

  lemma FinishAccounted(w: World, full: set<Pair>, p: Plan, run: Run, claim: Claim, c: Completion)
    requires RunInv(p, run) && TreeShaped(p) && (run.status == Running || run.status == Waiting)
    requires MayFinish(run, claim, c) && c.node in p.jobs && !p.jobs[c.node].def.nodeType.Foreach?
    requires Accounted(w, full, run.history, run.queue - {claim.id}, run.parked,
                       {(c.node, c.result)} + Below(w, c, p.jobs[c.node].downstream))
    ensures var after := Finish(run, claim, c);
            Accounted(w, full, after.history, after.queue, after.parked, {})
  {
    hide Accounted, Below, MayFinish, CommitAtom, AtomOf, Covered, Grown, Frontier, TreeShaped;
    PlanOf(p, run);
    assert TemplateOk(p, c.node);
    hide TemplateOk, WfPlan, Core, ResultsOk;
    var committed, ids := CommitLands(p, run, claim, c);
    LandAccounted(w, full, p, run.history, run.queue - {claim.id}, run.parked, run.nextId, c, ids);
  }

  lemma ResumeAccounted(w: World, full: set<Pair>, p: Plan, run: Run, n: NodeId, source: string, payload: Json)
    requires RunInv(p, run) && TreeShaped(p)
    requires n in run.parked && run.status == Waiting ==> WakeResult(source, payload) == w.answer(n)
    requires Accounted(w, full, run.history, run.queue, run.parked, {})
    ensures var after := Resume(run, n, source, payload);
            Accounted(w, full, after.history, after.queue, after.parked, {})
  {
    if run.status == Waiting && n in run.parked {
      hide Accounted, Below, TreeShaped, Grown, Frontier;
      PlanOf(p, run);
      ParkedShape(p, run, n);
      assert TemplateOk(p, n);
      hide RunInv, Core, Covered, WfPlan, TemplateOk, Resume, WakeResult;
      var c := Waking(run.parked[n], source, payload);
      var after, ids := ResumeLands(p, run, n, source, payload);
      TakeParked(w, full, run.history, run.queue, run.parked, n);
      BelowIgnoresHow(w, c, ByCommit, run.parked[n].downstream);
      assert FromParked(w, run.parked[n]) == {(c.node, c.result)} + Below(w, c, p.jobs[n].downstream);
      LandAccounted(w, full, p, run.history, run.queue, run.parked - {n}, run.nextId, c, ids);
    }
  }

  /** Every faithful step keeps the account balanced. */
  lemma StepAccounted(lim: Limits, w: World, full: set<Pair>, p: Plan, run: Run, a: Action)
    requires Bounded(lim) && RunInv(p, run) && TreeShaped(p)
    requires Enabled(run, a) && Faithful(w, run, a)
    requires Accounted(w, full, run.history, run.queue, run.parked, {})
    ensures var after := Next(lim, run, a);
            Accounted(w, full, after.history, after.queue, after.parked, {})
  {
    hide RunInv, Accounted, TreeShaped, Resume;
    match a
    case Work(claim, out) =>
      TakeKeeps(p, run, claim);
      if run.status == Running || run.status == Waiting {
        hide Handle;
        WorkAccounted(lim, w, full, p, Take(run, claim), claim, out);
      }
    case Tick(claim) =>
      var taken := TakeTimer(run, claim);
      TimersElsewhere(p, run, taken.timers);
      ResumeAccounted(w, full, p, taken, run.timers[claim.id].node, "timer", JNull);
    case Wake(n, payload) => ResumeAccounted(w, full, p, run, n, "signal", payload);
  }

  ghost predicate AllFaithful(lim: Limits, w: World, runs: seq<Run>, acts: seq<Action>)
    requires IsHistory(lim, runs, acts)
  {
    forall i :: 0 <= i < |acts| ==> Enabled(runs[i], acts[i]) && Faithful(w, runs[i], acts[i])
  }

  lemma TreeIsForeachFree(p: Plan)
    requires TreeShaped(p)
    ensures ForeachFree(p)
  {
    forall n | n in p.jobs
      ensures !p.jobs[n].def.nodeType.Foreach?
    {
      assert p.jobs[n].collect.None?;
    }
  }

  lemma {:induction false} HistoryAccounted(lim: Limits, w: World, full: set<Pair>, p: Plan, runs: seq<Run>,
          acts: seq<Action>)
    requires Bounded(lim) && TreeShaped(p)
    requires IsHistory(lim, runs, acts) && AllFaithful(lim, w, runs, acts)
    requires RunInv(p, runs[0]) && Accounted(w, full, runs[0].history, runs[0].queue, runs[0].parked, {})
    ensures var last := runs[|acts|];
            RunInv(p, last) && Accounted(w, full, last.history, last.queue, last.parked, {})
  {
    hide RunInv, Accounted, TreeShaped, Next, Faithful;
    if acts != [] {
      var n := |acts| - 1;
      HistoryAccounted(lim, w, full, p, runs[..n + 1], acts[..n]);
      assert runs[..n + 1][n] == runs[n];
      assert Enabled(runs[n], acts[n]) && Faithful(w, runs[n], acts[n]);
      if acts[n].Work? {
        TreeIsForeachFree(p);
        NoForeachQueued(p, runs[n], acts[n].claim.id);
      }
      StepKeeps(lim, p, runs[n], acts[n]);
      StepAccounted(lim, w, full, p, runs[n], acts[n]);
    }
  }

  /** The results a run leaves, one per node of the plan. */
  ghost function Left(p: Plan, run: Run): set<Pair>
    requires forall n :: n in p.jobs ==> n in run.results
  {
    set n | n in p.jobs :: (n, run.results[n])
  }

  lemma RecordIsLeft(p: Plan, run: Run, x: Pair)
    requires RunInv(p, run) && AllDone(p, run)
    ensures forall n :: n in p.jobs ==> n in run.results
    ensures Recorded(run.history, x) <==> x in Left(p, run)
  {
    forall i | 0 <= i < |run.history|
      ensures run.history[i].node in p.jobs
    {
      assert EntryOk(p, run.history, i);
    }
    hide Core, Covered, StatusOk, IdsOk;
  }

  /**
   The queue engine refines the interpreter. For every tree-shaped plan, every world, and every schedule
   of that world from the start of the run, over nothing live, to the completion of all its nodes (whatever the
   claim order, and however many attempts failed on the way), the stored results are exactly the interpreter's.
   */
  lemma EngineRefinesInterpreter(lim: Limits, w: World, p: Plan, was: Run, counts: map<NodeId, int>, head: NodeJob,
          runs: seq<Run>, acts: seq<Action>)
    requires Bounded(lim) && TreeShaped(p) && Startable(p, counts, head)
    requires IdsOk(was) && LiveJobs(was) == map[] && was.parked == map[]
    requires IsHistory(lim, runs, acts) && AllFaithful(lim, w, runs, acts)
    requires runs[0] == Started(was, counts, head)
    requires AllDone(p, runs[|acts|])
    ensures forall n :: n in p.jobs ==> n in runs[|acts|].results
    ensures Left(p, runs[|acts|]) == Interpret(w, head, head.input, false)
  {
    hide TreeShaped, AllFaithful, RunInv, Interpret, AllDone, Left, Startable, Accounted, Started, IdsOk, LiveJobs;
    var full := Interpret(w, head, head.input, false);
    StartBalanced(w, p, was, counts, head);
    HistoryAccounted(lim, w, full, p, runs, acts);
    EndBalanced(w, full, p, runs[|acts|]);
  }

  lemma StartBalanced(w: World, p: Plan, was: Run, counts: map<NodeId, int>, head: NodeJob)
    requires Startable(p, counts, head) && IdsOk(was) && LiveJobs(was) == map[] && was.parked == map[]
    ensures var run := Started(was, counts, head);
            RunInv(p, run) && Accounted(w, Interpret(w, head, head.input, false), run.history, run.queue, run.parked, {})
  {
    hide RunInv, Interpret, Accounted, IdsOk, LiveJobs, Started, AllLive;
    StartEstablishes(p, was, counts, head);
    HeadRuns(p, counts, head);
    hide Startable;
    StartAccounted(w, Interpret(w, head, head.input, false), was.nextId, head);
    StartedBooks(was, counts, head);
    var none: map<nat, NodeJob> := map[];
    assert none[was.nextId := head] == map[was.nextId := head];
  }

  lemma EndBalanced(w: World, full: set<Pair>, p: Plan, run: Run)
    requires RunInv(p, run) && Accounted(w, full, run.history, run.queue, run.parked, {}) && AllDone(p, run)
    ensures forall n :: n in p.jobs ==> n in run.results
    ensures Left(p, run) == full
  {
    hide RunInv, Accounted, AllDone, Left, Recorded;
    AllDoneIsIdle(p, run);
    RecordIsLeft(p, run, ("", JNull));
    forall x
      ensures x in Left(p, run) <==> x in full
    {
      RecordIsLeft(p, run, x);
      IdleAccount(w, full, run, x);
    }
  }

  lemma HeadRuns(p: Plan, counts: map<NodeId, int>, head: NodeJob)
    requires Startable(p, counts, head)
    ensures !head.skip
  {
    assert head.nodeId in p.seeds;
    assert DepsOk(p, head.nodeId) && TemplateOk(p, head.nodeId);
  }

  lemma StartAccounted(w: World, full: set<Pair>, id: nat, head: NodeJob)
    requires full == Interpret(w, head, head.input, head.skip)
    ensures Accounted(w, full, [], map[id := head], map[], {})
  {
    hide Interpret;
    forall x
      ensures Queued(w, map[id := head], x) <==> x in full
    {
      assert map[id := head][id] == head;
    }
    hide Queued;
  }

  lemma IdleAccount(w: World, full: set<Pair>, run: Run, x: Pair)
    requires Accounted(w, full, run.history, run.queue, run.parked, {}) && run.queue == map[] && run.parked == map[]
    ensures x in full <==> Recorded(run.history, x)
  {
  }
}
