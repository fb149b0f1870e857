/** From a Wafer's text to every history of its runs: the interpreter, the lineage of inputs and the ordered map, end to end. */
module WaferRuns {
  import opened Values
  import opened Jobs
  import opened Runs
  import opened Plans
  import opened Invariant
  import opened Handlers
  import opened Steps
  import opened Outcomes
  import opened Restarts
  import opened Unfolding
  import opened Wafers
  import opened Dags
  import opened Compilation
  import opened Launches
  import opened Controls
  import ForeachRuns
  import Interpreter
  import Lineage
  import Markers

  // ----- what a Wafer says about its plan

  predicate LoopFree(nodes: seq<WaferNode>) {
    forall i :: 0 <= i < |nodes| ==> !nodes[i].nodeType.Foreach?
  }

  /** Every node depends on at most one. */
  predicate OneParent(nodes: seq<WaferNode>) {
    forall i {:trigger nodes[i]} :: 0 <= i < |nodes| ==> |KnownDeps(nodes, nodes[i].dependsOn)| <= 1
  }

  predicate AllNamed(nodes: seq<WaferNode>) {
    forall i :: 0 <= i < |nodes| ==> nodes[i].name != ""
  }

  /** The node of the Wafer that a node of its plan stands for. */
  lemma PlanNode(w: Wafer, reg: Registry, r: string, event: Json, p: Plan, n: NodeId) returns (i: nat)
    requires PlanFor(w, reg, r, event, p) && n in p.jobs
    ensures i < |w.nodes| && IdAt(w.nodes, i) == n
    ensures p.jobs[n].def.nodeName == w.nodes[i].name && p.jobs[n].def.nodeType == w.nodes[i].nodeType
    ensures Carries(w, reg, i, p.jobs[n]) && p.jobs[n].runId == r
    ensures n in p.deps && p.deps[n] == set d | d in KnownDeps(w.nodes, w.nodes[i].dependsOn)
  {
    hide PlanFor, Linked, Compiled, PlanOf, KnownDeps, Positions, HeadOf, AllHandled, Later, LinkedOk, Tree, RunOrder, IdAt;
    var dag, jobs := PlanMade(w, reg, r, event, p);
    var linked, at := Linked(w, reg, dag), Positions(dag, |dag|);
    CompiledSize(dag, linked, at, jobs);
    PlanKeys(dag, linked, at, jobs, r, event);
    PlanAt(dag, linked, at, jobs, r, event, n);
    TreeParts(dag, linked, at, jobs, r, at[n]);
    LinkedCarries(w, reg, dag, at[n]);
    i := dag[at[n]].index;
    SameDef(w, reg, i, linked[at[n]], p.jobs[n]);
  }

  /** The markers of its plan. */
  lemma PlanCollects(w: Wafer, reg: Registry, r: string, event: Json, p: Plan, n: NodeId)
    requires PlanFor(w, reg, r, event, p) && n in p.jobs
    ensures forall f :: IsLoop(p, f) && n in RejoinIds(p, f) ==>
              p.jobs[n].collect == Some(Collect(BodyId(p, f), p.jobs[f].loop.value.bodyAs, 0, f))
    ensures (forall f :: IsLoop(p, f) ==> n !in RejoinIds(p, f)) ==> p.jobs[n].collect.None?
  {
    hide PlanFor, Linked, Compiled, PlanOf, KnownDeps, Positions, HeadOf, AllHandled, Later, LinkedOk, Tree, RunOrder;
    var dag, jobs := PlanMade(w, reg, r, event, p);
    PlanKeys(dag, Linked(w, reg, dag), Positions(dag, |dag|), jobs, r, event);
    Markers.PlanMarks(dag, Linked(w, reg, dag), Positions(dag, |dag|), jobs, r, event, n);
  }

  /** A foreach names its body and its loop variable in its config; the variable defaults to `item`. */
  predicate ConfigSays(config: Json, body: string, asVar: string) {
    && config.JObj? && "body" in config.fields && config.fields["body"] == JStr(body)
    && asVar == (if "as" in config.fields && config.fields["as"].JStr? && config.fields["as"].s != "" then config.fields["as"].s else "item")
  }

  lemma ConfigFields(config: Json)
    requires StrField(config, "body") != ""
    ensures ConfigSays(config, StrField(config, "body"), LoopVar(config))
  {
  }

  /** A foreach node of the Wafer is a scheduler of the plan, with the body and the loop variable that its config names. */
  lemma PlanLoop(w: Wafer, reg: Registry, r: string, event: Json, p: Plan, i: nat)
    requires PlanFor(w, reg, r, event, p) && i < |w.nodes| && w.nodes[i].nodeType.Foreach?
    ensures var f := IdAt(w.nodes, i);
            IsLoop(p, f) && ConfigSays(w.nodes[i].config, BodyId(p, f), p.jobs[f].loop.value.bodyAs)
  {
    hide PlanFor, Linked, Compiled, PlanOf, KnownDeps, Positions, HeadOf, AllHandled, Later, LinkedOk, Tree, RunOrder, IdAt;
    hide StrField, LoopVar, ConfigSays, LoopShape;
    var f := IdAt(w.nodes, i);
    PlanForIs(w, reg, r, event, p, i);
    var dag, jobs := PlanMade(w, reg, r, event, p);
    var linked, at := Linked(w, reg, dag), Positions(dag, |dag|);
    CompiledSize(dag, linked, at, jobs);
    PlanKeys(dag, linked, at, jobs, r, event);
    PlanAt(dag, linked, at, jobs, r, event, f);
    TreeParts(dag, linked, at, jobs, r, at[f]);
    CompiledShape(dag, linked, at, jobs, r, event, f);
    ShapedLoop(p, f);
    var b := Markers.LoopInPlan(dag, linked, at, jobs, r, event, f);
    Markers.BodyField(dag, linked, at, at[f], b);
    OrderNames(w.nodes, dag, b);
    ConfigFields(w.nodes[i].config);
  }

  lemma ShapedLoop(p: Plan, f: NodeId)
    requires exists b :: ForeachRuns.ForeachShape(p, f, b)
    ensures IsLoop(p, f)
  {
  }

  lemma OrderNames(nodes: seq<WaferNode>, dag: seq<DagNode>, k: nat)
    requires RunOrder(nodes, dag) && k < |dag|
    ensures dag[k].name != ""
  {
    hide KnownDeps;
  }

  /** Its one seed: the head, with the run's event and no steps. */
  lemma PlanSeed(w: Wafer, reg: Registry, r: string, event: Json, p: Plan) returns (head: NodeJob)
    requires PlanFor(w, reg, r, event, p)
    ensures p.seeds == map[head.nodeId := head] && head.nodeId in p.jobs
    ensures head == p.jobs[head.nodeId].(input := MakeInput(event, map[]))
  {
    hide PlanFor, Linked, Compiled, PlanOf, KnownDeps, Positions, AllHandled, Later, LinkedOk, Tree, RunOrder;
    var dag, jobs := PlanMade(w, reg, r, event, p);
    var linked, at := Linked(w, reg, dag), Positions(dag, |dag|);
    CompiledSize(dag, linked, at, jobs);
    PlanKeys(dag, linked, at, jobs, r, event);
    head := HeadOf(jobs, at, r, event);
    PlanAt(dag, linked, at, jobs, r, event, dag[0].name);
  }

  lemma NoLoops(w: Wafer, reg: Registry, r: string, event: Json, p: Plan, n: NodeId)
    requires PlanFor(w, reg, r, event, p) && LoopFree(w.nodes) && n in p.jobs
    ensures !p.jobs[n].def.nodeType.Foreach? && p.jobs[n].collect.None?
  {
    hide PlanFor, KnownDeps, IdAt;
    var i := PlanNode(w, reg, r, event, p, n);
    forall f
      ensures !IsLoop(p, f)
    {
      if f in p.jobs {
        var j := PlanNode(w, reg, r, event, p, f);
      }
    }
    PlanCollects(w, reg, r, event, p, n);
  }

  /** A Wafer without foreach nodes whose nodes each depend on at most one compiles to a tree. */
  lemma TreeShapedPlan(w: Wafer, reg: Registry, r: string, event: Json, p: Plan)
    requires PlanFor(w, reg, r, event, p) && LoopFree(w.nodes) && OneParent(w.nodes)
    ensures Interpreter.TreeShaped(p)
  {
    hide PlanFor, LoopFree, OneParent, KnownDeps, IdAt;
    PlanKeysFor(w, reg, r, event, p);
    forall n | n in p.deps
      ensures forall d, d' :: d in p.deps[n] && d' in p.deps[n] ==> d == d'
    {
      var i := PlanNode(w, reg, r, event, p, n);
      FewRefs(w.nodes, i);
    }
    forall n | n in p.jobs
      ensures p.jobs[n].collect.None? && !p.jobs[n].def.nodeType.Foreach?
    {
      NoLoops(w, reg, r, event, p, n);
    }
  }

  lemma FewRefs(nodes: seq<WaferNode>, i: nat)
    requires OneParent(nodes) && i < |nodes|
    ensures forall d, d' :: d in KnownDeps(nodes, nodes[i].dependsOn) && d' in KnownDeps(nodes, nodes[i].dependsOn) ==> d == d'
  {
    hide KnownDeps;
  }

  lemma PlanKeysFor(w: Wafer, reg: Registry, r: string, event: Json, p: Plan)
    requires PlanFor(w, reg, r, event, p)
    ensures p.deps.Keys == p.jobs.Keys
  {
    hide PlanFor, Linked, Compiled, PlanOf, KnownDeps, Positions, HeadOf, AllHandled, Later, LinkedOk, Tree, RunOrder;
    var dag, jobs := PlanMade(w, reg, r, event, p);
    PlanKeys(dag, Linked(w, reg, dag), Positions(dag, |dag|), jobs, r, event);
  }

  lemma NamedId(nodes: seq<WaferNode>, i: nat)
    requires i < |nodes| && nodes[i].name != ""
    ensures IdAt(nodes, i) == nodes[i].name
  {
  }

  /** In a Wafer without foreach nodes whose nodes are all named, every job threads its input plainly. */
  lemma PlainPlan(w: Wafer, reg: Registry, r: string, event: Json, p: Plan)
    requires PlanFor(w, reg, r, event, p) && LoopFree(w.nodes) && AllNamed(w.nodes)
    ensures Lineage.Plainly(p, event)
  {
    hide PlanFor, LoopFree, KnownDeps, IdAt;
    forall n | n in p.jobs
      ensures n != "" && p.jobs[n].def.nodeName == n && p.jobs[n].collect.None?
    {
      var i := PlanNode(w, reg, r, event, p, n);
      NamedId(w.nodes, i);
      NoLoops(w, reg, r, event, p, n);
    }
    var head := PlanSeed(w, reg, r, event, p);
  }

  // ----- every history of a started run

  lemma StartParts(w: Wafer, reg: Registry, r: string, event: Json, was: Run, run: Run)
    returns (p: Plan, counts: map<NodeId, int>, head: NodeJob)
    requires StartedOver(w, reg, r, event, was, run)
    ensures PlanFor(w, reg, r, event, p) && Startable(p, counts, head) && run == Started(was, counts, head)
  {
    hide PlanFor, Startable, Started, ForeachRuns.ForeachsOk;
    p, counts, head :|
      PlanFor(w, reg, r, event, p) && Startable(p, counts, head) && ForeachRuns.ForeachsOk(p, []) && run == Started(was, counts, head);
  }

  lemma SoleSeed(p: Plan, counts: map<NodeId, int>, head: NodeJob, seed: NodeJob)
    requires Startable(p, counts, head) && p.seeds == map[seed.nodeId := seed]
    ensures seed == head
  {
    hide WfPlan;
    assert head.nodeId in p.seeds && p.seeds[head.nodeId] == head;
  }

  /** Every node of the Wafer has completed. */
  predicate Finished(nodes: seq<WaferNode>, run: Run) {
    forall i: nat :: i < |nodes| ==> IdAt(nodes, i) in DoneSet(run.history)
  }

  lemma FinishedPlan(w: Wafer, reg: Registry, r: string, event: Json, p: Plan, run: Run)
    requires PlanFor(w, reg, r, event, p) && Finished(w.nodes, run)
    ensures AllDone(p, run)
  {
    hide PlanFor, KnownDeps, IdAt, DoneSet;
    forall n | n in p.jobs
      ensures n in DoneSet(run.history)
    {
      var i := PlanNode(w, reg, r, event, p, n);
    }
  }

  /**
   A Wafer without foreach nodes whose nodes each depend on at most one, from its start over nothing live: in every
   history of a world in which all its nodes complete, the stored results are exactly those of the interpreter,
   run on the Wafer's head with the event.
   */
  lemma WaferRefines(lim: Limits, world: Interpreter.World, w: Wafer, reg: Registry, r: string, event: Json, was: Run,
          runs: seq<Run>, acts: seq<Action>) returns (p: Plan, head: NodeJob)
    requires Bounded(lim) && LoopFree(w.nodes) && OneParent(w.nodes)
    requires IsHistory(lim, runs, acts) && Interpreter.AllFaithful(lim, world, runs, acts)
    requires StartedOver(w, reg, r, event, was, runs[0]) && IdsOk(was) && Clear(was)
    requires Finished(w.nodes, runs[|acts|])
    ensures PlanFor(w, reg, r, event, p) && p.seeds == map[head.nodeId := head] && head.input == MakeInput(event, map[])
    ensures forall i: nat :: i < |w.nodes| ==> IdAt(w.nodes, i) in runs[|acts|].results
    ensures (set i: nat | i < |w.nodes| :: (IdAt(w.nodes, i), runs[|acts|].results[IdAt(w.nodes, i)]))
            == Interpreter.Interpret(world, head, MakeInput(event, map[]), false)
  {
    hide PlanFor, StartedOver, Finished, LoopFree, OneParent, Startable, Started, AllDone, KnownDeps, IdAt, IdsOk, LiveJobs;
    hide Interpreter.AllFaithful, Interpreter.TreeShaped, Interpreter.Interpret, Next;
    var counts: map<NodeId, int>;
    p, counts, head := StartParts(w, reg, r, event, was, runs[0]);
    TreeShapedPlan(w, reg, r, event, p);
    var last := runs[|acts|];
    FinishedPlan(w, reg, r, event, p, last);
    Interpreter.EngineRefinesInterpreter(lim, world, p, was, counts, head, runs, acts);
    var seed := PlanSeed(w, reg, r, event, p);
    SoleSeed(p, counts, head, seed);
    LeftIsStored(w, reg, r, event, p, last);
  }

  /** The results left, by the Wafer's nodes. */
  lemma LeftIsStored(w: Wafer, reg: Registry, r: string, event: Json, p: Plan, run: Run)
    requires PlanFor(w, reg, r, event, p) && forall n :: n in p.jobs ==> n in run.results
    ensures forall i: nat :: i < |w.nodes| ==> IdAt(w.nodes, i) in run.results
    ensures (set i: nat | i < |w.nodes| :: (IdAt(w.nodes, i), run.results[IdAt(w.nodes, i)])) == Interpreter.Left(p, run)
  {
    hide PlanFor, KnownDeps, IdAt;
    forall i: nat | i < |w.nodes|
      ensures IdAt(w.nodes, i) in p.jobs
    {
      PlanForIs(w, reg, r, event, p, i);
    }
    forall n | n in p.jobs
      ensures exists i: nat :: i < |w.nodes| && IdAt(w.nodes, i) == n
    {
      var i := PlanNode(w, reg, r, event, p, n);
    }
    var stored := set i: nat | i < |w.nodes| :: (IdAt(w.nodes, i), run.results[IdAt(w.nodes, i)]);
    forall x | x in Interpreter.Left(p, run)
      ensures x in stored
    {
      var n :| n in p.jobs && x == (n, run.results[n]);
      var i: nat :| i < |w.nodes| && IdAt(w.nodes, i) == n;
    }
  }

  lemma NoForeach(w: Wafer, reg: Registry, r: string, event: Json, p: Plan)
    requires PlanFor(w, reg, r, event, p) && LoopFree(w.nodes)
    ensures ForeachFree(p)
  {
    hide PlanFor, LoopFree;
    forall n | n in p.jobs
      ensures !p.jobs[n].def.nodeType.Foreach?
    {
      NoLoops(w, reg, r, event, p, n);
    }
  }

  /**
   A Wafer without foreach nodes whose nodes are all named, from its start over nothing live: in every state of every
   history, each queued job carries the run's event, and as its steps exactly the nodes of one dependency path
   down to it, each with its stored result.
   */
  lemma WaferLineage(lim: Limits, w: Wafer, reg: Registry, r: string, event: Json, was: Run, runs: seq<Run>,
          acts: seq<Action>, i: nat, id: nat) returns (p: Plan)
    requires Bounded(lim) && LoopFree(w.nodes) && AllNamed(w.nodes) && IsHistory(lim, runs, acts) && i <= |acts|
    requires StartedOver(w, reg, r, event, was, runs[0]) && IdsOk(was) && Clear(was)
    requires id in runs[i].queue
    ensures PlanFor(w, reg, r, event, p)
    ensures var job := runs[i].queue[id]; var steps := StepsOf(job.input);
            && EventOf(job.input) == event
            && job.nodeId in p.deps
            && var path := Lineage.PathTo(p, runs[i].history, job.nodeId);
            && Lineage.IsPath(p, path, job.nodeId)
            && (forall m :: m in steps <==> m in path)
            && (forall m :: m in steps ==> m in DoneSet(runs[i].history) && m in runs[i].results && steps[m] == runs[i].results[m])
  {
    hide PlanFor, StartedOver, LoopFree, AllNamed, RunInv, Next, IdsOk, Clear, Unfolds, ForeachFree, RunsWafer;
    hide Lineage.Plainly, Lineage.PathTo, Lineage.IsPath, DoneSet;
    p := StartedIsOk(w, reg, r, event, was, runs[0]);
    NoForeach(w, reg, r, event, p);
    HistoryKeeps(lim, p, runs, acts);
    PlainPlan(w, reg, r, event, p);
    Lineage.RunLineage(p, runs[i], id, event);
    QueuedNode(p, runs[i], id);
  }

  lemma QueuedNode(p: Plan, run: Run, id: nat)
    requires RunInv(p, run) && id in run.queue
    ensures run.queue[id].nodeId in p.deps
  {
    OpenNodes(p, run);
  }

  /**
   A Wafer with foreach nodes, from its start over nothing live: whenever a rejoin runs, in any history, its input
   holds under the foreach's own identifier the iterations' results in the order of the items.
   */
  lemma WaferMaps(lim: Limits, w: Wafer, reg: Registry, r: string, event: Json, was: Run, runs: seq<Run>,
          acts: seq<Action>, i: nat, f: NodeId) returns (p: Plan, c: Completion)
    requires Bounded(lim) && IsHistory(lim, runs, acts) && i < |acts| && runs[i].status != Cancelled
    requires forall i :: 0 <= i < |acts| ==> ForeachRuns.Supported(runs[i], acts[i])
    requires StartedOver(w, reg, r, event, was, runs[0]) && IdsOk(was) && Clear(was)
    ensures PlanFor(w, reg, r, event, p)
    ensures Fanned(p, runs[i].history, f) && RunsRejoin(p, runs[i], f, acts[i]) ==>
              && runs[i + 1].history == runs[i].history + [c]
              && c.node == runs[i].queue[acts[i].claim.id].nodeId && c.node in RejoinIds(p, f)
              && var steps := StepsOf(c.input);
              f in steps && IsMapped(p, runs[i], f, Served(runs[i].history, f).value, steps[f])
  {
    hide PlanFor, StartedOver, Next, IdsOk, Clear, RunsWafer, Tracks, ForeachRuns.Supported, RunsRejoin, IsMapped, Served;
    hide IsLoop, PlanAlong;
    p := StartedIsOk(w, reg, r, event, was, runs[0]);
    if Fanned(p, runs[i].history, f) && RunsRejoin(p, runs[i], f, acts[i]) {
      HistoryTracks(lim, p, p, runs, acts, i);
      c := RejoinRan(lim, p, PlanAlong(p, runs, acts[..i]), runs[i], f, acts[i]);
      assert Enabled(runs[i], acts[i]);
      RejoinOf(p, runs[i], f, acts[i]);
      PlanCollects(w, reg, r, event, p, c.node);
    } else {
      c := Completion("", "", false, None, map[], JNull, ByCommit);
    }
  }

  lemma RejoinOf(p: Plan, run: Run, f: NodeId, a: Action)
    requires RunsRejoin(p, run, f, a)
    ensures IsLoop(p, f) && a.Work? && a.claim.id in run.queue && run.queue[a.claim.id].nodeId in RejoinIds(p, f)
  {
  }

  // ----- what a job carries

  /** The job stands for node `i` of the Wafer, or for an iteration of it. */
  ghost predicate StandsFor(nodes: seq<WaferNode>, i: nat, n: NodeId) {
    i < |nodes| && (n == IdAt(nodes, i) || exists k: nat :: n == IterId(IdAt(nodes, i), k))
  }

  /** In a run that follows the plan, a queued job carries its Wafer node. */
  lemma QueuedCarries(w: Wafer, reg: Registry, r: string, event: Json, p0: Plan, p: Plan, run: Run, id: nat) returns (i: nat)
    requires PlanFor(w, reg, r, event, p0) && Tracks(p0, p, run) && id in run.queue
    ensures StandsFor(w.nodes, i, run.queue[id].nodeId) && Carries(w, reg, i, run.queue[id]) && run.queue[id].runId == r
  {
    hide PlanFor, Carries, IdAt, RunInv, Unfolds, KnownDeps, IterId;
    var job := run.queue[id];
    ForeachRuns.SchedulerParts(p, run, id);
    hide WfPlan, HistoryOk, JobFor;
    if job.nodeId in p0.jobs {
      FirstPlanNode(p0, p, run.history, job.nodeId);
      i := PlanNode(w, reg, r, event, p0, job.nodeId);
      SameDef(w, reg, i, p0.jobs[job.nodeId], job);
    } else {
      var f, k := IterationNode(p0, p, run.history, job.nodeId);
      i := PlanNode(w, reg, r, event, p0, BodyId(p0, f));
      var g := PlanNode(w, reg, r, event, p0, f);
      SameDef(w, reg, i, p0.jobs[BodyId(p0, f)], job);
    }
  }

  lemma FirstPlanNode(p0: Plan, p: Plan, h: seq<Completion>, n: NodeId)
    requires Unfolds(p0, p, h) && n in p0.jobs && n in p.jobs
    ensures p.jobs[n].def == p0.jobs[n].def && p.jobs[n].runId == p0.jobs[n].runId
  {
    assert NodeOk(p0, p, h, n);
    hide DoneSet, Served;
  }

  /** A node that is not of the first plan is an iteration of a body of that plan. */
  lemma IterationNode(p0: Plan, p: Plan, h: seq<Completion>, n: NodeId) returns (f: NodeId, k: nat)
    requires Unfolds(p0, p, h) && n in p.jobs && n !in p0.jobs
    ensures f in p0.jobs && IsLoop(p0, f) && BodyId(p0, f) in p0.jobs && n == IterId(BodyId(p0, f), k)
    ensures p.jobs[n].def == p0.jobs[BodyId(p0, f)].def && p.jobs[n].runId == p0.jobs[f].runId
  {
    assert NewOk(p0, p, h, n);
    f :| Fanned(p0, h, f) && n in ForeachRuns.IterIds(BodyId(p0, f), |Served(h, f).value|);
    var count := |Served(h, f).value|;
    k :| k < count && n == IterId(BodyId(p0, f), k);
    FannedSpreads(p0, p, h, f);
    BodyDef(p0, f);
    assert IterOk(p0, p, f, Served(h, f).value, ServedInput(h, f), k);
    hide DoneSet, Served, ForeachRuns.IterIds, IterId, Unfolds;
  }

  lemma BodyDef(p0: Plan, f: NodeId)
    requires Looped(p0) && IsLoop(p0, f)
    ensures BodyId(p0, f) in p0.jobs && p0.jobs[f].loop.value.body.def == p0.jobs[BodyId(p0, f)].def
  {
    assert ForeachRuns.ForeachShape(p0, f, BodyId(p0, f));
  }

  /**
   In every state of every history of a run that was started over nothing live, each queued job, also each iteration
   of a foreach body, carries its Wafer node: the workflow, name, type, config, registered command, secrets and dedupe
   key, and the run's id.
   */
  lemma WaferJobs(lim: Limits, w: Wafer, reg: Registry, r: string, event: Json, was: Run, runs: seq<Run>,
          acts: seq<Action>, s: nat, id: nat) returns (i: nat)
    requires Bounded(lim) && IsHistory(lim, runs, acts) && s <= |acts| && id in runs[s].queue
    requires forall i :: 0 <= i < |acts| ==> ForeachRuns.Supported(runs[i], acts[i])
    requires StartedOver(w, reg, r, event, was, runs[0]) && IdsOk(was) && Clear(was)
    ensures StandsFor(w.nodes, i, runs[s].queue[id].nodeId) && Carries(w, reg, i, runs[s].queue[id]) && runs[s].queue[id].runId == r
  {
    hide PlanFor, StartedOver, Next, IdsOk, Clear, RunsWafer, Tracks, ForeachRuns.Supported, PlanAlong, Carries, StandsFor;
    var p := StartedIsOk(w, reg, r, event, was, runs[0]);
    HistoryTracks(lim, p, p, runs, acts, s);
    i := QueuedCarries(w, reg, r, event, p, PlanAlong(p, runs, acts[..s]), runs[s], id);
  }
}
