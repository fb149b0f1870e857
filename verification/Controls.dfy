/** Starting and rerunning runs: the control plane's own writes to the store. */
module Controls {
  import opened Values
  import opened Jobs
  import opened Runs
  import opened Plans
  import opened Invariant
  import opened Handlers
  import opened Restarts
  import opened ForeachRuns
  import opened Steps
  import opened Unfolding
  import opened Wafers
  import opened Dags
  import opened Compilation
  import opened Runners
  import opened Launches
  import opened Databases
  import opened Stores

  // ----- Wafers the engine runs correctly

  /** In this run order the Wafer has one root, handled node types, and only supported schedulers. */
  ghost predicate Suits(w: Wafer, reg: Registry, dag: seq<DagNode>) {
    && 0 < |dag| && AllHandled(w, reg, dag) && SingleRoot(dag)
    && LoopsSupported(dag, Linked(w, reg, dag), Positions(dag, |dag|))
  }

  /** A Wafer that resolves, and suits the engine in every run order. */
  ghost predicate Runnable(w: Wafer, reg: Registry) {
    && NoClash(w.nodes)
    && (forall x :: !IsIssue(w.nodes, x))
    && forall dag {:trigger RunOrder(w.nodes, dag)} :: RunOrder(w.nodes, dag) ==> Suits(w, reg, dag)
  }

  lemma {:induction false} LinkedIsOk(w: Wafer, reg: Registry, dag: seq<DagNode>)
    requires RunOrder(w.nodes, dag) && NamesDistinct(dag) && AllHandled(w, reg, dag)
    ensures LinkedOk(dag, Linked(w, reg, dag), Positions(dag, |dag|))
  {
    var linked, at := Linked(w, reg, dag), Positions(dag, |dag|);
    forall i: nat | i < |dag|
      ensures LinkedAt(dag, linked, at, i)
    {
      assert dag[i] == NodeAt(w.nodes, dag[i].index);
    }
  }

  lemma OrderedRefs(nodes: seq<WaferNode>, dag: seq<DagNode>)
    requires RunOrder(nodes, dag)
    ensures BackRefs(dag)
  {
    forall i: nat | i < |dag|
      ensures Distinct(dag[i].dependsOn)
    {
      assert dag[i] == NodeAt(nodes, dag[i].index);
    }
  }

  /** Compiling a suitable Wafer gives jobs that make up a plan. */
  lemma {:induction false} SuitsCompiles(w: Wafer, reg: Registry, dag: seq<DagNode>,
          event: Json) returns (jobs: seq<NodeJob>)
    requires RunOrder(w.nodes, dag) && NamesDistinct(dag) && Indexed(w, dag) && Backwards(dag) && Suits(w, reg, dag)
    ensures Compiled(dag, Linked(w, reg, dag), Positions(dag, |dag|), jobs)
    ensures 0 < |jobs| && Later(jobs, Positions(dag, |dag|))
    ensures Compile(w, reg, dag, event) == Head(Nested(jobs, Positions(dag, |dag|), 0).(input := MakeInput(event, map[])))
  {
    var linked, at := Linked(w, reg, dag), Positions(dag, |dag|);
    LinkedIsOk(w, reg, dag);
    LinkedIsLater(w, reg, dag);
    AllPlaced(dag);
    OrderedRefs(w.nodes, dag);
    hide RunOrder, LinkedOk, LoopsSupported, Later, Stage, BackRefs, SingleRoot, Linked, Positions, Backwards;
    hide NamesDistinct, WithLoops;
    LoopsSetUp(dag, linked, at, |dag|);
    jobs := WithLoops(dag, linked, at, |dag|).value;
  }

  // ----- counters

  /** The counter of every node, by identifier: how many nodes it depends on. */
  ghost predicate CountsFor(nodes: seq<WaferNode>, counts: map<NodeId, int>) {
    forall i: nat {:trigger nodes[i]} :: i < |nodes| ==>
      IdAt(nodes, i) in counts && counts[IdAt(nodes, i)] == |KnownDeps(nodes, nodes[i].dependsOn)|
  }

  /** Write the counters of a run: for each node, how many nodes it depends on. */
  method InitDeps(store: Store, w: Wafer, r: string) returns (ok: bool, ghost counts: map<NodeId, int>)
    requires r in store.runs
    modifies store`runs
    ensures ok <==> forall x :: !IsIssue(w.nodes, x)
    ensures ok && NoClash(w.nodes) ==> CountsFor(w.nodes, counts)
    ensures ok ==> counts.Keys == (set i: nat | i < |w.nodes| :: IdAt(w.nodes, i))
    ensures store.runs == if ok then old(store.runs)[r := old(store.runs[r]).(remaining := old(store.runs[r]).remaining + counts)]
                          else old(store.runs)
  {
    hide IsIssue, HasCycle, NoClash, NamesDistinct, CountsFor, CountsOf;
    counts := map[];
    var dag, issues := ResolveDAG(w.nodes);
    if |issues| > 0 {
      assert IsIssue(w.nodes, issues[0]);
      return false, counts;
    }
    ok := true;
    Acyclic(w.nodes);
    if NoClash(w.nodes) {
      ResolvedNames(w.nodes, dag);
    }
    var depCount: map<NodeId, int>, order: seq<NodeId> := map[], [];
    var k := 0;
    hide RunOrder, CountedTo;
    CountedNone(dag);
    while k < |dag|
      invariant 0 <= k <= |dag| && CountedTo(dag, order, depCount, k) && store.runs == old(store.runs)
    {
      CountedNext(dag, order, depCount, k);
      depCount := depCount[dag[k].name := |dag[k].dependsOn|];
      order := order + [dag[k].name];
      k := k + 1;
    }
    counts := CountsOf(order, depCount);
    CountedIds(w.nodes, dag, order, depCount);
    store.InitRunDeps(r, order, depCount);
  }

  /** The first `k` nodes of the run order are listed and counted; under distinct names, each with its own count. */
  ghost predicate CountedTo(dag: seq<DagNode>, order: seq<NodeId>, depCount: map<NodeId, int>, k: nat) {
    && |order| == k <= |dag|
    && (forall j :: 0 <= j < k ==> order[j] == dag[j].name && dag[j].name in depCount)
    && (NamesDistinct(dag) ==> forall j :: 0 <= j < k ==> depCount[dag[j].name] == |dag[j].dependsOn|)
  }

  lemma CountedNone(dag: seq<DagNode>)
    ensures CountedTo(dag, [], map[], 0)
  {
  }

  lemma CountedNext(dag: seq<DagNode>, order: seq<NodeId>, depCount: map<NodeId, int>, k: nat)
    requires k < |dag| && CountedTo(dag, order, depCount, k)
    ensures CountedTo(dag, order + [dag[k].name], depCount[dag[k].name := |dag[k].dependsOn|], k + 1)
  {
  }

  lemma CountedIds(nodes: seq<WaferNode>, dag: seq<DagNode>, order: seq<NodeId>, depCount: map<NodeId, int>)
    requires RunOrder(nodes, dag) && CountedTo(dag, order, depCount, |dag|)
    ensures forall n :: n in order ==> n in depCount
    ensures CountsOf(order, depCount).Keys == set i: nat | i < |nodes| :: IdAt(nodes, i)
    ensures NamesDistinct(dag) ==> CountsFor(nodes, CountsOf(order, depCount))
  {
    hide NamesDistinct, KnownDeps, CountsFor, CountsOf, IdAt;
    CountsAre(order, depCount);
    if NamesDistinct(dag) {
      CountedFor(nodes, dag, order, depCount);
    }
    forall n | n in order
      ensures exists i: nat :: i < |nodes| && IdAt(nodes, i) == n
    {
      var k :| 0 <= k < |order| && order[k] == n;
      assert dag[k] == NodeAt(nodes, dag[k].index);
    }
    forall i: nat | i < |nodes|
      ensures IdAt(nodes, i) in order
    {
      assert Listed(dag, i);
      var k :| 0 <= k < |dag| && dag[k].index == i;
      assert order[k] in order;
    }
  }

  lemma CountedFor(nodes: seq<WaferNode>, dag: seq<DagNode>, order: seq<NodeId>, depCount: map<NodeId, int>)
    requires RunOrder(nodes, dag) && |order| == |dag|
    requires forall j :: 0 <= j < |dag| ==> order[j] == dag[j].name && dag[j].name in depCount && depCount[dag[j].name] == |dag[j].dependsOn|
    ensures (forall n :: n in order ==> n in depCount) && CountsFor(nodes, CountsOf(order, depCount))
  {
    hide KnownDeps, CountsOf, IdAt;
    CountsAre(order, depCount);
    forall i: nat | i < |nodes|
      ensures IdAt(nodes, i) in order && IdAt(nodes, i) in depCount && depCount[IdAt(nodes, i)] == |KnownDeps(nodes, nodes[i].dependsOn)|
    {
      assert Listed(dag, i);
      var k :| 0 <= k < |dag| && dag[k].index == i;
      assert dag[k] == NodeAt(nodes, i);
      assert order[k] in order;
    }
  }

  lemma {:induction false} RefsSize(refs: seq<string>)
    requires Distinct(refs)
    ensures |set d | d in refs| == |refs|
  {
    if refs != [] {
      var rest, last := refs[..|refs| - 1], refs[|refs| - 1];
      RefsSize(rest);
      assert refs == rest + [last];
      assert last !in rest;
      assert (set d | d in refs) == (set d | d in rest) + {last};
    }
  }

  lemma CountsStart(w: Wafer, dag: seq<DagNode>, linked: seq<NodeJob>, at: map<string, nat>, jobs: seq<NodeJob>,
          r: string, event: Json, counts: map<NodeId, int>, n: NodeId)
    requires RunOrder(w.nodes, dag) && Compiled(dag, linked, at, jobs) && CountsFor(w.nodes, counts) && n in at
    ensures 0 < |jobs| == |dag| && Later(jobs, at)
    ensures var p := PlanOf(dag, jobs, at, r, event); n in p.deps && n in counts && counts[n] == |p.deps[n]|
  {
    CompiledSize(dag, linked, at, jobs);
    PlanAt(dag, linked, at, jobs, r, event, n);
    CountAt(w.nodes, dag, counts, at[n]);
    hide PlanOf, Compiled, RunOrder, CountsFor, Later, RefsOf, LinkedOk;
  }

  lemma ShapeStart(dag: seq<DagNode>, linked: seq<NodeJob>, at: map<string, nat>, jobs: seq<NodeJob>, r: string,
          event: Json, n: NodeId)
    requires Compiled(dag, linked, at, jobs) && n in at
    ensures 0 < |jobs| == |dag| && Later(jobs, at)
    ensures var p := PlanOf(dag, jobs, at, r, event);
            n in p.jobs && (p.jobs[n].def.nodeType.Foreach? ==> exists b :: ForeachShape(p, n, b))
  {
    CompiledSize(dag, linked, at, jobs);
    PlanAt(dag, linked, at, jobs, r, event, n);
    TreeParts(dag, linked, at, jobs, r, at[n]);
    if dag[at[n]].nodeType.Foreach? {
      CompiledShape(dag, linked, at, jobs, r, event, n);
    }
    hide PlanOf, Compiled, Later, ForeachShape, Tree, RefsOf, LinkedOk;
  }

  /** The compiled plan can be started with its head and these counters. */
  lemma CompiledStarts(w: Wafer, dag: seq<DagNode>, linked: seq<NodeJob>, at: map<string, nat>, jobs: seq<NodeJob>,
          r: string, event: Json, counts: map<NodeId, int>)
    requires RunOrder(w.nodes, dag) && Compiled(dag, linked, at, jobs) && CountsFor(w.nodes, counts)
    ensures 0 < |jobs| == |dag| && Later(jobs, at)
    ensures Startable(PlanOf(dag, jobs, at, r, event), counts, HeadOf(jobs, at, r, event))
    ensures ForeachsOk(PlanOf(dag, jobs, at, r, event), [])
  {
    hide WfPlan, HeadOf, Tree, Later, LinkedOk, Compiled, RunOrder, CountsFor, PlanOf, ForeachShape;
    CompiledSize(dag, linked, at, jobs);
    CompiledWf(dag, linked, at, jobs, r, event);
    PlanKeys(dag, linked, at, jobs, r, event);
    var p := PlanOf(dag, jobs, at, r, event);
    forall n | n in at
      ensures n in p.deps && n in counts && counts[n] == |p.deps[n]|
      ensures n in p.jobs && (p.jobs[n].def.nodeType.Foreach? ==> exists b :: ForeachShape(p, n, b))
    {
      CountsStart(w, dag, linked, at, jobs, r, event, counts, n);
      ShapeStart(dag, linked, at, jobs, r, event, n);
    }
  }

  lemma CountAt(nodes: seq<WaferNode>, dag: seq<DagNode>, counts: map<NodeId, int>, i: nat)
    requires RunOrder(nodes, dag) && CountsFor(nodes, counts) && i < |dag|
    ensures dag[i].name in counts && counts[dag[i].name] == |RefsOf(dag, i)|
  {
    var at := dag[i].index;
    assert dag[i] == NodeAt(nodes, at) && nodes[at] == nodes[at];
    RefsSize(dag[i].dependsOn);
  }

  // ----- starting

  /** The run a start writes over: the rows already stored under its id, if any. */
  function Was(runs: map<string, Run>, r: string): Run {
    if r in runs then runs[r] else NO_RUN
  }

  /** Nothing of an earlier run with this id can still run. */
  predicate Clear(was: Run) {
    LiveJobs(was) == map[] && was.parked == map[]
  }

  /** `p` is a plan that compiling the Wafer, in some run order, lays down for run `r`. */
  ghost predicate PlanFor(w: Wafer, reg: Registry, r: string, event: Json, p: Plan) {
    exists dag: seq<DagNode>, jobs: seq<NodeJob> ::
      && RunOrder(w.nodes, dag) && AllHandled(w, reg, dag)
      && Compiled(dag, Linked(w, reg, dag), Positions(dag, |dag|), jobs)
      && p == PlanOf(dag, jobs, Positions(dag, |dag|), r, event)
  }

  /** The run order and the jobs that make up such a plan. */
  lemma PlanMade(w: Wafer, reg: Registry, r: string, event: Json, p: Plan) returns (dag: seq<DagNode>, jobs: seq<NodeJob>)
    requires PlanFor(w, reg, r, event, p)
    ensures RunOrder(w.nodes, dag) && AllHandled(w, reg, dag)
    ensures Compiled(dag, Linked(w, reg, dag), Positions(dag, |dag|), jobs)
    ensures 0 < |jobs| == |dag| && Later(jobs, Positions(dag, |dag|)) && p == PlanOf(dag, jobs, Positions(dag, |dag|), r, event)
  {
    hide RunOrder, Linked, Positions, LinkedOk, LoopsSupported, Stage, LoopsMade, SingleRoot, BackRefs, HeadOf, Tree, RefsOf;
    dag, jobs :|
      && RunOrder(w.nodes, dag) && AllHandled(w, reg, dag)
      && Compiled(dag, Linked(w, reg, dag), Positions(dag, |dag|), jobs)
      && p == PlanOf(dag, jobs, Positions(dag, |dag|), r, event);
  }

  /** Such a plan has the Wafer's nodes, each with the dependencies that the Wafer lists for it and a job that carries the node. */
  lemma PlanForIs(w: Wafer, reg: Registry, r: string, event: Json, p: Plan, i: nat)
    requires PlanFor(w, reg, r, event, p) && i < |w.nodes|
    ensures p.jobs.Keys == set i: nat | i < |w.nodes| :: IdAt(w.nodes, i)
    ensures var n := IdAt(w.nodes, i);
            && n in p.jobs && n in p.deps && p.deps[n] == (set d | d in KnownDeps(w.nodes, w.nodes[i].dependsOn))
            && Carries(w, reg, i, p.jobs[n]) && p.jobs[n].runId == r
  {
    hide PlanFor, Carries, Linked, Compiled, PlanOf, KnownDeps, Positions, HeadOf, AllHandled, Later, LinkedOk, Tree;
    var dag, jobs := PlanMade(w, reg, r, event, p);
    var linked, at := Linked(w, reg, dag), Positions(dag, |dag|);
    CompiledSize(dag, linked, at, jobs);
    PlanKeys(dag, linked, at, jobs, r, event);
    PlacedIds(w.nodes, dag);
    assert Listed(dag, i);
    var k :| 0 <= k < |dag| && dag[k].index == i;
    assert dag[k] == NodeAt(w.nodes, i);
    LinkedPosition(dag, linked, at, k);
    PlanAt(dag, linked, at, jobs, r, event, dag[k].name);
    TreeParts(dag, linked, at, jobs, r, k);
    LinkedCarries(w, reg, dag, k);
    SameDef(w, reg, i, linked[k], p.jobs[dag[k].name]);
  }

  lemma PlacedIds(nodes: seq<WaferNode>, dag: seq<DagNode>)
    requires RunOrder(nodes, dag)
    ensures Positions(dag, |dag|).Keys == set i: nat | i < |nodes| :: IdAt(nodes, i)
  {
    AllPlaced(dag);
    hide KnownDeps, Positions;
    forall n | n in Positions(dag, |dag|)
      ensures exists i: nat :: i < |nodes| && IdAt(nodes, i) == n
    {
      PositionNames(dag, |dag|, n);
      assert dag[Positions(dag, |dag|)[n]] == NodeAt(nodes, dag[Positions(dag, |dag|)[n]].index);
    }
    forall i: nat | i < |nodes|
      ensures IdAt(nodes, i) in Positions(dag, |dag|)
    {
      assert Listed(dag, i);
      var k :| 0 <= k < |dag| && dag[k].index == i;
      assert dag[k] == NodeAt(nodes, i);
    }
  }

  /** `run` is `was` with the head of the Wafer's plan started over it. */
  ghost predicate StartedOver(w: Wafer, reg: Registry, r: string, event: Json, was: Run, run: Run) {
    exists p: Plan, counts: map<NodeId, int>, head: NodeJob ::
      PlanFor(w, reg, r, event, p) && Startable(p, counts, head) && ForeachsOk(p, []) && run == Started(was, counts, head)
  }

  /** The run follows an unfolding of the Wafer's plan. */
  ghost predicate RunsWafer(w: Wafer, reg: Registry, r: string, event: Json, run: Run) {
    exists p :: PlanFor(w, reg, r, event, p) && RunOk(p, run)
  }

  /** A start over nothing live leaves a run that follows the Wafer's plan. */
  lemma StartedIsOk(w: Wafer, reg: Registry, r: string, event: Json, was: Run, run: Run) returns (p: Plan)
    requires StartedOver(w, reg, r, event, was, run) && IdsOk(was) && Clear(was)
    ensures PlanFor(w, reg, r, event, p) && Tracks(p, p, run)
    ensures RunsWafer(w, reg, r, event, run)
  {
    hide Startable, Started, LiveJobs, RunInv, ForeachsOk, PlanFor, Tracks;
    var counts: map<NodeId, int>, head: NodeJob;
    p, counts, head :|
      PlanFor(w, reg, r, event, p) && Startable(p, counts, head) && ForeachsOk(p, []) && run == Started(was, counts, head);
    StartEstablishes(p, was, counts, head);
    NoHistory(was, counts, head);
    StartTracks(p, run);
    assert RunOk(p, run);
  }

  lemma PlanForHasNodes(w: Wafer, reg: Registry, r: string, event: Json, p: Plan)
    requires PlanFor(w, reg, r, event, p)
    ensures p.jobs != map[]
  {
    hide PlanFor, Linked, Compiled, PlanOf, Positions, HeadOf, RunOrder, AllHandled, Later, LinkedOk, Tree;
    var dag, jobs := PlanMade(w, reg, r, event, p);
    PlanKeys(dag, Linked(w, reg, dag), Positions(dag, |dag|), jobs, r, event);
    assert dag[0].name in p.jobs;
  }

  /**
   A Wafer, from its start to the end: in every history of a run started over nothing live, the run is marked
   completed exactly when every node of the Wafer has completed, a foreach body in all its iterations, and the
   last completion was a worker's commit.
   */
  lemma WaferCompletes(lim: Limits, w: Wafer, reg: Registry, r: string, event: Json, was: Run, runs: seq<Run>,
          acts: seq<Action>, i: nat) returns (p: Plan)
    requires Bounded(lim) && IsHistory(lim, runs, acts) && i <= |acts| && runs[i].status != Cancelled
    requires forall i :: 0 <= i < |acts| ==> Supported(runs[i], acts[i])
    requires StartedOver(w, reg, r, event, was, runs[0]) && IdsOk(was) && Clear(was)
    ensures PlanFor(w, reg, r, event, p) && IsForeachHistory(lim, p, p, runs, acts)
    ensures var h := runs[i].history;
            runs[i].status == Completed <==> WaferDone(p, h) && h != [] && h[|h| - 1].how == ByCommit
  {
    hide Next, Tracks, StartedOver, PlanFor, WaferDone, Supported, IdsOk, Clear, RunsWafer;
    p := StartedIsOk(w, reg, r, event, was, runs[0]);
    PlanForHasNodes(w, reg, r, event, p);
    HistoryCompletes(lim, p, p, runs, acts, i);
  }

  lemma NoHistory(was: Run, counts: map<NodeId, int>, head: NodeJob)
    ensures Started(was, counts, head).history == []
  {
  }

  lemma HeadRun(jobs: seq<NodeJob>, at: map<string, nat>, r: string, event: Json)
    requires Later(jobs, at) && 0 < |jobs|
    ensures WithRun(Nested(jobs, at, 0).(input := MakeInput(event, map[])), r) == HeadOf(jobs, at, r, event)
  {
    hide Nested;
  }

  lemma StartSteps(was: Run, counts: map<NodeId, int>, head: NodeJob)
    ensures Started(was, counts, head) == EnqueueOne(Created(was).(remaining := Created(was).remaining + counts), head)
  {
  }

  /** What the head and the counters of a runnable Wafer make of a run. */
  lemma {:induction false} RunnableStarts(w: Wafer, reg: Registry, dag: seq<DagNode>, event: Json, r: string,
          counts: map<NodeId, int>, was: Run)
    requires Runnable(w, reg) && RunOrder(w.nodes, dag) && NamesDistinct(dag) && Indexed(w, dag) && Backwards(dag)
    requires CountsFor(w.nodes, counts)
    ensures Compile(w, reg, dag, event).Head?
    ensures StartedOver(w, reg, r, event, was, Started(was, counts, WithRun(Compile(w, reg, dag, event).job, r)))
  {
    hide IsIssue, RunOrder, NamesDistinct, Backwards, Suits, Startable, ForeachsOk, Started, NoClash, CountsFor;
    hide Compiled, Later, HeadOf, PlanOf, Nested, WithRun;
    var jobs := SuitsCompiles(w, reg, dag, event);
    var at := Positions(dag, |dag|);
    CompiledStarts(w, dag, Linked(w, reg, dag), at, jobs, r, event, counts);
    HeadRun(jobs, at, r, event);
    assert PlanFor(w, reg, r, event, PlanOf(dag, jobs, at, r, event));
  }

  lemma {:induction false} RunnableRuns(w: Wafer, reg: Registry, dag: seq<DagNode>, event: Json, r: string,
          counts: map<NodeId, int>, was: Run)
    requires Runnable(w, reg) && RunOrder(w.nodes, dag) && NamesDistinct(dag) && Indexed(w, dag) && Backwards(dag)
    requires CountsFor(w.nodes, counts)
    ensures Compile(w, reg, dag, event).Head?
    ensures var run := Started(was, counts, WithRun(Compile(w, reg, dag, event).job, r));
            && StartedOver(w, reg, r, event, was, run)
            && (IdsOk(was) && Clear(was) ==> RunsWafer(w, reg, r, event, run))
  {
    hide Runnable, RunOrder, NamesDistinct, Indexed, Backwards, CountsFor, StartedOver, Started, RunsWafer, IdsOk, Clear;
    hide WithRun, Compile;
    RunnableStarts(w, reg, dag, event, r, counts, was);
    if IdsOk(was) && Clear(was) {
      var p := StartedIsOk(w, reg, r, event, was, Started(was, counts, WithRun(Compile(w, reg, dag, event).job, r)));
    }
  }

  /** Record the run, write its counters and enqueue its head. */
  method RecordRun(store: Store, w: Wafer, head: NodeJob, r: string) returns (ok: bool, ghost counts: map<NodeId, int>)
    requires forall x :: !IsIssue(w.nodes, x)
    modifies store`runs
    ensures ok <==> r != ""
    ensures ok && NoClash(w.nodes) ==> CountsFor(w.nodes, counts)
    ensures store.runs == if ok then old(store.runs)[r := Started(Was(old(store.runs), r), counts, head)] else old(store.runs)
  {
    hide IsIssue, NoClash, CountsFor, Started, Created, EnqueueOne, AllLive, IdsOk;
    ghost var was := Was(store.runs, r);
    counts := map[];
    ok := store.CreateRun(r);
    if !ok {
      return;
    }
    ok, counts := InitDeps(store, w, r);
    StartSteps(was, counts, head);
    store.EnqueueJob(r, head);
  }

  /** Build a run's head, record the run, write its counters and enqueue the head. */
  method StartRun(store: Store, w: Wafer, reg: Registry, event: Json, r: string) returns (ok: bool)
    modifies store`runs
    ensures !ok ==> store.runs == old(store.runs)
    ensures forall other :: other in old(store.runs) && other != r ==> other in store.runs && store.runs[other] == old(store.runs)[other]
    ensures Runnable(w, reg) && r != "" ==>
              ok && r in store.runs && StartedOver(w, reg, r, event, Was(old(store.runs), r), store.runs[r])
    ensures Runnable(w, reg) && r != "" && IdsOk(Was(old(store.runs), r)) && Clear(Was(old(store.runs), r)) ==>
              RunsWafer(w, reg, r, event, store.runs[r])
  {
    hide IsIssue, RunOrder, NamesDistinct, Backwards, Runnable, StartedOver, Started, LiveJobs, LiveRows, Nested;
    hide NoClash, Startable, Created, EnqueueOne, AllLive;
    hide IdsOk, RunsWafer, CountsFor, Compile, WithRun;
    ghost var was := Was(store.runs, r);
    var built, dag := FromWafer(w, reg, event);
    RunnableResolves(w, reg);
    ghost var suited := Runnable(w, reg) && r != "";
    if !built.Head? {
      if suited {
        RunnableHead(w, reg, dag, event);
      }
      return built.NoNodes?;
    }
    var head := WithRun(built.job, r);
    ghost var counts;
    ok, counts := RecordRun(store, w, head, r);
    if suited {
      RunnableRuns(w, reg, dag, event, r, counts, was);
    }
  }

  lemma RunnableResolves(w: Wafer, reg: Registry)
    ensures Runnable(w, reg) ==> NoClash(w.nodes) && forall x :: !IsIssue(w.nodes, x)
  {
    hide IsIssue, NoClash;
  }

  lemma {:induction false} RunnableHead(w: Wafer, reg: Registry, dag: seq<DagNode>, event: Json)
    requires Runnable(w, reg) && RunOrder(w.nodes, dag) && NamesDistinct(dag) && Indexed(w, dag) && Backwards(dag)
    ensures Compile(w, reg, dag, event).Head?
  {
    hide IsIssue, RunOrder, NamesDistinct, Backwards, Suits, NoClash, Compiled, Later, Nested;
    var jobs := SuitsCompiles(w, reg, dag, event);
  }

  // ----- rerunning

  datatype Mode = Continue | Restart | Discard | OtherMode

  datatype Rerun = NothingSaved | NotRegistered | NotStarted | BadMode | Done

  /** Re-enqueue the saved job as the run's only pending work. */
  method RerunContinue(store: Store, r: string)
    requires r in store.runs && store.runs[r].saved.Some?
    modifies store`runs
    ensures store.runs == old(store.runs)[r := Handlers.RerunContinue(old(store.runs[r]))]
  {
    var job := store.runs[r].saved.value;
    store.SetRunStatus(r, Running);
    var run := store.runs[r];
    store.runs := store.runs[r := run.(pending := 1, queue := LiveJobs(run), rows := LiveRows(run))];
    store.EnqueueJob(r, job);
  }

  /**
   Rerun a dead-lettered run: continue from its saved job, restart it from the top, or give the saved job
   up. Nothing changes when nothing is saved, or the workflow to restart is not registered or does not compile.
   */
  method RerunFailed(store: Store, registered: map<string, Wafer>, reg: Registry, r: string, mode: Mode) returns (how: Rerun)
    modifies store`runs
    ensures how.NothingSaved? <==> !(r in old(store.runs) && old(store.runs)[r].saved.Some?)
    ensures how.NothingSaved? || how.NotRegistered? || how.NotStarted? || how.BadMode? ==> store.runs == old(store.runs)
    ensures how.Done? && mode.Continue? ==> store.runs == old(store.runs)[r := Handlers.RerunContinue(old(store.runs)[r])]
    ensures how.Done? && mode.Discard? ==> store.runs == old(store.runs)[r := old(store.runs)[r].(saved := None)]
    ensures !how.NothingSaved? ==> var workflow := old(store.runs)[r].saved.value.def.workflowId;
              && (mode.Continue? || mode.Discard? ==> how.Done?)
              && (mode.Restart? && workflow in registered && Runnable(registered[workflow], reg) && r != "" ==>
                    && how.Done? && r in store.runs
                    && var w := registered[workflow]; var event := SavedEvent(old(store.runs)[r].saved.value);
                    && StartedOver(w, reg, r, event, old(store.runs)[r], store.runs[r])
                    && (IdsOk(old(store.runs)[r]) && Clear(old(store.runs)[r]) ==> RunsWafer(w, reg, r, event, store.runs[r])))
    ensures how.BadMode? ==> mode.OtherMode?
  {
    hide Runnable, StartedOver, IdsOk, RunsWafer, LiveJobs, LiveRows, Handlers.RerunContinue;
    if r !in store.runs || store.runs[r].saved.None? {
      return NothingSaved;
    }
    var job := store.runs[r].saved.value;
    match mode {
      case Continue => RerunContinue(store, r);
      case Restart =>
        if job.def.workflowId !in registered {
          return NotRegistered;
        }
        var ok := StartRun(store, registered[job.def.workflowId], reg, SavedEvent(job), r);
        if !ok {
          return NotStarted;
        }
      case Discard => store.runs := store.runs[r := store.runs[r].(saved := None)];
      case OtherMode => return BadMode;
    }
    how := Done;
  }

  // ----- a runnable Wafer exists

  /** A foreach, its body and a rejoin. */
  function FanNodes(): (nodes: seq<WaferNode>)
    ensures |nodes| == 3
  {
    [WaferNode("f", Foreach, [], JObj(map["body" := JStr("b")]), [], ""),
     WaferNode("b", Plain("set"), ["f"], JNull, [], ""),
     WaferNode("r", Plain("set"), ["b"], JNull, [], "")]
  }

  lemma FanLookup()
    ensures Lookup(FanNodes(), "f") == Some(0) && Lookup(FanNodes(), "b") == Some(1) && Lookup(FanNodes(), "r") == Some(2)
  {
    var n := FanNodes();
    assert "f"[0] != "b"[0] && "f"[0] != "r"[0] && "b"[0] != "r"[0];
    assert n[0].name == "f" && n[1].name == "b" && n[2].name == "r";
  }

  lemma KnownOne(nodes: seq<WaferNode>, d: string)
    requires Lookup(nodes, d).Some?
    ensures KnownDeps(nodes, [d]) == [d] && KnownDeps(nodes, []) == []
    ensures Preds(nodes, [d]) == {Lookup(nodes, d).value} && Preds(nodes, []) == {}
  {
    hide Lookup, Preds, KnownDeps;
    NoneKnown(nodes);
    assert [d][..0] == [] && [d][..1] == [d] && [] + [d] == [d];
    KnownNext(nodes, [d], 0);
    PredsNext(nodes, [], d);
  }

  lemma NoneKnown(nodes: seq<WaferNode>)
    ensures KnownDeps(nodes, []) == [] && Preds(nodes, []) == {}
  {
  }

  lemma FanRefs(i: nat)
    requires i < 3
    ensures var known := KnownDeps(FanNodes(), FanNodes()[i].dependsOn);
            && known == (if i == 0 then [] else if i == 1 then ["f"] else ["b"])
            && Preds(FanNodes(), known) == (if i == 0 then {} else {i - 1})
  {
    FanLookup();
    KnownOne(FanNodes(), "f");
    KnownOne(FanNodes(), "b");
    hide KnownDeps, Preds, Lookup;
    assert i == 0 || i == 1 || i == 2;
  }

  lemma FanGraph()
    ensures FanShaped(GraphOf(FanNodes()))
    ensures NodeAt(FanNodes(), 0).dependsOn == [] && NodeAt(FanNodes(), 1).dependsOn == ["f"] && NodeAt(FanNodes(), 2).dependsOn == ["b"]
  {
    hide KnownDeps, Preds, Lookup, FanNodes, IdAt;
    FanRefs(0);
    FanRefs(1);
    FanRefs(2);
  }

  predicate FanShaped(g: Graph) {
    |g| == 3 && g[0] == {} && g[1] == {0} && g[2] == {1}
  }

  lemma FanAcyclic()
    ensures !HasCycle(GraphOf(FanNodes()))
  {
    FanGraph();
    var g := GraphOf(FanNodes());
    var order: seq<nat> := [0, 1, 2];
    FanTopological(g, order);
    hide GraphOf, Topological, Stuck, LeftOut, HasCycle;
    FullIffAcyclic(g, order);
  }

  lemma FanTopological(g: Graph, order: seq<nat>)
    requires FanShaped(g) && order == [0, 1, 2]
    ensures Topological(g, order) && Stuck(g, LeftOut(g, order))
  {
    hide Elements, Below;
    FanNoneLeft(g, order);
    hide LeftOut;
    assert order[..1] == [0] && order[..2] == [0, 1];
    forall k | 0 <= k < 3
      ensures forall d :: d in g[order[k]] ==> d in order[..k]
    {
      assert k == 0 || k == 1 || k == 2;
    }
  }

  lemma FanNoneLeft(g: Graph, order: seq<nat>)
    requires |g| == 3 && order == [0, 1, 2]
    ensures LeftOut(g, order) == {}
  {
    hide Elements, Below;
    assert 0 in order && 1 in order && 2 in order;
    assert forall i :: i in Below(3) ==> i == 0 || i == 1 || i == 2;
  }

  lemma FanNames(i: nat)
    requires i < 3
    ensures IdAt(FanNodes(), i) == FanNodes()[i].name && !DuplicateAt(FanNodes(), i)
    ensures forall d :: d in FanNodes()[i].dependsOn ==> Lookup(FanNodes(), d).Some?
  {
    FanLookup();
    assert "f"[0] != "b"[0] && "f"[0] != "r"[0] && "b"[0] != "r"[0];
  }

  lemma FanResolves()
    ensures forall x :: !IsIssue(FanNodes(), x)
    ensures NoClash(FanNodes())
  {
    FanAcyclic();
    FanNames(0);
    FanNames(1);
    FanNames(2);
    hide HasCycle, DuplicateAt, Lookup;
    forall x
      ensures !IsIssue(FanNodes(), x)
    {
      if x.DuplicateName? && x.index < 3 {
        assert x.index == 0 || x.index == 1 || x.index == 2;
      }
      if x.UnknownReference? && x.index < 3 {
        assert x.index == 0 || x.index == 1 || x.index == 2;
      }
    }
  }

  /** There is only one order to run them in. */
  lemma FanOrder(dag: seq<DagNode>)
    requires RunOrder(FanNodes(), dag)
    ensures dag == [NodeAt(FanNodes(), 0), NodeAt(FanNodes(), 1), NodeAt(FanNodes(), 2)]
  {
    FanGraph();
    var n := FanNodes();
    hide KnownDeps, GraphOf;
    assert "f"[0] != "b"[0] && "f"[0] != "r"[0] && "b"[0] != "r"[0];
    FirstIsFree(n, dag);
    FanEntry(dag, 0);
    FanEntry(dag, 1);
    FanEntry(dag, 2);
    if dag[1].index == 2 {
      SecondFollows(n, dag, "b");
    }
  }

  lemma FanEntry(dag: seq<DagNode>, k: nat)
    requires RunOrder(FanNodes(), dag) && k < 3
    ensures |dag| == 3 && (dag[k] == NodeAt(FanNodes(), 0) || dag[k] == NodeAt(FanNodes(), 1) || dag[k] == NodeAt(FanNodes(), 2))
    ensures dag[k] == NodeAt(FanNodes(), dag[k].index) && forall l :: 0 <= l < k ==> dag[l].index != dag[k].index
  {
    hide KnownDeps;
  }

  lemma SecondFollows(nodes: seq<WaferNode>, dag: seq<DagNode>, d: string)
    requires RunOrder(nodes, dag) && |dag| > 1 && d in dag[1].dependsOn
    ensures dag[0].name == d
  {
  }

  /** The fan suits the engine, so there are runnable Wafers with a foreach. */
  lemma FanRuns(name: string, reg: Registry)
    requires forall n :: reg(n).Some?
    ensures Runnable(Wafer(name, FanNodes()), reg)
  {
    var w := Wafer(name, FanNodes());
    FanResolves();
    hide IsIssue, NoClash;
    forall dag | RunOrder(w.nodes, dag)
      ensures Suits(w, reg, dag)
    {
      FanOrder(dag);
      FanSuits(w, reg, dag);
    }
  }

  lemma {:induction false} FanSuits(w: Wafer, reg: Registry, dag: seq<DagNode>)
    requires w.nodes == FanNodes() && forall n :: reg(n).Some?
    requires dag == [NodeAt(FanNodes(), 0), NodeAt(FanNodes(), 1), NodeAt(FanNodes(), 2)]
    ensures Suits(w, reg, dag)
  {
    FanGraph();
    FanDependents(dag);
    FanLinked(w, reg, dag);
    FanRoots(dag);
    hide GraphOf, KnownDeps, Positions, DependentsOf, DependsAt, Linked, AllHandled, LoopShape, LoopsSupported;
    hide SingleRoot, NodeAt, FanNodes;
    var at := Positions(dag, 3);
    FanShape(dag, Linked(w, reg, dag), at);
    OneScheduler(dag, Linked(w, reg, dag), at);
  }

  lemma FanRoots(dag: seq<DagNode>)
    requires dag == [NodeAt(FanNodes(), 0), NodeAt(FanNodes(), 1), NodeAt(FanNodes(), 2)]
    ensures SingleRoot(dag) && forall i: nat :: i < |dag| && dag[i].nodeType.Foreach? ==> i == 0
  {
    FanGraph();
    hide KnownDeps, GraphOf;
    forall i: nat | i < 3
      ensures (dag[i].dependsOn == [] <==> i == 0) && (dag[i].nodeType.Foreach? ==> i == 0)
    {
      assert i == 0 || i == 1 || i == 2;
    }
  }

  lemma OneScheduler(dag: seq<DagNode>, linked: seq<NodeJob>, at: map<string, nat>)
    requires LoopShape(dag, linked, at, 0, 1) && forall i: nat :: i < |dag| && dag[i].nodeType.Foreach? ==> i == 0
    ensures LoopsSupported(dag, linked, at)
  {
    hide LoopShape;
    assert HasShape(dag, linked, at, 0);
  }

  lemma {:induction false} FanLinked(w: Wafer, reg: Registry, dag: seq<DagNode>)
    requires w.nodes == FanNodes() && forall n :: reg(n).Some?
    requires dag == [NodeAt(FanNodes(), 0), NodeAt(FanNodes(), 1), NodeAt(FanNodes(), 2)]
    ensures AllHandled(w, reg, dag)
    ensures var linked := Linked(w, reg, dag); var at := Positions(dag, 3);
            && StrField(linked[0].def.config, "body") == "b"
            && linked[0].dependents == DependentsOf(dag, at, 3, 0) && linked[2].dependents == DependentsOf(dag, at, 3, 2)
  {
    hide DependentsOf, Positions, KnownDeps;
  }

  lemma FanShape(dag: seq<DagNode>, linked: seq<NodeJob>, at: map<string, nat>)
    requires dag == [NodeAt(FanNodes(), 0), NodeAt(FanNodes(), 1), NodeAt(FanNodes(), 2)] && |linked| == 3
    requires dag[1].dependsOn == ["f"] && dag[2].dependsOn == ["b"]
    requires at == map["f" := 0, "b" := 1, "r" := 2]
    requires StrField(linked[0].def.config, "body") == "b" && linked[0].dependents == ["b"] && linked[2].dependents == []
    requires !DependsAt(dag, at, 0, 1) && !DependsAt(dag, at, 1, 1)
    ensures LoopShape(dag, linked, at, 0, 1)
  {
    hide KnownDeps;
    forall k: nat
      ensures IterId(dag[1].name, k) !in at
    {
      assert |IterId("b", k)| > 1;
    }
    hide IterId, DependsAt;
  }

  lemma FanDependents(dag: seq<DagNode>)
    requires dag == [NodeAt(FanNodes(), 0), NodeAt(FanNodes(), 1), NodeAt(FanNodes(), 2)]
    ensures Positions(dag, 3) == map["f" := 0, "b" := 1, "r" := 2]
    ensures var at := Positions(dag, 3);
            && DependentsOf(dag, at, 3, 0) == ["b"] && DependentsOf(dag, at, 3, 2) == []
            && !DependsAt(dag, at, 0, 1) && !DependsAt(dag, at, 1, 1) && DependsAt(dag, at, 2, 1)
  {
    FanGraph();
    hide GraphOf, KnownDeps;
    assert "f"[0] != "b"[0] && "f"[0] != "r"[0] && "b"[0] != "r"[0];
    assert dag[0].name == "f" && dag[1].name == "b" && dag[2].name == "r";
    assert Positions(dag, 0) == map[];
    assert Positions(dag, 1) == map["f" := 0];
    assert Positions(dag, 2) == map["f" := 0, "b" := 1];
    var at := Positions(dag, 3);
    forall j: nat | j < 3
      ensures DependentsOf(dag, at, 3, j) ==
              (if DependsAt(dag, at, 0, j) then ["f"] else []) + (if DependsAt(dag, at, 1, j) then ["b"] else []) + (if DependsAt(dag, at, 2, j) then ["r"] else [])
    {
      DependentsNext(dag, at, 0, j);
      DependentsNext(dag, at, 1, j);
      DependentsNext(dag, at, 2, j);
      assert DependentsOf(dag, at, 0, j) == [];
    }
  }
}
