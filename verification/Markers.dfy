/** The collect markers of a compiled Wafer: each rejoin carries its own scheduler's, and no other node carries any. */
module Markers {
  import opened Values
  import opened Jobs
  import opened Plans
  import opened Wafers
  import opened Dags
  import opened Compilation
  import opened Runners
  import opened Launches
  import Unfolding

  /** The node at `i` is a rejoin of the scheduler at `f`. */
  ghost predicate Joins(dag: seq<DagNode>, linked: seq<NodeJob>, at: map<string, nat>, f: nat, i: nat) {
    && f < |dag| == |linked| && i < |dag| && dag[f].nodeType.Foreach?
    && exists b: nat :: b < |dag| && LoopShape(dag, linked, at, f, b) && dag[i].name in linked[b].dependents
  }

  /** What the scheduler at `f` marks its rejoins with: its body, its loop variable and its own identifier. */
  function MarkOf(dag: seq<DagNode>, linked: seq<NodeJob>, f: nat): Collect
    requires f < |dag| == |linked|
  {
    Collect(StrField(linked[f].def.config, "body"), LoopVar(linked[f].def.config), 0, dag[f].name)
  }

  /** The marker at `i`, and the loop variable if `i` is a scheduler, once the schedulers among the first `n` nodes are set up. */
  ghost predicate MarkAt(dag: seq<DagNode>, linked: seq<NodeJob>, at: map<string, nat>, jobs: seq<NodeJob>, n: nat, i: nat)
    requires i < |dag| == |linked| == |jobs|
  {
    && (forall f: nat {:trigger Joins(dag, linked, at, f, i)} :: f < n && Joins(dag, linked, at, f, i) ==>
          jobs[i].collect == Some(MarkOf(dag, linked, f)))
    && ((forall f: nat {:trigger Joins(dag, linked, at, f, i)} :: f < n ==> !Joins(dag, linked, at, f, i)) ==> jobs[i].collect.None?)
    && (i < n && dag[i].nodeType.Foreach? ==> jobs[i].loop.Some? && jobs[i].loop.value.bodyAs == LoopVar(linked[i].def.config))
  }

  ghost predicate MarkedUp(dag: seq<DagNode>, linked: seq<NodeJob>, at: map<string, nat>, jobs: seq<NodeJob>, n: nat) {
    && |dag| == |linked| == |jobs|
    && forall i: nat {:trigger MarkAt(dag, linked, at, jobs, n, i)} :: i < |dag| ==> MarkAt(dag, linked, at, jobs, n, i)
  }

  /** A scheduler has one body. */
  lemma OneBody(dag: seq<DagNode>, linked: seq<NodeJob>, at: map<string, nat>, f: nat, b: nat, b2: nat)
    requires LinkedOk(dag, linked, at) && LoopShape(dag, linked, at, f, b) && LoopShape(dag, linked, at, f, b2)
    ensures b == b2
  {
    hide LinkedAt;
    SameName(dag, b, b2);
  }

  /** The rejoins of a scheduler are the nodes at its rejoins' positions. */
  lemma JoinsIff(dag: seq<DagNode>, linked: seq<NodeJob>, at: map<string, nat>, f: nat, b: nat, i: nat)
    requires LinkedOk(dag, linked, at) && LoopShape(dag, linked, at, f, b) && f < |dag| && b < |dag| && i < |dag|
    requires dag[f].nodeType.Foreach?
    ensures |linked| == |dag| && forall x :: x in linked[b].dependents ==> x in at
    ensures Joins(dag, linked, at, f, i) <==> dag[i].name in linked[b].dependents
    ensures IsRejoin(at, linked[b].dependents, |linked[b].dependents|, i) <==> dag[i].name in linked[b].dependents
    ensures Joins(dag, linked, at, f, i) ==> i != f
  {
    hide LoopShape, LinkedOk, IsRejoin, Positions;
    LinkedPosition(dag, linked, at, i);
    var rejoins := linked[b].dependents;
    forall x | x in rejoins
      ensures x in at && at[x] < |dag| && dag[at[x]].name == x && at[x] != f
    {
      RejoinIs(dag, linked, at, f, b, x);
    }
    if Joins(dag, linked, at, f, i) {
      var b2: nat :| b2 < |dag| && LoopShape(dag, linked, at, f, b2) && dag[i].name in linked[b2].dependents;
      OneBody(dag, linked, at, f, b, b2);
    }
    if IsRejoin(at, rejoins, |rejoins|, i) {
      var x := RejoinAt(at, rejoins, i);
    } else {
      NoRejoin(at, rejoins, i);
    }
  }

  lemma NoRejoin(at: map<string, nat>, rejoins: seq<string>, i: nat)
    requires (forall x :: x in rejoins ==> x in at) && !IsRejoin(at, rejoins, |rejoins|, i)
    ensures forall x :: x in rejoins ==> at[x] != i
  {
    forall x | x in rejoins
      ensures at[x] != i
    {
      var k :| 0 <= k < |rejoins| && rejoins[k] == x;
    }
  }

  /** No rejoin has two schedulers. */
  lemma OneScheduler(dag: seq<DagNode>, linked: seq<NodeJob>, at: map<string, nat>, f: nat, g: nat, i: nat)
    requires LinkedOk(dag, linked, at) && Joins(dag, linked, at, f, i) && Joins(dag, linked, at, g, i)
    ensures f == g
  {
    hide LoopShape, LinkedOk;
    var b: nat :| b < |dag| && LoopShape(dag, linked, at, f, b) && dag[i].name in linked[b].dependents;
    var b2: nat :| b2 < |dag| && LoopShape(dag, linked, at, g, b2) && dag[i].name in linked[b2].dependents;
    if f != g {
      RejoinsDiffer(dag, linked, at, f, b, g, b2, dag[i].name);
    }
  }

  // ----- setting up one scheduler after another

  lemma StartMarks(dag: seq<DagNode>, linked: seq<NodeJob>, at: map<string, nat>)
    requires LinkedOk(dag, linked, at)
    ensures MarkedUp(dag, linked, at, linked, 0)
  {
    hide Joins, Positions;
    forall i: nat | i < |dag|
      ensures MarkAt(dag, linked, at, linked, 0, i)
    {
      assert LinkedAt(dag, linked, at, i);
    }
  }

  /** A node that is no scheduler marks nothing. */
  lemma SkipMarks(dag: seq<DagNode>, linked: seq<NodeJob>, at: map<string, nat>, jobs: seq<NodeJob>, n: nat)
    requires MarkedUp(dag, linked, at, jobs, n) && n < |dag| && !dag[n].nodeType.Foreach?
    ensures MarkedUp(dag, linked, at, jobs, n + 1)
  {
    var next := n + 1;
    forall i: nat | i < |dag|
      ensures MarkAt(dag, linked, at, jobs, next, i)
    {
      assert MarkAt(dag, linked, at, jobs, n, i);
      assert !Joins(dag, linked, at, n, i);
      hide Joins;
    }
  }

  lemma StepParts(dag: seq<DagNode>, linked: seq<NodeJob>, at: map<string, nat>, jobs: seq<NodeJob>, r: seq<NodeJob>,
          n: nat, b: nat)
    requires LoopStep(dag, linked, at, jobs, r, n, b)
    ensures |jobs| == |r| == |dag| == |linked| && b < |dag| && n < |dag| && dag[n].nodeType.Foreach?
    ensures LinkedOk(dag, linked, at) && LoopShape(dag, linked, at, n, b)
    ensures StrField(linked[n].def.config, "body") == dag[b].name
    ensures r[n].collect == jobs[n].collect && r[n].loop.Some? && r[n].loop.value.bodyAs == LoopVar(linked[n].def.config)
  {
    hide LinkedOk, LoopsSupported, IsRejoin, Apart, Collecting;
  }

  lemma StepJob(dag: seq<DagNode>, linked: seq<NodeJob>, at: map<string, nat>, jobs: seq<NodeJob>, r: seq<NodeJob>,
          n: nat, b: nat, i: nat)
    requires LoopStep(dag, linked, at, jobs, r, n, b) && i < |dag| && i != n
    ensures forall x :: x in linked[b].dependents ==> x in at
    ensures var rejoins := linked[b].dependents;
            r[i] == if IsRejoin(at, rejoins, |rejoins|, i)
                    then Collecting(jobs[i], dag[b].name, LoopVar(linked[n].def.config), dag[n].name) else jobs[i]
  {
    hide LinkedOk, LoopsSupported, IsRejoin, Collecting, LoopShape;
  }

  /** Setting up the scheduler at `n` marks its rejoins, and no other node. */
  lemma StepMarks(dag: seq<DagNode>, linked: seq<NodeJob>, at: map<string, nat>, jobs: seq<NodeJob>, r: seq<NodeJob>,
          n: nat, b: nat, i: nat)
    requires LoopStep(dag, linked, at, jobs, r, n, b) && i < |dag| && |jobs| == |linked| == |dag| == |r|
    requires MarkAt(dag, linked, at, jobs, n, i)
    ensures MarkAt(dag, linked, at, r, n + 1, i)
  {
    hide LoopStep, LinkedOk, LoopShape, IsRejoin, Joins, LoopVar, StrField;
    StepParts(dag, linked, at, jobs, r, n, b);
    JoinsIff(dag, linked, at, n, b, i);
    if i != n {
      StepJob(dag, linked, at, jobs, r, n, b, i);
    }
    forall f: nat | f < n && Joins(dag, linked, at, f, i)
      ensures !Joins(dag, linked, at, n, i)
    {
      if Joins(dag, linked, at, n, i) {
        OneScheduler(dag, linked, at, f, n, i);
      }
    }
  }

  /** How the scheduler at `n` gets set up. */
  lemma LoopMade(dag: seq<DagNode>, linked: seq<NodeJob>, at: map<string, nat>, jobs: seq<NodeJob>, n: nat) returns (b: nat)
    requires LinkedOk(dag, linked, at) && LoopsSupported(dag, linked, at) && Stage(dag, linked, at, jobs, n)
    requires n < |dag| && dag[n].nodeType.Foreach? && Sized(jobs, at)
    ensures WithLoop(jobs, at, n).Some? && LoopStep(dag, linked, at, jobs, WithLoop(jobs, at, n).value, n, b)
  {
    hide LinkedOk, Sized, SetUp, WithLoop, LoopsSupported, LoopVar;
    b := ShapeOf(dag, linked, at, n);
    assert Untouched(linked, jobs, n);
    hide LoopShape;
    assert Untouched(linked, jobs, b);
    LoopSets(dag, linked, at, jobs, n, b);
  }

  lemma NextMarks(dag: seq<DagNode>, linked: seq<NodeJob>, at: map<string, nat>, jobs: seq<NodeJob>, n: nat)
    requires LinkedOk(dag, linked, at) && LoopsSupported(dag, linked, at) && Stage(dag, linked, at, jobs, n)
    requires n < |dag| && dag[n].nodeType.Foreach? && Sized(jobs, at) && MarkedUp(dag, linked, at, jobs, n)
    ensures WithLoop(jobs, at, n).Some? && MarkedUp(dag, linked, at, WithLoop(jobs, at, n).value, n + 1)
  {
    hide LinkedOk, Sized, WithLoop, LoopsSupported, Stage, LoopStep, MarkAt;
    var b := LoopMade(dag, linked, at, jobs, n);
    var r, next := WithLoop(jobs, at, n).value, n + 1;
    forall i: nat | i < |dag|
      ensures MarkAt(dag, linked, at, r, next, i)
    {
      assert MarkAt(dag, linked, at, jobs, n, i);
      StepMarks(dag, linked, at, jobs, r, n, b, i);
    }
  }

  /** Every scheduler marks its rejoins. */
  lemma {:induction false} LoopsMark(dag: seq<DagNode>, linked: seq<NodeJob>, at: map<string, nat>, n: nat)
    requires LinkedOk(dag, linked, at) && LoopsSupported(dag, linked, at) && Later(linked, at)
    requires n <= |dag| == |linked| && forall i: nat :: i < |dag| ==> dag[i].name in at
    ensures WithLoops(dag, linked, at, n).Some? && MarkedUp(dag, linked, at, WithLoops(dag, linked, at, n).value, n)
  {
    hide LinkedOk, LoopsSupported, Later, WithLoops, Sized, Stage, MarkedUp;
    if n == 0 {
      LoopsStart(dag, linked, at);
      StartMarks(dag, linked, at);
    } else {
      LoopsMark(dag, linked, at, n - 1);
      LoopsSetUp(dag, linked, at, n - 1);
      LoopsNext(dag, linked, at, n - 1);
      LinkedPosition(dag, linked, at, n - 1);
      var jobs := WithLoops(dag, linked, at, n - 1).value;
      if dag[n - 1].nodeType.Foreach? {
        NextMarks(dag, linked, at, jobs, n - 1);
      } else {
        SkipMarks(dag, linked, at, jobs, n - 1);
      }
    }
  }

  lemma CompiledMarks(dag: seq<DagNode>, linked: seq<NodeJob>, at: map<string, nat>, jobs: seq<NodeJob>, i: nat)
    requires Compiled(dag, linked, at, jobs) && i < |dag|
    ensures |dag| == |linked| == |jobs| && MarkAt(dag, linked, at, jobs, |dag|, i)
  {
    hide LinkedOk, LoopsSupported, Later, WithLoops, Stage, SingleRoot, BackRefs, MarkAt;
    LoopsMark(dag, linked, at, |dag|);
  }

  // ----- in the plan

  /** A scheduler of the plan: its body, its variable, its rejoins. */
  lemma LoopInPlan(dag: seq<DagNode>, linked: seq<NodeJob>, at: map<string, nat>, jobs: seq<NodeJob>, r: string,
          event: Json, f: NodeId) returns (b: nat)
    requires Compiled(dag, linked, at, jobs)
    requires 0 < |jobs| == |dag| && Later(jobs, at) && Unfolding.IsLoop(PlanOf(dag, jobs, at, r, event), f)
    ensures f in at && at[f] < |dag| == |linked| && dag[at[f]].name == f && dag[at[f]].nodeType.Foreach? && b < |dag|
    ensures LoopShape(dag, linked, at, at[f], b)
    ensures var p := PlanOf(dag, jobs, at, r, event);
            && Unfolding.BodyId(p, f) == StrField(linked[at[f]].def.config, "body")
            && Unfolding.RejoinIds(p, f) == linked[b].dependents
            && p.jobs[f].loop.value.bodyAs == LoopVar(linked[at[f]].def.config)
  {
    hide Compiled, Tree, LinkedOk, Later, Positions, HeadOf, LoopVar, StrField, LoopShape, PlanOf;
    CompiledSize(dag, linked, at, jobs);
    PlanKeys(dag, linked, at, jobs, r, event);
    PlanAt(dag, linked, at, jobs, r, event, f);
    TreeParts(dag, linked, at, jobs, r, at[f]);
    b := SchedulerTree(dag, linked, at, jobs, r, at[f]);
    BodyField(dag, linked, at, at[f], b);
    TreeEdges(dag, linked, at, jobs, r, b);
    CompiledMarks(dag, linked, at, jobs, at[f]);
    TreeVar(jobs, at, r, at[f]);
  }

  lemma BodyField(dag: seq<DagNode>, linked: seq<NodeJob>, at: map<string, nat>, f: nat, b: nat)
    requires LoopShape(dag, linked, at, f, b)
    ensures |dag| == |linked| && StrField(linked[f].def.config, "body") == dag[b].name && !dag[b].nodeType.Foreach?
  {
  }

  /** Nesting keeps a scheduler's loop variable. */
  lemma TreeVar(jobs: seq<NodeJob>, at: map<string, nat>, r: string, f: nat)
    requires Later(jobs, at) && f < |jobs| && jobs[f].loop.Some?
    ensures Tree(jobs, at, r, f).loop.Some? && Tree(jobs, at, r, f).loop.value.bodyAs == jobs[f].loop.value.bodyAs
  {
    hide Later, Nested, WithRun;
    NestedIs(jobs, at, f);
    TreeIsRun(jobs, at, r, f);
  }

  /**
   In the plan of a compiled Wafer a rejoin collects its own scheduler's body, under that scheduler's variable and
   name; a node that is no rejoin collects nothing.
   */
  lemma PlanMarks(dag: seq<DagNode>, linked: seq<NodeJob>, at: map<string, nat>, jobs: seq<NodeJob>, r: string,
          event: Json, n: NodeId)
    requires Compiled(dag, linked, at, jobs) && n in at
    ensures 0 < |jobs| == |dag| && Later(jobs, at) && n in PlanOf(dag, jobs, at, r, event).jobs
    ensures var p := PlanOf(dag, jobs, at, r, event);
            && (forall f :: Unfolding.IsLoop(p, f) && n in Unfolding.RejoinIds(p, f) ==>
                  p.jobs[n].collect == Some(Collect(Unfolding.BodyId(p, f), p.jobs[f].loop.value.bodyAs, 0, f)))
            && ((forall f :: Unfolding.IsLoop(p, f) ==> n !in Unfolding.RejoinIds(p, f)) ==> p.jobs[n].collect.None?)
  {
    hide Compiled, Tree, LinkedOk, Later, Positions, HeadOf, LoopVar, StrField, LoopShape, PlanOf, Joins, MarkAt;
    CompiledSize(dag, linked, at, jobs);
    PlanAt(dag, linked, at, jobs, r, event, n);
    var i := at[n];
    TreeParts(dag, linked, at, jobs, r, i);
    CompiledMarks(dag, linked, at, jobs, i);
    var p := PlanOf(dag, jobs, at, r, event);
    forall f | Unfolding.IsLoop(p, f)
      ensures f in at && at[f] < |dag| && (n in Unfolding.RejoinIds(p, f) <==> Joins(dag, linked, at, at[f], i))
      ensures MarkOf(dag, linked, at[f]) == Collect(Unfolding.BodyId(p, f), p.jobs[f].loop.value.bodyAs, 0, f)
    {
      var b := LoopInPlan(dag, linked, at, jobs, r, event, f);
      JoinsIff(dag, linked, at, at[f], b, i);
    }
    MarkIs(dag, linked, at, jobs, i);
    if jobs[i].collect.Some? && !(exists f: nat :: f < |dag| && Joins(dag, linked, at, f, i)) {
      UnmarkedIs(dag, linked, at, jobs, i);
    } else if f: nat :| f < |dag| && Joins(dag, linked, at, f, i) {
      SchedulerInPlan(dag, linked, at, jobs, r, event, f, i);
    }
  }

  lemma MarkIs(dag: seq<DagNode>, linked: seq<NodeJob>, at: map<string, nat>, jobs: seq<NodeJob>, i: nat)
    requires i < |dag| == |linked| == |jobs| && MarkAt(dag, linked, at, jobs, |dag|, i)
    ensures forall f: nat {:trigger Joins(dag, linked, at, f, i)} :: f < |dag| && Joins(dag, linked, at, f, i) ==>
              jobs[i].collect == Some(MarkOf(dag, linked, f))
  {
    hide Joins, LoopVar, StrField;
  }

  lemma UnmarkedIs(dag: seq<DagNode>, linked: seq<NodeJob>, at: map<string, nat>, jobs: seq<NodeJob>, i: nat)
    requires i < |dag| == |linked| == |jobs| && MarkAt(dag, linked, at, jobs, |dag|, i)
    requires !(exists f: nat :: f < |dag| && Joins(dag, linked, at, f, i))
    ensures jobs[i].collect.None?
  {
    hide Joins, LoopVar, StrField;
  }

  /** The scheduler of a rejoin is one of the plan's. */
  lemma SchedulerInPlan(dag: seq<DagNode>, linked: seq<NodeJob>, at: map<string, nat>, jobs: seq<NodeJob>, r: string,
          event: Json, f: nat, i: nat)
    requires Compiled(dag, linked, at, jobs) && Joins(dag, linked, at, f, i)
    ensures 0 < |jobs| == |dag| && Later(jobs, at)
    ensures Unfolding.IsLoop(PlanOf(dag, jobs, at, r, event), dag[f].name)
    ensures dag[f].name in at && at[dag[f].name] == f
  {
    hide Compiled, Tree, LinkedOk, Later, Positions, HeadOf, LoopVar, StrField, LoopShape, PlanOf;
    CompiledSize(dag, linked, at, jobs);
    LinkedPosition(dag, linked, at, f);
    PlanAt(dag, linked, at, jobs, r, event, dag[f].name);
    TreeParts(dag, linked, at, jobs, r, f);
    var b := SchedulerTree(dag, linked, at, jobs, r, f);
  }
}
