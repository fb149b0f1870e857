/** A compiled Wafer is a plan the engine runs correctly, and starting it establishes the run invariant. */
module Launches {
  import opened Values
  import opened Jobs
  import opened Runs
  import opened Plans
  import opened Wafers
  import opened Dags
  import opened Compilation
  import opened Runners
  import opened ForeachRuns

  // ----- schedulers the engine supports

  /**
   The scheduler at `f` with body `b`: the body depends only on the scheduler and is its only dependent,
   each rejoin depends only on the body and has no dependents, and no node is named like an iteration.
   */
  ghost predicate LoopShape(dag: seq<DagNode>, linked: seq<NodeJob>, at: map<string, nat>, f: nat, b: nat) {
    && f < |dag| == |linked| && b < |dag|
    && StrField(linked[f].def.config, "body") == dag[b].name
    && dag[b].dependsOn == [dag[f].name]
    && !dag[b].nodeType.Foreach?
    && linked[f].dependents == [dag[b].name]
    && (forall m: nat {:trigger DependsAt(dag, at, m, b)} :: m < |dag| && DependsAt(dag, at, m, b) ==>
          dag[m].dependsOn == [dag[b].name] && linked[m].dependents == [])
    && (forall k: nat :: IterId(dag[b].name, k) !in at)
  }

  ghost predicate HasShape(dag: seq<DagNode>, linked: seq<NodeJob>, at: map<string, nat>, f: nat) {
    exists b: nat :: LoopShape(dag, linked, at, f, b)
  }

  /** Every scheduler has the supported shape. */
  ghost predicate LoopsSupported(dag: seq<DagNode>, linked: seq<NodeJob>, at: map<string, nat>) {
    forall f: nat {:trigger HasShape(dag, linked, at, f)} :: f < |dag| && dag[f].nodeType.Foreach? ==> HasShape(dag, linked, at, f)
  }

  function Collecting(job: NodeJob, body: string, asVar: string, name: string): NodeJob {
    job.(collect := Some(Collect(body, asVar, 0, name)))
  }

  /** The rejoins are other jobs than the scheduler's, each at its own position. */
  ghost predicate Apart(jobs: seq<NodeJob>, at: map<string, nat>, f: nat, rejoins: seq<string>) {
    && f < |jobs|
    && (forall x :: x in rejoins ==> x in at && at[x] < |jobs|)
    && (forall k :: 0 <= k < |rejoins| ==> at[rejoins[k]] != f)
    && (forall k, l :: 0 <= k < l < |rejoins| ==> at[rejoins[k]] != at[rejoins[l]])
  }

  /** The marked copies of the first `m` rejoins. */
  function Copies(jobs: seq<NodeJob>, at: map<string, nat>, f: nat, body: string, rejoins: seq<string>,
          m: nat): (r: seq<NodeJob>)
    requires f < |jobs| && m <= |rejoins| && forall x :: x in rejoins ==> x in at && at[x] < |jobs|
    ensures |r| == m
    ensures forall k :: 0 <= k < m ==> r[k] == Collecting(jobs[at[rejoins[k]]], body, LoopVar(jobs[f].def.config), jobs[f].nodeId)
  {
    seq(m, k requires 0 <= k < m => Collecting(jobs[at[rejoins[k]]], body, LoopVar(jobs[f].def.config), jobs[f].nodeId))
  }

  lemma CopiesNext(jobs: seq<NodeJob>, at: map<string, nat>, f: nat, body: string, rejoins: seq<string>, m: nat)
    requires f < |jobs| && m < |rejoins| && forall x :: x in rejoins ==> x in at && at[x] < |jobs|
    ensures Copies(jobs, at, f, body, rejoins, m + 1) ==
            Copies(jobs, at, f, body, rejoins, m) + [Collecting(jobs[at[rejoins[m]]], body, LoopVar(jobs[f].def.config), jobs[f].nodeId)]
  {
  }

  /** The job at `i` once the first `m` rejoins were marked and copied. */
  function Rejoined(jobs: seq<NodeJob>, at: map<string, nat>, f: nat, body: string, rejoins: seq<string>, m: nat,
          i: nat): NodeJob
    requires f < |jobs| && i < |jobs| && m <= |rejoins| && forall x :: x in rejoins ==> x in at && at[x] < |jobs|
  {
    if i == f then jobs[f].(downstream := Copies(jobs, at, f, body, rejoins, m))
    else if IsRejoin(at, rejoins, m, i) then Collecting(jobs[i], body, LoopVar(jobs[f].def.config), jobs[f].nodeId)
    else jobs[i]
  }

  lemma NewRejoin(jobs: seq<NodeJob>, at: map<string, nat>, f: nat, rejoins: seq<string>, m: nat)
    requires Apart(jobs, at, f, rejoins) && m < |rejoins|
    ensures at[rejoins[m]] != f && !IsRejoin(at, rejoins, m, at[rejoins[m]])
  {
  }

  /** What marking and copying the first `m` rejoins does. */
  lemma {:induction false} RejoinsAre(jobs: seq<NodeJob>, at: map<string, nat>, f: nat, body: string,
          rejoins: seq<string>, m: nat)
    requires Apart(jobs, at, f, rejoins) && m <= |rejoins| && jobs[f].downstream == []
    ensures forall i: nat :: i < |jobs| ==> WithRejoins(jobs, at, f, body, rejoins, m)[i] == Rejoined(jobs, at, f, body, rejoins, m, i)
  {
    if m > 0 {
      RejoinsAre(jobs, at, f, body, rejoins, m - 1);
      NewRejoin(jobs, at, f, rejoins, m - 1);
      CopiesNext(jobs, at, f, body, rejoins, m - 1);
      hide Copies, IsRejoin, Collecting, LoopVar;
      var x := at[rejoins[m - 1]];
      var before := WithRejoins(jobs, at, f, body, rejoins, m - 1);
      assert before[x] == jobs[x] && before[f] == Rejoined(jobs, at, f, body, rejoins, m - 1, f);
      CollectingIs(jobs[x], body, LoopVar(jobs[f].def.config), jobs[f].nodeId);
      IsRejoinNext(at, rejoins, m - 1);
    } else {
      assert Copies(jobs, at, f, body, rejoins, 0) == [];
    }
  }

  lemma CollectingIs(job: NodeJob, body: string, asVar: string, name: string)
    ensures Collecting(job, body, asVar, name) == job.(collect := Some(Collect(body, asVar, 0, name)))
  {
  }

  // ----- setting up every scheduler

  ghost predicate LinkedAt(dag: seq<DagNode>, linked: seq<NodeJob>, at: map<string, nat>, i: nat)
    requires i < |dag| == |linked|
  {
    && linked[i].nodeId == dag[i].name && linked[i].def.nodeType == dag[i].nodeType
    && !linked[i].skip && linked[i].loop.None? && linked[i].downstream == [] && linked[i].collect.None?
    && linked[i].dependents == DependentsOf(dag, at, |dag|, i)
  }

  /** Linked jobs over distinct identifiers. */
  ghost predicate LinkedOk(dag: seq<DagNode>, linked: seq<NodeJob>, at: map<string, nat>) {
    && NamesDistinct(dag) && at == Positions(dag, |dag|) && |linked| == |dag|
    && forall i: nat {:trigger LinkedAt(dag, linked, at, i)} :: i < |dag| ==> LinkedAt(dag, linked, at, i)
  }

  /** A job that is no scheduler keeps all but its collect marker. */
  predicate Untouched(linked: seq<NodeJob>, jobs: seq<NodeJob>, i: nat)
    requires i < |linked| == |jobs|
  {
    jobs[i] == linked[i].(collect := jobs[i].collect)
  }

  /** A scheduler that was set up: no dependents, its body's template and rejoins, and copies of the rejoins. */
  predicate SetUp(linked: seq<NodeJob>, at: map<string, nat>, jobs: seq<NodeJob>, f: nat, b: nat)
    requires f < |linked| == |jobs| && b < |linked|
  {
    && jobs[f] == linked[f].(dependents := [], loop := jobs[f].loop, downstream := jobs[f].downstream, collect := jobs[f].collect)
    && jobs[f].loop.Some?
    && var l := jobs[f].loop.value;
    && l.body.nodeId == linked[b].nodeId && l.body.def == linked[b].def && !l.body.skip
    && l.rejoins == linked[b].dependents
    && |jobs[f].downstream| == |l.rejoins|
    && forall k :: 0 <= k < |l.rejoins| ==> l.rejoins[k] in at && at[l.rejoins[k]] < |jobs| && jobs[f].downstream[k] == jobs[at[l.rejoins[k]]]
  }

  ghost predicate SetUpSome(dag: seq<DagNode>, linked: seq<NodeJob>, at: map<string, nat>, jobs: seq<NodeJob>, f: nat)
    requires f < |linked| == |jobs| == |dag|
  {
    exists b: nat :: b < |dag| && LoopShape(dag, linked, at, f, b) && SetUp(linked, at, jobs, f, b)
  }

  /** The jobs once the schedulers among the first `n` nodes are set up. */
  ghost predicate Stage(dag: seq<DagNode>, linked: seq<NodeJob>, at: map<string, nat>, jobs: seq<NodeJob>, n: nat) {
    && |jobs| == |linked| == |dag|
    && (forall i: nat {:trigger SetUpSome(dag, linked, at, jobs, i)} :: i < |dag| && i < n && dag[i].nodeType.Foreach? ==> SetUpSome(dag, linked, at, jobs, i))
    && (forall i: nat {:trigger Untouched(linked, jobs, i)} :: i < |dag| && !(i < n && dag[i].nodeType.Foreach?) ==> Untouched(linked, jobs, i))
  }

  lemma DependentsDistinct(dag: seq<DagNode>, at: map<string, nat>, n: nat, j: nat)
    requires NamesDistinct(dag) && n <= |dag| && j < |dag|
    ensures Distinct(DependentsOf(dag, at, n, j))
  {
    if n > 0 {
      DependentsDistinct(dag, at, n - 1, j);
      DependentsAre(dag, at, n - 1, j);
      hide DependsAt;
      var before := DependentsOf(dag, at, n - 1, j);
      assert forall i: nat :: i < n - 1 ==> dag[i].name != dag[n - 1].name;
      assert dag[n - 1].name !in before;
      assert forall k :: 0 <= k < |before| ==> before[k] in before;
    }
  }

  /** What is known of a rejoin of the scheduler at `f`. */
  lemma RejoinIs(dag: seq<DagNode>, linked: seq<NodeJob>, at: map<string, nat>, f: nat, b: nat, x: string)
    requires LinkedOk(dag, linked, at) && LoopShape(dag, linked, at, f, b) && x in linked[b].dependents
    ensures x in at && at[x] < |dag| && dag[at[x]].name == x
    ensures dag[at[x]].dependsOn == [dag[b].name] && linked[at[x]].dependents == [] && at[x] != f
  {
    assert LinkedAt(dag, linked, at, b);
    DependentsAre(dag, at, |dag|, b);
    hide Positions, DependentsOf, DependsAt;
    var i: nat :| i < |dag| && DependsAt(dag, at, i, b) && dag[i].name == x;
    PositionIs(dag, i);
  }

  lemma RejoinsApart(dag: seq<DagNode>, linked: seq<NodeJob>, at: map<string, nat>, f: nat, b: nat, jobs: seq<NodeJob>)
    requires LinkedOk(dag, linked, at) && LoopShape(dag, linked, at, f, b) && |jobs| == |dag|
    ensures Apart(jobs, at, f, linked[b].dependents)
  {
    var rejoins := linked[b].dependents;
    assert LinkedAt(dag, linked, at, b);
    DependentsDistinct(dag, at, |dag|, b);
    forall x | x in rejoins
      ensures x in at && at[x] < |jobs| && at[x] != f && dag[at[x]].name == x
    {
      RejoinIs(dag, linked, at, f, b, x);
    }
    hide LinkedOk, LoopShape, LinkedAt;
    forall k, l | 0 <= k < l < |rejoins|
      ensures at[rejoins[k]] != at[rejoins[l]]
    {
      assert dag[at[rejoins[k]]].name == rejoins[k] != rejoins[l] == dag[at[rejoins[l]]].name;
    }
  }

  lemma BodyPlace(dag: seq<DagNode>, linked: seq<NodeJob>, at: map<string, nat>, f: nat, b: nat)
    requires LinkedOk(dag, linked, at) && LoopShape(dag, linked, at, f, b) && dag[f].nodeType.Foreach?
    ensures b != f && dag[b].name in at && at[dag[b].name] == b && !dag[b].nodeType.Foreach?
  {
    PositionIs(dag, b);
  }

  /** Setting up one supported scheduler, job by job. */
  lemma LoopSets(dag: seq<DagNode>, linked: seq<NodeJob>, at: map<string, nat>, jobs: seq<NodeJob>, f: nat, b: nat)
    requires LinkedOk(dag, linked, at) && LoopShape(dag, linked, at, f, b) && dag[f].nodeType.Foreach?
    requires |jobs| == |dag| && Sized(jobs, at) && Untouched(linked, jobs, f) && Untouched(linked, jobs, b)
    ensures WithLoop(jobs, at, f).Some?
    ensures var r := WithLoop(jobs, at, f).value; var rejoins := linked[b].dependents; var v := LoopVar(linked[f].def.config);
            && Apart(jobs, at, f, rejoins) && |r| == |jobs|
            && (forall i: nat :: i < |jobs| && i != f ==>
                  r[i] == if IsRejoin(at, rejoins, |rejoins|, i) then Collecting(jobs[i], dag[b].name, v, dag[f].name) else jobs[i])
            && r[f] == jobs[f].(dependents := [], loop := Some(Loop(jobs[b], v, rejoins)), downstream := r[f].downstream)
            && |r[f].downstream| == |rejoins|
            && (forall k :: 0 <= k < |rejoins| ==> r[f].downstream[k] == Collecting(jobs[at[rejoins[k]]], dag[b].name, v, dag[f].name))
  {
    BodyPlace(dag, linked, at, f, b);
    assert LinkedAt(dag, linked, at, f) && LinkedAt(dag, linked, at, b);
    var bare := jobs[f := jobs[f].(dependents := RemoveStr(jobs[f].dependents, dag[b].name))];
    RemoveOnly(dag[b].name);
    var rejoins := linked[b].dependents;
    var looped := bare[f := bare[f].(loop := Some(Loop(jobs[b], LoopVar(linked[f].def.config), rejoins)))];
    RejoinsApart(dag, linked, at, f, b, looped);
    RejoinsApart(dag, linked, at, f, b, jobs);
    hide LinkedOk, LoopShape, LinkedAt, IsRejoin, Collecting, LoopVar, Sized;
    RejoinsAre(looped, at, f, dag[b].name, rejoins, |rejoins|);
  }

  lemma RemoveOnly(s: string)
    ensures RemoveStr([s], s) == []
  {
    assert [s][..0] == [];
  }

  /** A rejoin is no scheduler. */
  lemma RejoinIsPlain(dag: seq<DagNode>, linked: seq<NodeJob>, at: map<string, nat>, f: nat, b: nat, x: string)
    requires LinkedOk(dag, linked, at) && LoopsSupported(dag, linked, at) && LoopShape(dag, linked, at, f, b) && x in linked[b].dependents
    ensures x in at && at[x] < |dag| && !dag[at[x]].nodeType.Foreach?
  {
    RejoinIs(dag, linked, at, f, b, x);
    hide LinkedOk, LoopsSupported;
    if dag[at[x]].nodeType.Foreach? {
      SchedulerHasBody(dag, linked, at, at[x]);
    }
  }

  lemma SchedulerHasBody(dag: seq<DagNode>, linked: seq<NodeJob>, at: map<string, nat>, f: nat)
    requires LoopsSupported(dag, linked, at) && f < |dag| == |linked| && dag[f].nodeType.Foreach?
    ensures |linked[f].dependents| == 1
  {
    assert HasShape(dag, linked, at, f);
  }

  /** Rejoins of different schedulers are different nodes. */
  lemma RejoinsDiffer(dag: seq<DagNode>, linked: seq<NodeJob>, at: map<string, nat>, f: nat, b: nat, f2: nat, b2: nat,
          x: string)
    requires LinkedOk(dag, linked, at) && LoopShape(dag, linked, at, f, b) && LoopShape(dag, linked, at, f2, b2) && f != f2
    requires x in linked[b].dependents
    ensures x !in linked[b2].dependents
  {
    if x in linked[b2].dependents {
      RejoinIs(dag, linked, at, f, b, x);
      RejoinIs(dag, linked, at, f2, b2, x);
      SameName(dag, b, b2);
    }
  }

  lemma SameName(dag: seq<DagNode>, i: nat, j: nat)
    requires NamesDistinct(dag) && i < |dag| && j < |dag| && dag[i].name == dag[j].name
    ensures i == j
  {
  }

  /** The job lists before and after setting up the scheduler at `f`. */
  ghost predicate LoopStep(dag: seq<DagNode>, linked: seq<NodeJob>, at: map<string, nat>, jobs: seq<NodeJob>,
          r: seq<NodeJob>, f: nat, b: nat) {
    && |jobs| == |r| == |dag| == |linked| && b < |dag|
    && LinkedOk(dag, linked, at) && LoopsSupported(dag, linked, at) && LoopShape(dag, linked, at, f, b) && dag[f].nodeType.Foreach?
    && var rejoins := linked[b].dependents; var v := LoopVar(linked[f].def.config);
    && Apart(jobs, at, f, rejoins)
    && (forall i: nat :: i < |jobs| && i != f ==>
          r[i] == if IsRejoin(at, rejoins, |rejoins|, i) then Collecting(jobs[i], dag[b].name, v, dag[f].name) else jobs[i])
    && r[f] == jobs[f].(dependents := [], loop := Some(Loop(jobs[b], v, rejoins)), downstream := r[f].downstream)
    && |r[f].downstream| == |rejoins|
    && (forall k :: 0 <= k < |rejoins| ==> r[f].downstream[k] == Collecting(jobs[at[rejoins[k]]], dag[b].name, v, dag[f].name))
  }

  lemma StepSetsUp(dag: seq<DagNode>, linked: seq<NodeJob>, at: map<string, nat>, jobs: seq<NodeJob>, r: seq<NodeJob>,
          f: nat, b: nat)
    requires LoopStep(dag, linked, at, jobs, r, f, b) && Untouched(linked, jobs, f) && Untouched(linked, jobs, b)
    ensures SetUp(linked, at, r, f, b)
  {
    hide LoopShape, LoopsSupported, LoopVar, Positions;
    assert LinkedAt(dag, linked, at, b) && LinkedAt(dag, linked, at, f);
    var rejoins := linked[b].dependents;
    forall k | 0 <= k < |rejoins|
      ensures r[f].downstream[k] == r[at[rejoins[k]]]
    {
      assert IsRejoin(at, rejoins, |rejoins|, at[rejoins[k]]);
    }
  }

  /** A job that is no scheduler stays untouched. */
  lemma StepLeaves(dag: seq<DagNode>, linked: seq<NodeJob>, at: map<string, nat>, jobs: seq<NodeJob>, r: seq<NodeJob>,
          f: nat, b: nat, i: nat)
    requires LoopStep(dag, linked, at, jobs, r, f, b) && i < |dag| && i != f && Untouched(linked, jobs, i)
    ensures Untouched(linked, r, i)
  {
    hide LoopShape, LoopsSupported, LoopVar, LinkedOk, IsRejoin, Apart;
  }

  /** A rejoin of the scheduler at `f` is the node at `i`. */
  lemma RejoinAt(at: map<string, nat>, rejoins: seq<string>, i: nat) returns (x: string)
    requires (forall y :: y in rejoins ==> y in at) && IsRejoin(at, rejoins, |rejoins|, i)
    ensures x in rejoins && at[x] == i
  {
    var k :| 0 <= k < |rejoins| && at[rejoins[k]] == i;
    x := rejoins[k];
  }

  /** A scheduler set up before stays so: neither it nor its rejoins are touched. */
  lemma StepKeepsSetUp(dag: seq<DagNode>, linked: seq<NodeJob>, at: map<string, nat>, jobs: seq<NodeJob>,
          r: seq<NodeJob>, f: nat, b: nat, f2: nat, b2: nat)
    requires LoopStep(dag, linked, at, jobs, r, f, b) && f2 < |dag| && f2 != f && b2 < |dag|
    requires dag[f2].nodeType.Foreach? && LoopShape(dag, linked, at, f2, b2) && SetUp(linked, at, jobs, f2, b2)
    ensures SetUp(linked, at, r, f2, b2)
  {
    var rejoins, others := linked[b].dependents, linked[b2].dependents;
    if IsRejoin(at, rejoins, |rejoins|, f2) {
      var x := RejoinAt(at, rejoins, f2);
      RejoinIsPlain(dag, linked, at, f, b, x);
    }
    assert r[f2] == jobs[f2];
    forall k | 0 <= k < |others|
      ensures others[k] in at && at[others[k]] < |dag| && r[at[others[k]]] == jobs[at[others[k]]]
    {
      OtherRejoin(dag, linked, at, jobs, r, f, b, f2, b2, others[k]);
    }
  }

  lemma OtherRejoin(dag: seq<DagNode>, linked: seq<NodeJob>, at: map<string, nat>, jobs: seq<NodeJob>,
          r: seq<NodeJob>, f: nat, b: nat, f2: nat, b2: nat, y: string)
    requires LoopStep(dag, linked, at, jobs, r, f, b) && f2 != f && b2 < |dag| && LoopShape(dag, linked, at, f2, b2) && y in linked[b2].dependents
    ensures y in at && at[y] < |dag| && r[at[y]] == jobs[at[y]]
  {
    var rejoins := linked[b].dependents;
    RejoinIs(dag, linked, at, f2, b2, y);
    RejoinIsPlain(dag, linked, at, f2, b2, y);
    hide LoopShape, LoopsSupported, LinkedOk, LoopVar;
    if IsRejoin(at, rejoins, |rejoins|, at[y]) {
      var x := RejoinAt(at, rejoins, at[y]);
      RejoinIs(dag, linked, at, f, b, x);
      RejoinsDiffer(dag, linked, at, f2, b2, f, b, y);
    }
  }

  lemma StageStep(dag: seq<DagNode>, linked: seq<NodeJob>, at: map<string, nat>, jobs: seq<NodeJob>, n: nat)
    requires LinkedOk(dag, linked, at) && LoopsSupported(dag, linked, at) && Stage(dag, linked, at, jobs, n)
    requires n < |dag| && dag[n].nodeType.Foreach? && Sized(jobs, at)
    ensures WithLoop(jobs, at, n).Some? && Stage(dag, linked, at, WithLoop(jobs, at, n).value, n + 1)
  {
    hide LinkedOk, Sized, SetUp, WithLoop, LoopsSupported, LoopVar;
    var b := ShapeOf(dag, linked, at, n);
    assert Untouched(linked, jobs, n);
    hide LoopShape;
    assert Untouched(linked, jobs, b);
    LoopSets(dag, linked, at, jobs, n, b);
    var r := WithLoop(jobs, at, n).value;
    assert LoopStep(dag, linked, at, jobs, r, n, b);
    hide LoopStep, IsRejoin, Collecting, Apart;
    StepSetsUp(dag, linked, at, jobs, r, n, b);
    forall i: nat | i < |dag| && i < n + 1 && dag[i].nodeType.Foreach?
      ensures SetUpSome(dag, linked, at, r, i)
    {
      if i < n {
        assert SetUpSome(dag, linked, at, jobs, i);
        var b2: nat :| b2 < |dag| && LoopShape(dag, linked, at, i, b2) && SetUp(linked, at, jobs, i, b2);
        StepKeepsSetUp(dag, linked, at, jobs, r, n, b, i, b2);
      }
    }
    forall i: nat | i < |dag| && !(i < n + 1 && dag[i].nodeType.Foreach?)
      ensures Untouched(linked, r, i)
    {
      assert i != n && Untouched(linked, jobs, i);
      StepLeaves(dag, linked, at, jobs, r, n, b, i);
    }
  }

  lemma ShapeOf(dag: seq<DagNode>, linked: seq<NodeJob>, at: map<string, nat>, f: nat) returns (b: nat)
    requires LoopsSupported(dag, linked, at) && f < |dag| == |linked| && dag[f].nodeType.Foreach?
    ensures LoopShape(dag, linked, at, f, b) && b < |dag| && !dag[b].nodeType.Foreach?
  {
    assert HasShape(dag, linked, at, f);
    b :| LoopShape(dag, linked, at, f, b);
  }

  /** Every supported scheduler gets set up. */
  lemma {:induction false} LoopsSetUp(dag: seq<DagNode>, linked: seq<NodeJob>, at: map<string, nat>, n: nat)
    requires LinkedOk(dag, linked, at) && LoopsSupported(dag, linked, at) && Later(linked, at)
    requires n <= |dag| == |linked| && forall i: nat :: i < |dag| ==> dag[i].name in at
    ensures WithLoops(dag, linked, at, n).Some? && Stage(dag, linked, at, WithLoops(dag, linked, at, n).value, n)
  {
    hide LinkedOk, LoopsSupported, Later, WithLoops, Sized, Stage;
    if n == 0 {
      LoopsStart(dag, linked, at);
      StageStart(dag, linked, at);
    } else {
      LoopsSetUp(dag, linked, at, n - 1);
      LoopsNext(dag, linked, at, n - 1);
      LinkedPosition(dag, linked, at, n - 1);
      var jobs := WithLoops(dag, linked, at, n - 1).value;
      if dag[n - 1].nodeType.Foreach? {
        StageStep(dag, linked, at, jobs, n - 1);
      } else {
        StageSkip(dag, linked, at, jobs, n - 1);
      }
    }
  }

  lemma LinkedPosition(dag: seq<DagNode>, linked: seq<NodeJob>, at: map<string, nat>, i: nat)
    requires LinkedOk(dag, linked, at) && i < |dag|
    ensures |linked| == |dag| && dag[i].name in at && at[dag[i].name] == i
  {
    PositionIs(dag, i);
  }

  lemma StageStart(dag: seq<DagNode>, linked: seq<NodeJob>, at: map<string, nat>)
    requires |linked| == |dag|
    ensures Stage(dag, linked, at, linked, 0)
  {
  }

  lemma StageSkip(dag: seq<DagNode>, linked: seq<NodeJob>, at: map<string, nat>, jobs: seq<NodeJob>, n: nat)
    requires Stage(dag, linked, at, jobs, n) && n < |dag| && !dag[n].nodeType.Foreach?
    ensures Stage(dag, linked, at, jobs, n + 1)
  {
    hide SetUpSome, Untouched;
  }

  // ----- the plan of a compiled Wafer

  /** A job and every job nested in it, given a run id. */
  function WithRun(job: NodeJob, r: string): NodeJob {
    job.(runId := r, downstream := seq(|job.downstream|, i requires 0 <= i < |job.downstream| => WithRun(job.downstream[i], r)))
  }

  /** The complete tree of the node at `i`, in the run `r`. */
  ghost function Tree(jobs: seq<NodeJob>, at: map<string, nat>, r: string, i: nat): NodeJob
    requires Later(jobs, at) && i < |jobs|
  {
    WithRun(Nested(jobs, at, i), r)
  }

  /** The head as it is enqueued. */
  ghost function HeadOf(jobs: seq<NodeJob>, at: map<string, nat>, r: string, event: Json): NodeJob
    requires Later(jobs, at) && 0 < |jobs|
  {
    Tree(jobs, at, r, 0).(input := MakeInput(event, map[]))
  }

  function RefsOf(dag: seq<DagNode>, i: nat): set<string>
    requires i < |dag|
  {
    set d | d in dag[i].dependsOn
  }

  /** The plan that a compiled Wafer lays down for its run. */
  ghost function PlanOf(dag: seq<DagNode>, jobs: seq<NodeJob>, at: map<string, nat>, r: string, event: Json): Plan
    requires Later(jobs, at) && 0 < |jobs| == |dag|
  {
    Plan(Tabulate(at.Keys, n requires n in at => Tree(jobs, at, r, at[n])),
         Tabulate(at.Keys, n requires n in at => RefsOf(dag, at[n])),
         map[HeadOf(jobs, at, r, event).nodeId := HeadOf(jobs, at, r, event)],
         at)
  }

  /** A run order in which the first node is the only root. */
  ghost predicate SingleRoot(dag: seq<DagNode>) {
    forall i: nat {:trigger dag[i]} :: i < |dag| ==> (dag[i].dependsOn == [] <==> i == 0)
  }

  /** `jobs` is what setting up every scheduler makes of the linked jobs. */
  ghost predicate LoopsMade(dag: seq<DagNode>, linked: seq<NodeJob>, at: map<string, nat>, jobs: seq<NodeJob>) {
    && |dag| == |linked| && Later(linked, at) && (forall i: nat :: i < |dag| ==> dag[i].name in at)
    && WithLoops(dag, linked, at, |dag|) == Some(jobs)
  }

  /** A compiled Wafer: linked jobs with every scheduler set up, over a run order with one root. */
  ghost predicate Compiled(dag: seq<DagNode>, linked: seq<NodeJob>, at: map<string, nat>, jobs: seq<NodeJob>) {
    && 0 < |dag| == |linked| == |jobs|
    && LinkedOk(dag, linked, at) && LoopsSupported(dag, linked, at) && Later(linked, at) && Later(jobs, at)
    && Stage(dag, linked, at, jobs, |dag|) && LoopsMade(dag, linked, at, jobs)
    && SingleRoot(dag) && BackRefs(dag)
  }

  /** Every reference names an earlier node, once. */
  ghost predicate BackRefs(dag: seq<DagNode>) {
    && (forall i: nat, d {:trigger d in dag[i].dependsOn} :: i < |dag| && d in dag[i].dependsOn ==> exists l: nat :: l < i && dag[l].name == d)
    && (forall i: nat {:trigger dag[i].dependsOn} :: i < |dag| ==> Distinct(dag[i].dependsOn))
  }

  /** What linking and setting up decided of a job. */
  lemma JobParts(dag: seq<DagNode>, linked: seq<NodeJob>, at: map<string, nat>, jobs: seq<NodeJob>, i: nat)
    requires Compiled(dag, linked, at, jobs) && i < |dag|
    ensures jobs[i].nodeId == dag[i].name && jobs[i].def == linked[i].def && jobs[i].def.nodeType == dag[i].nodeType && !jobs[i].skip
    ensures dag[i].nodeType.Foreach? ==> jobs[i].dependents == []
    ensures !dag[i].nodeType.Foreach? ==> jobs[i].dependents == linked[i].dependents && jobs[i].downstream == [] && jobs[i].loop.None?
  {
    hide LoopsSupported, Later, SingleRoot, BackRefs, NamesDistinct, LoopsMade;
    assert LinkedAt(dag, linked, at, i);
    if dag[i].nodeType.Foreach? {
      assert SetUpSome(dag, linked, at, jobs, i);
    } else {
      assert Untouched(linked, jobs, i);
    }
  }

  lemma CompiledSize(dag: seq<DagNode>, linked: seq<NodeJob>, at: map<string, nat>, jobs: seq<NodeJob>)
    requires Compiled(dag, linked, at, jobs)
    ensures 0 < |dag| == |linked| == |jobs| && Later(jobs, at) && LinkedOk(dag, linked, at)
  {
    hide LoopsSupported, Later, SingleRoot, BackRefs, LinkedOk, Stage, LoopsMade;
  }

  lemma TreeParts(dag: seq<DagNode>, linked: seq<NodeJob>, at: map<string, nat>, jobs: seq<NodeJob>, r: string, i: nat)
    requires Compiled(dag, linked, at, jobs) && i < |dag|
    ensures var t := Tree(jobs, at, r, i);
            && t.nodeId == dag[i].name && t.def == linked[i].def && t.def.nodeType == dag[i].nodeType && !t.skip && t.runId == r
            && t.dependents == jobs[i].dependents && t.collect == jobs[i].collect
  {
    CompiledSize(dag, linked, at, jobs);
    JobParts(dag, linked, at, jobs, i);
    NestedIs(jobs, at, i);
    hide Compiled, Nested, Later;
  }

  /** A node that is no scheduler leads to its dependents' complete trees, index by index. */
  lemma TreeEdges(dag: seq<DagNode>, linked: seq<NodeJob>, at: map<string, nat>, jobs: seq<NodeJob>, r: string, i: nat)
    requires Compiled(dag, linked, at, jobs) && i < |dag| && !dag[i].nodeType.Foreach?
    ensures var t := Tree(jobs, at, r, i); var ids := linked[i].dependents;
            && t.dependents == ids && |t.downstream| == |ids|
            && (forall k :: 0 <= k < |ids| ==> ids[k] in at && at[ids[k]] < |jobs|)
            && (forall k :: 0 <= k < |ids| ==> t.downstream[k] == Tree(jobs, at, r, at[ids[k]]))
  {
    CompiledSize(dag, linked, at, jobs);
    JobParts(dag, linked, at, jobs, i);
    hide Compiled;
    TreeDown(jobs, at, r, i);
  }

  lemma DependentPlaced(jobs: seq<NodeJob>, at: map<string, nat>, i: nat, k: nat)
    requires Later(jobs, at) && i < |jobs| && k < |jobs[i].dependents|
    ensures jobs[i].dependents[k] in at && at[jobs[i].dependents[k]] < |jobs|
  {
    assert jobs[i].dependents[k] in jobs[i].dependents;
  }

  lemma NestedDown(jobs: seq<NodeJob>, at: map<string, nat>, i: nat, k: nat)
    requires Later(jobs, at) && i < |jobs| && jobs[i].downstream == [] && k < |jobs[i].dependents|
    ensures |Nested(jobs, at, i).downstream| == |jobs[i].dependents| && Nested(jobs, at, i).dependents == jobs[i].dependents
    ensures jobs[i].dependents[k] in at && at[jobs[i].dependents[k]] < |jobs|
    ensures Nested(jobs, at, i).downstream[k] == Nested(jobs, at, at[jobs[i].dependents[k]])
  {
    DependentPlaced(jobs, at, i, k);
    NestedIs(jobs, at, i);
    NestedAllAt(jobs, at, i, |jobs[i].dependents|, k);
    hide Nested, NestedAll, Later;
    assert [] + NestedAll(jobs, at, i, |jobs[i].dependents|) == NestedAll(jobs, at, i, |jobs[i].dependents|);
  }

  lemma NestedSize(jobs: seq<NodeJob>, at: map<string, nat>, i: nat)
    requires Later(jobs, at) && i < |jobs| && jobs[i].downstream == []
    ensures |Nested(jobs, at, i).downstream| == |jobs[i].dependents| && Nested(jobs, at, i).dependents == jobs[i].dependents
  {
    NestedIs(jobs, at, i);
    hide Nested, NestedAll, Later;
  }

  lemma TreeDown(jobs: seq<NodeJob>, at: map<string, nat>, r: string, i: nat)
    requires Later(jobs, at) && i < |jobs| && jobs[i].downstream == []
    ensures var t := Tree(jobs, at, r, i); var ids := jobs[i].dependents;
            && t.dependents == ids && |t.downstream| == |ids|
            && (forall k :: 0 <= k < |ids| ==> ids[k] in at && at[ids[k]] < |jobs|)
            && (forall k :: 0 <= k < |ids| ==> t.downstream[k] == Tree(jobs, at, r, at[ids[k]]))
  {
    hide Nested, Later;
    TreeIsRun(jobs, at, r, i);
    NestedSize(jobs, at, i);
    hide WithRun;
    forall k | 0 <= k < |jobs[i].dependents|
      ensures jobs[i].dependents[k] in at && at[jobs[i].dependents[k]] < |jobs|
      ensures Nested(jobs, at, i).downstream[k] == Nested(jobs, at, at[jobs[i].dependents[k]])
    {
      NestedDown(jobs, at, i, k);
    }
  }

  /** A node without dependents: its tree carries just what it carried before nesting. */
  lemma TreeLeaf(jobs: seq<NodeJob>, at: map<string, nat>, i: nat)
    requires Later(jobs, at) && i < |jobs| && jobs[i].dependents == []
    ensures Nested(jobs, at, i).downstream == jobs[i].downstream
    ensures jobs[i].loop.None? ==> Nested(jobs, at, i) == jobs[i]
  {
    NestedIs(jobs, at, i);
    hide Nested;
    assert jobs[i].downstream + [] == jobs[i].downstream;
  }

  /** A scheduler leads to the same rejoin trees as its body does. */
  lemma SchedulerTree(dag: seq<DagNode>, linked: seq<NodeJob>, at: map<string, nat>, jobs: seq<NodeJob>, r: string,
          f: nat) returns (b: nat)
    requires Compiled(dag, linked, at, jobs) && f < |dag| && dag[f].nodeType.Foreach?
    ensures b < |dag| && LoopShape(dag, linked, at, f, b)
    ensures var t := Tree(jobs, at, r, f); var body := Tree(jobs, at, r, b);
            && t.dependents == [] && t.downstream == body.downstream
            && t.loop.Some? && t.loop.value.body.nodeId == dag[b].name && !t.loop.value.body.skip
            && t.loop.value.body.def == body.def && t.loop.value.rejoins == body.dependents
  {
    CompiledSize(dag, linked, at, jobs);
    b := SetUpBody(dag, linked, at, jobs, f);
    JobParts(dag, linked, at, jobs, f);
    JobParts(dag, linked, at, jobs, b);
    TreeLeaf(jobs, at, f);
    TreeParts(dag, linked, at, jobs, r, f);
    TreeEdges(dag, linked, at, jobs, r, b);
    TreeParts(dag, linked, at, jobs, r, b);
    var ids := linked[b].dependents;
    forall k | 0 <= k < |ids|
      ensures WithRun(jobs[f].downstream[k], r) == Tree(jobs, at, r, at[ids[k]])
    {
      RejoinLeaf(dag, linked, at, jobs, f, b, ids[k]);
    }
    BodyTemplate(dag, linked, at, jobs, f, b);
    hide Compiled, LoopShape, SetUp, Nested;
    TreeIsRun(jobs, at, r, f);
    assert Tree(jobs, at, r, f).downstream == Tree(jobs, at, r, b).downstream;
  }

  lemma TreeIsRun(jobs: seq<NodeJob>, at: map<string, nat>, r: string, f: nat)
    requires Later(jobs, at) && f < |jobs|
    ensures var t := Tree(jobs, at, r, f); var n := Nested(jobs, at, f);
            && t.loop == n.loop && t.dependents == n.dependents && |t.downstream| == |n.downstream|
            && forall k :: 0 <= k < |n.downstream| ==> t.downstream[k] == WithRun(n.downstream[k], r)
  {
    hide Nested;
  }

  lemma SetUpBody(dag: seq<DagNode>, linked: seq<NodeJob>, at: map<string, nat>, jobs: seq<NodeJob>, f: nat) returns (b: nat)
    requires Compiled(dag, linked, at, jobs) && f < |dag| && dag[f].nodeType.Foreach?
    ensures b < |dag| == |linked| == |jobs| && LoopShape(dag, linked, at, f, b) && SetUp(linked, at, jobs, f, b)
    ensures !dag[b].nodeType.Foreach? && dag[b].name in at && at[dag[b].name] == b
  {
    hide LoopsSupported, Later, SingleRoot, BackRefs, SetUp, LoopsMade;
    assert SetUpSome(dag, linked, at, jobs, f);
    b :| b < |dag| && LoopShape(dag, linked, at, f, b) && SetUp(linked, at, jobs, f, b);
    hide Stage;
    BodyPlace(dag, linked, at, f, b);
  }

  lemma RejoinLeaf(dag: seq<DagNode>, linked: seq<NodeJob>, at: map<string, nat>, jobs: seq<NodeJob>, f: nat, b: nat,
          x: string)
    requires Compiled(dag, linked, at, jobs) && f < |dag| && b < |dag| && LoopShape(dag, linked, at, f, b) && x in linked[b].dependents
    ensures x in at && at[x] < |jobs| && Nested(jobs, at, at[x]) == jobs[at[x]]
  {
    CompiledSize(dag, linked, at, jobs);
    RejoinIs(dag, linked, at, f, b, x);
    RejoinIsPlain(dag, linked, at, f, b, x);
    JobParts(dag, linked, at, jobs, at[x]);
    TreeLeaf(jobs, at, at[x]);
  }

  /** The body template a scheduler carries. */
  lemma BodyTemplate(dag: seq<DagNode>, linked: seq<NodeJob>, at: map<string, nat>, jobs: seq<NodeJob>, f: nat, b: nat)
    requires Compiled(dag, linked, at, jobs) && f < |dag| && b < |dag| && LoopShape(dag, linked, at, f, b) && SetUp(linked, at, jobs, f, b)
    requires dag[b].name in at && at[dag[b].name] == b
    ensures var l := Nested(jobs, at, f).loop;
            && l.Some? && l.value.body.nodeId == dag[b].name && !l.value.body.skip && l.value.body.def == linked[b].def
            && l.value.rejoins == linked[b].dependents
  {
    CompiledSize(dag, linked, at, jobs);
    assert LinkedAt(dag, linked, at, b);
    JobParts(dag, linked, at, jobs, b);
    NestedIs(jobs, at, f);
    NestedIs(jobs, at, b);
    hide Nested, Compiled, LoopShape, Later;
  }

  // ----- the plan is well formed

  /** What a plan holds for an identifier. */
  lemma PlanAt(dag: seq<DagNode>, linked: seq<NodeJob>, at: map<string, nat>, jobs: seq<NodeJob>, r: string,
          event: Json, n: string)
    requires Compiled(dag, linked, at, jobs) && n in at
    ensures at[n] < |dag| && dag[at[n]].name == n
    ensures var p := PlanOf(dag, jobs, at, r, event);
            n in p.jobs && p.jobs[n] == Tree(jobs, at, r, at[n]) && n in p.deps && p.deps[n] == RefsOf(dag, at[n])
            && n in p.rank && p.rank[n] == at[n]
  {
    CompiledSize(dag, linked, at, jobs);
    PositionNames(dag, |dag|, n);
    hide Compiled, Tree, HeadOf, RefsOf;
  }

  lemma PlanKeys(dag: seq<DagNode>, linked: seq<NodeJob>, at: map<string, nat>, jobs: seq<NodeJob>, r: string, event: Json)
    requires Compiled(dag, linked, at, jobs)
    ensures var p := PlanOf(dag, jobs, at, r, event);
            && p.jobs.Keys == at.Keys && p.deps.Keys == at.Keys
            && dag[0].name in at && at[dag[0].name] == 0
            && p.seeds == map[dag[0].name := HeadOf(jobs, at, r, event)]
            && HeadOf(jobs, at, r, event).nodeId == dag[0].name
  {
    CompiledSize(dag, linked, at, jobs);
    LinkedPosition(dag, linked, at, 0);
    TreeParts(dag, linked, at, jobs, r, 0);
    hide Compiled, Tree, RefsOf;
  }

  /** Dependents and references are the same edges. */
  lemma EdgeIff(dag: seq<DagNode>, linked: seq<NodeJob>, at: map<string, nat>, m: nat, j: nat)
    requires LinkedOk(dag, linked, at) && m < |dag| && j < |dag|
    ensures dag[m].name in linked[j].dependents <==> dag[j].name in dag[m].dependsOn
  {
    assert LinkedAt(dag, linked, at, j);
    DependentsAre(dag, at, |dag|, j);
    LinkedPosition(dag, linked, at, j);
    hide Positions, DependentsOf;
    if dag[m].name in linked[j].dependents {
      var i: nat :| i < |dag| && DependsAt(dag, at, i, j) && dag[i].name == dag[m].name;
      SameName(dag, i, m);
    } else {
      assert !DependsAt(dag, at, m, j);
    }
  }

  lemma RefIsEarlier(dag: seq<DagNode>, linked: seq<NodeJob>, at: map<string, nat>, i: nat, d: string)
    requires LinkedOk(dag, linked, at) && BackRefs(dag) && i < |dag| && d in dag[i].dependsOn
    ensures d in at && at[d] < i
  {
    var l: nat :| l < i && dag[l].name == d;
    LinkedPosition(dag, linked, at, l);
  }

  lemma PlanTemplate(dag: seq<DagNode>, linked: seq<NodeJob>, at: map<string, nat>, jobs: seq<NodeJob>, r: string,
          event: Json, n: string)
    requires Compiled(dag, linked, at, jobs) && n in at
    ensures n in PlanOf(dag, jobs, at, r, event).jobs && TemplateOk(PlanOf(dag, jobs, at, r, event), n)
  {
    hide Compiled, Tree, PlanOf, LinkedOk, LinkedAt, Later, Positions, DependentsOf, Distinct;
    CompiledSize(dag, linked, at, jobs);
    PlanAt(dag, linked, at, jobs, r, event, n);
    var i := at[n];
    TreeParts(dag, linked, at, jobs, r, i);
    if !dag[i].nodeType.Foreach? {
      TreeEdges(dag, linked, at, jobs, r, i);
      LinkedDistinct(dag, linked, at, i);
      var ids := linked[i].dependents;
      var p := PlanOf(dag, jobs, at, r, event);
      forall k | 0 <= k < |ids|
        ensures ids[k] in p.jobs && p.jobs[ids[k]] == Tree(jobs, at, r, at[ids[k]])
      {
        PlanAt(dag, linked, at, jobs, r, event, ids[k]);
      }
    }
  }

  lemma LinkedDistinct(dag: seq<DagNode>, linked: seq<NodeJob>, at: map<string, nat>, i: nat)
    requires LinkedOk(dag, linked, at) && i < |dag|
    ensures |linked| == |dag| && Distinct(linked[i].dependents)
  {
    hide DependentsOf, Distinct;
    assert LinkedAt(dag, linked, at, i);
    DependentsDistinct(dag, at, |dag|, i);
  }

  lemma PlanDeps(dag: seq<DagNode>, linked: seq<NodeJob>, at: map<string, nat>, jobs: seq<NodeJob>, r: string,
          event: Json, n: string)
    requires Compiled(dag, linked, at, jobs) && n in at
    ensures n in PlanOf(dag, jobs, at, r, event).jobs && DepsOk(PlanOf(dag, jobs, at, r, event), n)
  {
    hide Tree, Later, Positions, PlanOf, Stage, LoopsMade, LoopsSupported, SingleRoot, LinkedOk;
    CompiledSize(dag, linked, at, jobs);
    PlanAt(dag, linked, at, jobs, r, event, n);
    PlanKeys(dag, linked, at, jobs, r, event);
    var p := PlanOf(dag, jobs, at, r, event);
    var i := at[n];
    RootIff(dag, linked, at, jobs, i);
    forall d | d in p.deps[n]
      ensures d in p.jobs && d in p.rank && p.rank[d] < p.rank[n]
    {
      RefIsEarlier(dag, linked, at, i, d);
      PlanAt(dag, linked, at, jobs, r, event, d);
    }
    hide Compiled, Tree, LinkedOk, Later;
  }

  lemma RootIff(dag: seq<DagNode>, linked: seq<NodeJob>, at: map<string, nat>, jobs: seq<NodeJob>, i: nat)
    requires Compiled(dag, linked, at, jobs) && i < |dag|
    ensures RefsOf(dag, i) == {} <==> i == 0
    ensures dag[i].name == dag[0].name <==> i == 0
  {
    CompiledSize(dag, linked, at, jobs);
    SomeRef(dag, i);
    hide Stage, LoopsSupported, Later;
  }

  lemma SomeRef(dag: seq<DagNode>, i: nat)
    requires i < |dag|
    ensures RefsOf(dag, i) == {} <==> dag[i].dependsOn == []
  {
    if dag[i].dependsOn != [] {
      assert dag[i].dependsOn[0] in RefsOf(dag, i);
    }
  }

  lemma PlanEdges(dag: seq<DagNode>, linked: seq<NodeJob>, at: map<string, nat>, jobs: seq<NodeJob>, r: string,
          event: Json, n: string)
    requires Compiled(dag, linked, at, jobs) && n in at
    ensures n in PlanOf(dag, jobs, at, r, event).jobs && EdgesOk(PlanOf(dag, jobs, at, r, event), n)
  {
    CompiledSize(dag, linked, at, jobs);
    PlanAt(dag, linked, at, jobs, r, event, n);
    PlanKeys(dag, linked, at, jobs, r, event);
    var p := PlanOf(dag, jobs, at, r, event);
    TreeParts(dag, linked, at, jobs, r, at[n]);
    JobParts(dag, linked, at, jobs, at[n]);
    forall m | m in at
      ensures m in p.deps && (m in linked[at[n]].dependents <==> n in p.deps[m])
    {
      PlanAt(dag, linked, at, jobs, r, event, m);
      EdgeIff(dag, linked, at, at[m], at[n]);
    }
    hide Compiled, Tree, LinkedOk, Later, PlanOf;
  }

  /** A compiled Wafer is a well-formed plan. */
  lemma CompiledWf(dag: seq<DagNode>, linked: seq<NodeJob>, at: map<string, nat>, jobs: seq<NodeJob>, r: string, event: Json)
    requires Compiled(dag, linked, at, jobs)
    ensures 0 < |jobs| == |dag| && Later(jobs, at) && WfPlan(PlanOf(dag, jobs, at, r, event))
  {
    hide Compiled, PlanOf, TemplateOk, DepsOk, EdgesOk, HeadOf, Tree, Later, LinkedOk, Positions;
    CompiledSize(dag, linked, at, jobs);
    PlanKeys(dag, linked, at, jobs, r, event);
    var p := PlanOf(dag, jobs, at, r, event);
    forall n | n in p.jobs
      ensures TemplateOk(p, n) && DepsOk(p, n) && EdgesOk(p, n)
    {
      PlanTemplate(dag, linked, at, jobs, r, event, n);
      PlanDeps(dag, linked, at, jobs, r, event, n);
      PlanEdges(dag, linked, at, jobs, r, event, n);
    }
  }

  /** Its schedulers have the shape the engine supports. */
  lemma CompiledShape(dag: seq<DagNode>, linked: seq<NodeJob>, at: map<string, nat>, jobs: seq<NodeJob>, r: string,
          event: Json, n: string)
    requires Compiled(dag, linked, at, jobs) && n in at
    requires at[n] < |dag| && dag[at[n]].nodeType.Foreach?
    ensures exists b :: ForeachShape(PlanOf(dag, jobs, at, r, event), n, b)
  {
    hide Compiled, PlanOf, Tree, LinkedOk, Later, LoopShape, RefsOf, HeadOf, IterId, Positions;
    CompiledSize(dag, linked, at, jobs);
    PlanAt(dag, linked, at, jobs, r, event, n);
    var f := at[n];
    var b := SchedulerTree(dag, linked, at, jobs, r, f);
    LinkedPosition(dag, linked, at, b);
    TreeParts(dag, linked, at, jobs, r, f);
    TreeParts(dag, linked, at, jobs, r, b);
    JobParts(dag, linked, at, jobs, b);
    PlanAt(dag, linked, at, jobs, r, event, dag[b].name);
    PlanKeys(dag, linked, at, jobs, r, event);
    ShapeDeps(dag, linked, at, jobs, r, event, f, b);
    ShapeBody(dag, linked, at, f, b);
    assert ForeachShape(PlanOf(dag, jobs, at, r, event), n, dag[b].name);
  }

  lemma ShapeBody(dag: seq<DagNode>, linked: seq<NodeJob>, at: map<string, nat>, f: nat, b: nat)
    requires LinkedOk(dag, linked, at) && LoopShape(dag, linked, at, f, b)
    ensures RefsOf(dag, b) == {dag[f].name} && !dag[b].nodeType.Foreach?
    ensures forall k: nat :: IterId(dag[b].name, k) !in at
  {
    hide LinkedOk;
    assert dag[b].dependsOn == [dag[f].name];
  }

  lemma ShapeDeps(dag: seq<DagNode>, linked: seq<NodeJob>, at: map<string, nat>, jobs: seq<NodeJob>, r: string,
          event: Json, f: nat, b: nat)
    requires Compiled(dag, linked, at, jobs) && f < |dag| && b < |dag| && LoopShape(dag, linked, at, f, b)
    ensures var p := PlanOf(dag, jobs, at, r, event);
            && (forall m :: m in p.deps && dag[f].name in p.deps[m] ==> m == dag[b].name)
            && (forall m :: m in linked[b].dependents ==> m in p.deps && p.deps[m] == {dag[b].name})
  {
    hide Compiled, Tree, HeadOf, Later, LinkedOk, PlanOf, Positions;
    CompiledSize(dag, linked, at, jobs);
    PlanKeys(dag, linked, at, jobs, r, event);
    OnlyDependent(dag, linked, at, f, b);
    var p := PlanOf(dag, jobs, at, r, event);
    forall m | m in p.deps && dag[f].name in p.deps[m]
      ensures m == dag[b].name
    {
      PlanAt(dag, linked, at, jobs, r, event, m);
      EdgeIff(dag, linked, at, at[m], f);
    }
    forall m | m in linked[b].dependents
      ensures m in p.deps && p.deps[m] == {dag[b].name}
    {
      RejoinIs(dag, linked, at, f, b, m);
      PlanAt(dag, linked, at, jobs, r, event, m);
      assert dag[at[m]].dependsOn == [dag[b].name];
    }
  }

  lemma OnlyDependent(dag: seq<DagNode>, linked: seq<NodeJob>, at: map<string, nat>, f: nat, b: nat)
    requires LoopShape(dag, linked, at, f, b)
    ensures |dag| == |linked| && linked[f].dependents == [dag[b].name]
  {
  }

  // ----- edges and counters

  /** The nodes whose dependents list the node at `m`. */
  function Naming(linked: seq<NodeJob>, at: map<string, nat>, name: string): set<string>
    requires forall x :: x in at ==> at[x] < |linked|
  {
    set x | x in at && name in linked[at[x]].dependents
  }

  /** As many nodes list a node among their dependents, each once, as it has dependencies to count down. */
  lemma NamedByItsDependencies(dag: seq<DagNode>, linked: seq<NodeJob>, at: map<string, nat>, m: nat)
    requires LinkedOk(dag, linked, at) && BackRefs(dag) && m < |dag|
    ensures forall x :: x in at ==> at[x] < |linked|
    ensures Naming(linked, at, dag[m].name) == RefsOf(dag, m)
    ensures forall j: nat :: j < |linked| ==> Distinct(linked[j].dependents)
  {
    forall x | x in at
      ensures at[x] < |dag| && dag[at[x]].name == x
      ensures dag[m].name in linked[at[x]].dependents <==> x in dag[m].dependsOn
    {
      PositionNames(dag, |dag|, x);
      EdgeIff(dag, linked, at, m, at[x]);
    }
    forall d | d in dag[m].dependsOn
      ensures d in at
    {
      RefIsEarlier(dag, linked, at, m, d);
    }
    forall j: nat | j < |linked|
      ensures Distinct(linked[j].dependents)
    {
      assert LinkedAt(dag, linked, at, j);
      DependentsDistinct(dag, at, |dag|, j);
    }
    hide LinkedOk, BackRefs, Distinct, Positions;
  }
}
