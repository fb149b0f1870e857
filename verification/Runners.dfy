/** Compiling a Wafer in place over an array of jobs. */
module Runners {
  import opened Values
  import opened Jobs
  import opened Plans
  import opened Wafers
  import opened Dags
  import opened Compilation

  // ----- one step of each loop

  lemma DependentsNext(dag: seq<DagNode>, at: map<string, nat>, i: nat, j: nat)
    requires i < |dag| && j < |dag|
    ensures DependentsOf(dag, at, i + 1, j) == DependentsOf(dag, at, i, j) + (if DependsAt(dag, at, i, j) then [dag[i].name] else [])
  {
  }

  lemma LoopsNext(dag: seq<DagNode>, jobs: seq<NodeJob>, at: map<string, nat>, n: nat)
    requires n < |dag| == |jobs| && Later(jobs, at) && forall i: nat :: i < |dag| ==> dag[i].name in at
    requires WithLoops(dag, jobs, at, n).Some?
    ensures var before := WithLoops(dag, jobs, at, n).value;
            && Sized(before, at)
            && WithLoops(dag, jobs, at, n + 1) == if dag[n].nodeType.Foreach? then WithLoop(before, at, at[dag[n].name]) else Some(before)
  {
    LoopKeepsLater(WithLoops(dag, jobs, at, n).value, at, at[dag[n].name]);
  }

  /** A failure to set up one scheduler is a failure to set them all up. */
  lemma {:induction false} LoopsFail(dag: seq<DagNode>, jobs: seq<NodeJob>, at: map<string, nat>, n: nat)
    requires n <= |dag| == |jobs| && Later(jobs, at) && forall i: nat :: i < |dag| ==> dag[i].name in at
    requires WithLoops(dag, jobs, at, n).None?
    ensures WithLoops(dag, jobs, at, |dag|).None?
    decreases |dag| - n
  {
    if n < |dag| {
      LoopsFail(dag, jobs, at, n + 1);
    }
  }

  // ----- the loops

  /** Assign each node's dependents. */
  method LinkDependents(dag: seq<DagNode>, at: map<string, nat>, jobs: array<NodeJob>)
    requires jobs.Length == |dag| && at == Positions(dag, |dag|)
    requires forall i :: 0 <= i < |dag| ==> jobs[i].dependents == [] && Distinct(dag[i].dependsOn)
    modifies jobs
    ensures forall j :: 0 <= j < |dag| ==> jobs[j] == old(jobs[j]).(dependents := DependentsOf(dag, at, |dag|, j))
  {
    hide DependentsOf, Positions;
    var i := 0;
    NoDependents(dag, at);
    while i < |dag|
      invariant 0 <= i <= |dag|
      invariant forall j :: 0 <= j < |dag| ==> jobs[j] == old(jobs[j]).(dependents := DependentsOf(dag, at, i, j))
    {
      LinkOne(dag, at, jobs, i);
      forall j: nat | j < |dag|
        ensures DependentsOf(dag, at, i + 1, j) == DependentsOf(dag, at, i, j) + (if DependsAt(dag, at, i, j) then [dag[i].name] else [])
      {
        DependentsNext(dag, at, i, j);
      }
      i := i + 1;
    }
  }

  lemma NoDependents(dag: seq<DagNode>, at: map<string, nat>)
    ensures forall j :: 0 <= j < |dag| ==> DependentsOf(dag, at, 0, j) == []
  {
  }

  /** The node at `i` joins the dependents of each node it depends on. */
  method LinkOne(dag: seq<DagNode>, at: map<string, nat>, jobs: array<NodeJob>, i: nat)
    requires jobs.Length == |dag| && i < |dag| && Distinct(dag[i].dependsOn) && at == Positions(dag, |dag|)
    modifies jobs
    ensures forall j :: 0 <= j < |dag| ==>
              jobs[j] == old(jobs[j]).(dependents := old(jobs[j]).dependents + (if DependsAt(dag, at, i, j) then [dag[i].name] else []))
  {
    hide Positions, Mentions;
    var deps := dag[i].dependsOn;
    var k := 0;
    NoMention(dag, at, deps);
    while k < |deps|
      invariant 0 <= k <= |deps|
      invariant forall j :: 0 <= j < |dag| ==>
                  jobs[j] == old(jobs[j]).(dependents := old(jobs[j]).dependents + (if Mentions(dag, at, deps[..k], j) then [dag[i].name] else []))
    {
      MentionsNext(dag, at, deps, k);
      if deps[k] in at {
        var j := at[deps[k]];
        jobs[j] := jobs[j].(dependents := jobs[j].dependents + [dag[i].name]);
      }
      k := k + 1;
    }
    assert deps[..k] == deps;
    MentionsAll(dag, at, i);
  }

  /** One of `refs` means the node at `j`. */
  predicate Mentions(dag: seq<DagNode>, at: map<string, nat>, refs: seq<string>, j: nat)
    requires j < |dag|
  {
    dag[j].name in refs && dag[j].name in at && at[dag[j].name] == j
  }

  lemma NoMention(dag: seq<DagNode>, at: map<string, nat>, refs: seq<string>)
    ensures forall j: nat :: j < |dag| ==> !Mentions(dag, at, refs[..0], j)
  {
  }

  lemma MentionsNext(dag: seq<DagNode>, at: map<string, nat>, refs: seq<string>, k: nat)
    requires k < |refs| && Distinct(refs) && at == Positions(dag, |dag|)
    ensures forall j: nat :: j < |dag| ==>
              (Mentions(dag, at, refs[..k + 1], j) <==> Mentions(dag, at, refs[..k], j) || (refs[k] in at && at[refs[k]] == j))
    ensures refs[k] in at ==> at[refs[k]] < |dag| && !Mentions(dag, at, refs[..k], at[refs[k]])
  {
    hide Positions;
    assert refs[..k + 1] == refs[..k] + [refs[k]];
    assert refs[k] !in refs[..k];
    if refs[k] in at {
      PositionNames(dag, |dag|, refs[k]);
    }
    hide Distinct;
    forall j: nat | j < |dag|
      ensures Mentions(dag, at, refs[..k + 1], j) <==> Mentions(dag, at, refs[..k], j) || (refs[k] in at && at[refs[k]] == j)
    {
      assert dag[j].name in refs[..k + 1] <==> dag[j].name in refs[..k] || dag[j].name == refs[k];
    }
  }

  lemma MentionsAll(dag: seq<DagNode>, at: map<string, nat>, i: nat)
    requires i < |dag|
    ensures forall j: nat :: j < |dag| ==> Mentions(dag, at, dag[i].dependsOn, j) == DependsAt(dag, at, i, j)
  {
  }

  /** Set up one foreach scheduler: its body, its loop variable, and its rejoins, marked to collect. */
  method SetUpLoop(at: map<string, nat>, jobs: array<NodeJob>, f: nat) returns (ok: bool)
    requires f < jobs.Length && Sized(jobs[..], at)
    modifies jobs
    ensures ok <==> WithLoop(old(jobs[..]), at, f).Some?
    ensures ok ==> jobs[..] == WithLoop(old(jobs[..]), at, f).value
  {
    var config := jobs[f].def.config;
    var body := StrField(config, "body");
    if body !in at {
      return false;
    }
    ok := true;
    var loopVar := LoopVar(config);
    jobs[f] := jobs[f].(dependents := RemoveStr(jobs[f].dependents, body));
    var rejoins := jobs[at[body]].dependents;
    jobs[f] := jobs[f].(loop := Some(Loop(jobs[at[body]], loopVar, rejoins)));
    ghost var looped := jobs[..];
    assert forall x :: x in rejoins ==> x in at && at[x] < |looped|;
    CopyRejoins(at, jobs, f, body, loopVar, rejoins);
  }

  /** Mark each rejoin to collect, and copy it into the scheduler. */
  method CopyRejoins(at: map<string, nat>, jobs: array<NodeJob>, f: nat, body: string, loopVar: string, rejoins: seq<string>)
    requires f < jobs.Length && loopVar == LoopVar(jobs[f].def.config)
    requires forall x :: x in rejoins ==> x in at && at[x] < jobs.Length
    modifies jobs
    ensures jobs[..] == WithRejoins(old(jobs[..]), at, f, body, rejoins, |rejoins|)
  {
    hide LoopVar;
    ghost var looped := jobs[..];
    var m := 0;
    while m < |rejoins|
      invariant 0 <= m <= |rejoins|
      invariant jobs[..] == WithRejoins(looped, at, f, body, rejoins, m)
      invariant jobs[f].def == looped[f].def && jobs[f].nodeId == looped[f].nodeId
    {
      var r := at[rejoins[m]];
      jobs[r] := jobs[r].(collect := Some(Collect(body, loopVar, 0, jobs[f].nodeId)));
      jobs[f] := jobs[f].(downstream := jobs[f].downstream + [jobs[r]]);
      m := m + 1;
    }
  }

  /** Set up every foreach scheduler in run order. */
  method SetUpLoops(dag: seq<DagNode>, at: map<string, nat>, jobs: array<NodeJob>) returns (ok: bool)
    requires jobs.Length == |dag| && Sized(jobs[..], at) && forall i: nat :: i < |dag| ==> dag[i].name in at
    modifies jobs
    ensures Later(old(jobs[..]), at) ==> (ok <==> WithLoops(dag, old(jobs[..]), at, |dag|).Some?)
    ensures Later(old(jobs[..]), at) && ok ==> jobs[..] == WithLoops(dag, old(jobs[..]), at, |dag|).value
    ensures ok ==> Sized(jobs[..], at)
  {
    hide WithLoop, Later, Sized;
    ghost var linked := jobs[..];
    ghost var later := Later(linked, at);
    if later {
      LoopsStart(dag, linked, at);
    }
    hide WithLoops;
    var i := 0;
    while i < |dag|
      invariant 0 <= i <= |dag| && Sized(jobs[..], at)
      invariant later ==> WithLoops(dag, linked, at, i) == Some(jobs[..])
    {
      if later {
        LoopsNext(dag, linked, at, i);
      }
      if dag[i].nodeType.Foreach? {
        PositionSized(jobs[..], at, dag[i].name);
        LoopKeepsSized(jobs[..], at, at[dag[i].name]);
        ok := SetUpLoop(at, jobs, at[dag[i].name]);
        if !ok {
          if later {
            LoopsFail(dag, linked, at, i + 1);
          }
          return;
        }
      }
      i := i + 1;
    }
    ok := true;
  }

  lemma LoopsStart(dag: seq<DagNode>, jobs: seq<NodeJob>, at: map<string, nat>)
    requires |dag| == |jobs| && Later(jobs, at) && forall i: nat :: i < |dag| ==> dag[i].name in at
    ensures WithLoops(dag, jobs, at, 0) == Some(jobs)
  {
  }

  lemma PositionSized(jobs: seq<NodeJob>, at: map<string, nat>, name: string)
    requires Sized(jobs, at) && name in at
    ensures at[name] < |jobs|
  {
  }

  /**
   Nest each job's successors in it, last node first. When dependents come later in the run order, every copy
   taken is already complete.
   */
  method Nest(at: map<string, nat>, jobs: array<NodeJob>)
    requires Sized(jobs[..], at)
    modifies jobs
    ensures Later(old(jobs[..]), at) ==> forall i :: 0 <= i < jobs.Length ==> jobs[i] == Nested(old(jobs[..]), at, i)
  {
    hide Nested, NestedAll, Sized, Later;
    ghost var flat := jobs[..];
    ghost var later := Later(flat, at);
    var j := jobs.Length;
    while j > 0
      invariant 0 <= j <= jobs.Length
      invariant forall i :: 0 <= i < j ==> jobs[i] == flat[i]
      invariant later ==> forall i :: j <= i < jobs.Length ==> jobs[i] == Nested(flat, at, i)
    {
      j := j - 1;
      NestOne(at, jobs, j, flat);
    }
  }

  /** One node's turn. In a run order every later node is already complete. */
  method NestOne(at: map<string, nat>, jobs: array<NodeJob>, j: nat, ghost flat: seq<NodeJob>)
    requires j < jobs.Length == |flat| && Sized(flat, at) && jobs[j] == flat[j]
    requires Later(flat, at) ==> forall i :: j < i < jobs.Length ==> jobs[i] == Nested(flat, at, i)
    modifies jobs
    ensures Later(flat, at) ==> jobs[j] == Nested(flat, at, j)
    ensures forall i :: 0 <= i < jobs.Length && i != j ==> jobs[i] == old(jobs[i])
  {
    ghost var later := Later(flat, at);
    if later {
      NestedIs(flat, at, j);
    }
    hide Nested;
    var ids := jobs[j].dependents;
    var m := 0;
    while m < |ids|
      invariant 0 <= m <= |ids|
      invariant jobs[j] == flat[j].(downstream := jobs[j].downstream)
      invariant later ==> jobs[j].downstream == flat[j].downstream + NestedAll(flat, at, j, m)
      invariant forall i :: 0 <= i < jobs.Length && i != j ==> jobs[i] == old(jobs[i])
    {
      var k := at[ids[m]];
      assert later ==> NestedAll(flat, at, j, m + 1) == NestedAll(flat, at, j, m) + [Nested(flat, at, k)];
      jobs[j] := jobs[j].(downstream := jobs[j].downstream + [jobs[k]]);
      m := m + 1;
    }
    if jobs[j].loop.Some? {
      var loop := jobs[j].loop.value;
      if loop.body.nodeId in at && j < at[loop.body.nodeId] {
        jobs[j] := jobs[j].(loop := Some(loop.(body := jobs[at[loop.body.nodeId]])));
      }
    }
  }

  lemma NestedIs(jobs: seq<NodeJob>, at: map<string, nat>, i: nat)
    requires Later(jobs, at) && i < |jobs|
    ensures var job := jobs[i];
            Nested(jobs, at, i) == job.(
              downstream := job.downstream + NestedAll(jobs, at, i, |job.dependents|),
              loop := match job.loop
                      case None => None
                      case Some(l) =>
                        if l.body.nodeId in at && i < at[l.body.nodeId] then Some(l.(body := Nested(jobs, at, at[l.body.nodeId]))) else Some(l))
    ensures NestedAll(jobs, at, i, 0) == []
  {
  }

  // ----- the whole

  /** One job per node, in run order, and the position of each identifier. */
  method Blanks(w: Wafer, reg: Registry, dag: seq<DagNode>) returns (ok: bool, jobs: array<NodeJob>, at: map<string, nat>)
    requires Indexed(w, dag)
    ensures fresh(jobs) && jobs.Length == |dag|
    ensures ok <==> AllHandled(w, reg, dag)
    ensures ok ==> at == Positions(dag, |dag|) && forall i :: 0 <= i < |dag| ==> jobs[i] == Blank(w, reg, dag[i]) && jobs[i].dependents == []
  {
    hide Blank, Positions;
    jobs := new NodeJob[|dag|](_ => NodeJob("", "", NodeDef("", "", Switch, JNull, [], [], ""), map[], false, [], [], None, None));
    at := map[];
    var i := 0;
    PositionsStart(dag);
    while i < |dag|
      invariant 0 <= i <= |dag| && at == Positions(dag, i)
      invariant forall k :: 0 <= k < i ==> IsHandled(w, reg, dag[k]) && jobs[k] == Blank(w, reg, dag[k]) && jobs[k].dependents == []
    {
      if !IsHandled(w, reg, dag[i]) {
        ok := false;
        return;
      }
      jobs[i] := Blank(w, reg, dag[i]);
      BlankIsBare(w, reg, dag[i]);
      PositionsNext(dag, i);
      at := at[dag[i].name := i];
      i := i + 1;
    }
    ok := true;
  }

  lemma BlankIsBare(w: Wafer, reg: Registry, d: DagNode)
    requires d.index < |w.nodes| && IsHandled(w, reg, d)
    ensures Blank(w, reg, d).dependents == []
  {
  }

  lemma PositionsStart(dag: seq<DagNode>)
    ensures Positions(dag, 0) == map[]
  {
  }

  lemma PositionsNext(dag: seq<DagNode>, i: nat)
    requires i < |dag|
    ensures Positions(dag, i + 1) == Positions(dag, i)[dag[i].name := i]
  {
  }

  // ----- identifiers

  /** No node is named like the position of an earlier unnamed one. */
  ghost predicate NoClash(nodes: seq<WaferNode>) {
    forall i: nat, j: nat {:trigger PositionTaken(nodes, i, j)} :: i < j < |nodes| ==> !PositionTaken(nodes, i, j)
  }

  ghost predicate NamesDistinct(dag: seq<DagNode>) {
    forall k, l :: 0 <= k < l < |dag| ==> dag[k].name != dag[l].name
  }

  /** A Wafer that resolves gives its nodes distinct identifiers. */
  lemma ResolvedNames(nodes: seq<WaferNode>, dag: seq<DagNode>)
    requires RunOrder(nodes, dag) && NoClash(nodes) && forall x :: !IsIssue(nodes, x)
    ensures NamesDistinct(dag)
  {
    forall k, l | 0 <= k < l < |dag|
      ensures dag[k].name != dag[l].name
    {
      var i, j := dag[k].index, dag[l].index;
      assert !IsIssue(nodes, DuplicateName(i)) && !IsIssue(nodes, DuplicateName(j));
      if i < j {
        ClashesMissed(nodes, i, j);
      } else {
        ClashesMissed(nodes, j, i);
      }
    }
  }

  lemma PositionIs(dag: seq<DagNode>, i: nat)
    requires NamesDistinct(dag) && i < |dag|
    ensures dag[i].name in Positions(dag, |dag|) && Positions(dag, |dag|)[dag[i].name] == i
  {
    PositionLast(dag, |dag|, i);
    PositionNames(dag, |dag|, dag[i].name);
  }

  lemma ResolvedIndexed(nodes: seq<WaferNode>, dag: seq<DagNode>)
    requires RunOrder(nodes, dag)
    ensures Indexed(Wafer("", nodes), dag)
    ensures forall i :: 0 <= i < |dag| ==> Distinct(dag[i].dependsOn)
  {
  }

  lemma ResolvedBackwards(nodes: seq<WaferNode>, dag: seq<DagNode>)
    requires RunOrder(nodes, dag) && NamesDistinct(dag)
    ensures Backwards(dag)
  {
    var at := Positions(dag, |dag|);
    forall i: nat, j: nat | i < |dag| && j < |dag| && DependsAt(dag, at, i, j)
      ensures j < i
    {
      var l :| 0 <= l < i && dag[l].name == dag[j].name;
      assert l == j;
    }
  }

  /**
   Build the head job of a run: resolve, link, set up the schedulers, nest, and hand out the first node
   without dependencies. Where no identifiers clash, references mean earlier nodes, and the head is the
   compiled tree.
   */
  method FromWafer(w: Wafer, reg: Registry, event: Json) returns (built: Built, dag: seq<DagNode>)
    ensures built.Unresolved? <==> exists x :: IsIssue(w.nodes, x)
    ensures !built.Unresolved? ==>
              && RunOrder(w.nodes, dag) && Indexed(w, dag)
              && (NoClash(w.nodes) ==> NamesDistinct(dag) && Backwards(dag))
              && (Backwards(dag) ==> built == Compile(w, reg, dag, event))
              && (Backwards(dag) && built.Head? ==> AllCarry(w, reg, built.job) && built.job.input == MakeInput(event, map[]))
  {
    hide AllCarry, IsIssue, HasCycle, RunOrder, NoClash, NamesDistinct, Backwards, Positions, Blank, DependentsOf, WithLoops, Nested;
    hide Later, Sized;
    var issues;
    dag, issues := ResolveDAG(w.nodes);
    if |issues| > 0 {
      assert IsIssue(w.nodes, issues[0]);
      return Unresolved, dag;
    }
    Acyclic(w.nodes);
    ResolvedIndexed(w.nodes, dag);
    if NoClash(w.nodes) {
      ResolvedNames(w.nodes, dag);
      ResolvedBackwards(w.nodes, dag);
    }
    if |dag| == 0 {
      return NoNodes, dag;
    }
    var ok, jobs, at := Blanks(w, reg, dag);
    if !ok {
      return NoHandler, dag;
    }
    LinkDependents(dag, at, jobs);
    assert jobs[..] == Linked(w, reg, dag);
    LinkedIsSized(w, reg, dag);
    if Backwards(dag) {
      LinkedIsLater(w, reg, dag);
    }
    AllPlaced(dag);
    ghost var linked := jobs[..];
    ok := SetUpLoops(dag, at, jobs);
    if !ok {
      return UnknownBody, dag;
    }
    Nest(at, jobs);
    var head := jobs[0];
    var i := 0;
    while i < |dag|
      invariant 0 <= i <= |dag| && head == jobs[0] && (i > 0 ==> dag[0].dependsOn != [])
    {
      if |dag[i].dependsOn| == 0 {
        head := jobs[i];
        break;
      }
      i := i + 1;
    }
    FirstIsFree(w.nodes, dag);
    built := Head(head.(input := MakeInput(event, map[])));
    if Backwards(dag) {
      CompiledCarries(w, reg, dag, event);
    }
  }

  lemma Acyclic(nodes: seq<WaferNode>)
    requires forall x :: !IsIssue(nodes, x)
    ensures !HasCycle(GraphOf(nodes))
  {
    assert !IsIssue(nodes, Circular(CycleNames(nodes, |nodes|)));
  }

  /** The first node of a run order depends on nothing. */
  lemma FirstIsFree(nodes: seq<WaferNode>, dag: seq<DagNode>)
    requires RunOrder(nodes, dag) && |dag| > 0
    ensures dag[0].dependsOn == []
  {
    assert forall d :: d !in dag[0].dependsOn;
    NoElements(dag[0].dependsOn);
  }

  lemma NoElements<T>(s: seq<T>)
    requires forall x :: x !in s
    ensures s == []
  {
    if s != [] {
      FirstIn(s);
    }
  }

  lemma FirstIn<T>(s: seq<T>)
    requires s != []
    ensures s[0] in s
  {
  }
}
