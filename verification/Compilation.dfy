/** What compiling a Wafer into nested jobs comes to, as functions of its run order. */
module Compilation {
  import opened Values
  import opened Jobs
  import opened Plans
  import opened Wafers
  import opened Dags

  datatype Wafer = Wafer(name: string, nodes: seq<WaferNode>)

  /** The command that runs a node of a type, or None for a type without a handler. */
  type Registry = WaferNode -> Option<seq<string>>

  /** The outcome of a compilation. */
  datatype Built = Unresolved | NoHandler | UnknownBody | NoNodes | Head(job: NodeJob)

  /** A string field of a node's config, or the empty string. */
  function StrField(config: Json, field: string): string {
    if config.JObj? && field in config.fields && config.fields[field].JStr? then config.fields[field].s else ""
  }

  /** The loop variable's name, defaulted. */
  function LoopVar(config: Json): string {
    if StrField(config, "as") != "" then StrField(config, "as") else "item"
  }

  predicate IsHandled(w: Wafer, reg: Registry, d: DagNode)
    requires d.index < |w.nodes|
  {
    reg(w.nodes[d.index]).Some?
  }

  /** Every node of the run order stands for a node of the Wafer. */
  predicate Indexed(w: Wafer, dag: seq<DagNode>) {
    forall i :: 0 <= i < |dag| ==> dag[i].index < |w.nodes|
  }

  predicate AllHandled(w: Wafer, reg: Registry, dag: seq<DagNode>) {
    Indexed(w, dag) && forall i :: 0 <= i < |dag| ==> IsHandled(w, reg, dag[i])
  }

  /** The position each identifier has in the first `n` nodes of the run order; a repeated one means the last. */
  function Positions(dag: seq<DagNode>, n: nat): (at: map<string, nat>)
    requires n <= |dag|
    ensures forall name :: name in at ==> at[name] < n
  {
    if n == 0 then map[] else Positions(dag, n - 1)[dag[n - 1].name := n - 1]
  }

  lemma {:induction false} PositionNames(dag: seq<DagNode>, n: nat, name: string)
    requires n <= |dag| && name in Positions(dag, n)
    ensures dag[Positions(dag, n)[name]].name == name
  {
    if name != dag[n - 1].name {
      PositionNames(dag, n - 1, name);
    }
  }

  lemma {:induction false} PositionLast(dag: seq<DagNode>, n: nat, i: nat)
    requires i < n <= |dag|
    ensures dag[i].name in Positions(dag, n) && i <= Positions(dag, n)[dag[i].name]
  {
    if i < n - 1 {
      PositionLast(dag, n - 1, i);
    }
  }

  /** A node's job before any linking. */
  function Blank(w: Wafer, reg: Registry, d: DagNode): NodeJob
    requires d.index < |w.nodes| && IsHandled(w, reg, d)
  {
    var s := w.nodes[d.index];
    NodeJob("", d.name, NodeDef(w.name, s.name, s.nodeType, s.config, reg(s).value, s.secrets, s.dedupeKey),
            map[], false, [], [], None, None)
  }

  /** The identifiers, in run order, of those of the first `n` nodes that depend on the node at `j`. */
  function DependentsOf(dag: seq<DagNode>, at: map<string, nat>, n: nat, j: nat): seq<string>
    requires n <= |dag| && j < |dag|
  {
    if n == 0 then []
    else
      DependentsOf(dag, at, n - 1, j) +
      (if DependsAt(dag, at, n - 1, j) then [dag[n - 1].name] else [])
  }

  predicate DependsAt(dag: seq<DagNode>, at: map<string, nat>, i: nat, j: nat)
    requires i < |dag| && j < |dag|
  {
    dag[j].name in dag[i].dependsOn && dag[j].name in at && at[dag[j].name] == j
  }

  // ----- foreach schedulers

  function RemoveStr(xs: seq<string>, s: string): (r: seq<string>)
    ensures forall x :: x in r <==> x in xs && x != s
    ensures multiset(r) == multiset(xs)[s := 0]
  {
    if xs == [] then []
    else
      var rest, x := xs[..|xs| - 1], xs[|xs| - 1];
      assert xs == rest + [x];
      if x == s then RemoveStr(rest, s) else RemoveStr(rest, s) + [x]
  }

  /** Marks the first `m` rejoins and appends a copy of each to the scheduler at `f`. */
  function WithRejoins(jobs: seq<NodeJob>, at: map<string, nat>, f: nat, body: string, rejoins: seq<string>,
          m: nat): (r: seq<NodeJob>)
    requires f < |jobs| && m <= |rejoins| && forall x :: x in rejoins ==> x in at && at[x] < |jobs|
    ensures |r| == |jobs|
  {
    if m == 0 then jobs
    else
      var before := WithRejoins(jobs, at, f, body, rejoins, m - 1);
      var r := at[rejoins[m - 1]];
      var config := jobs[f].def.config;
      var marked := before[r := before[r].(collect := Some(Collect(body, LoopVar(config), 0, jobs[f].nodeId)))];
      marked[f := marked[f].(downstream := marked[f].downstream + [marked[r]])]
  }

  /** The scheduler at `f` takes its body out of its dependents, and carries the body and its rejoins. */
  function WithLoop(jobs: seq<NodeJob>, at: map<string, nat>, f: nat): (r: Option<seq<NodeJob>>)
    requires f < |jobs| && Sized(jobs, at)
    ensures r.Some? ==> |r.value| == |jobs|
  {
    var body := StrField(jobs[f].def.config, "body");
    if body !in at then None
    else
      var bare := jobs[f := jobs[f].(dependents := RemoveStr(jobs[f].dependents, body))];
      var rejoins := bare[at[body]].dependents;
      var looped := bare[f := bare[f].(loop := Some(Loop(bare[at[body]], LoopVar(jobs[f].def.config), rejoins)))];
      Some(WithRejoins(looped, at, f, body, rejoins, |rejoins|))
  }

  /** Some of the first `m` rejoins is at `i`. */
  predicate IsRejoin(at: map<string, nat>, rejoins: seq<string>, m: nat, i: nat)
    requires m <= |rejoins| && forall x :: x in rejoins ==> x in at
  {
    exists k :: 0 <= k < m && at[rejoins[k]] == i
  }

  /** The job at `i` is marked exactly if some rejoin is there, and else as it was. */
  ghost predicate JobMarked(jobs: seq<NodeJob>, r: seq<NodeJob>, f: nat, mark: Collect, marked: bool, i: nat)
    requires i < |jobs| == |r|
  {
    && r[i].collect == (if marked then Some(mark) else jobs[i].collect)
    && r[i] == jobs[i].(collect := r[i].collect, downstream := r[i].downstream)
    && (i != f ==> r[i].downstream == jobs[i].downstream)
  }

  /** The copy of the job at `i` that the scheduler at `f` gains. */
  ghost predicate MarkedCopy(jobs: seq<NodeJob>, f: nat, mark: Collect, i: nat, copy: NodeJob)
    requires i < |jobs|
  {
    && copy == jobs[i].(collect := Some(mark), downstream := copy.downstream)
    && (i != f ==> copy.downstream == jobs[i].downstream)
  }

  /** Exactly the rejoins are marked, with this marker, and the scheduler gains one marked copy per rejoin, in order. */
  ghost predicate MarkedRejoins(jobs: seq<NodeJob>, r: seq<NodeJob>, at: map<string, nat>, f: nat, mark: Collect,
          rejoins: seq<string>, m: nat)
    requires f < |jobs| && m <= |rejoins| && forall x :: x in rejoins ==> x in at && at[x] < |jobs|
  {
    && |r| == |jobs|
    && (forall i: nat {:trigger r[i]} :: i < |jobs| ==> JobMarked(jobs, r, f, mark, IsRejoin(at, rejoins, m, i), i))
    && |r[f].downstream| == |jobs[f].downstream| + m && r[f].downstream[..|jobs[f].downstream|] == jobs[f].downstream
    && forall k :: 0 <= k < m ==> MarkedCopy(jobs, f, mark, at[rejoins[k]], r[f].downstream[|jobs[f].downstream| + k])
  }

  lemma {:induction false} RejoinsMarked(jobs: seq<NodeJob>, at: map<string, nat>, f: nat, body: string,
          rejoins: seq<string>, m: nat)
    requires f < |jobs| && m <= |rejoins| && forall x :: x in rejoins ==> x in at && at[x] < |jobs|
    ensures var mark := Collect(body, LoopVar(jobs[f].def.config), 0, jobs[f].nodeId);
            MarkedRejoins(jobs, WithRejoins(jobs, at, f, body, rejoins, m), at, f, mark, rejoins, m)
  {
    hide LoopVar, MarkedRejoins;
    var mark := Collect(body, LoopVar(jobs[f].def.config), 0, jobs[f].nodeId);
    if m > 0 {
      RejoinsMarked(jobs, at, f, body, rejoins, m - 1);
      OneMoreMarked(jobs, WithRejoins(jobs, at, f, body, rejoins, m - 1), at, f, mark, rejoins, m - 1);
    } else {
      NoneMarked(jobs, at, f, mark, rejoins);
    }
  }

  lemma NoneMarked(jobs: seq<NodeJob>, at: map<string, nat>, f: nat, mark: Collect, rejoins: seq<string>)
    requires f < |jobs| && forall x :: x in rejoins ==> x in at && at[x] < |jobs|
    ensures MarkedRejoins(jobs, jobs, at, f, mark, rejoins, 0)
  {
    forall i: nat | i < |jobs|
      ensures JobMarked(jobs, jobs, f, mark, IsRejoin(at, rejoins, 0, i), i)
    {
    }
  }

  lemma OneMoreMarked(jobs: seq<NodeJob>, before: seq<NodeJob>, at: map<string, nat>, f: nat, mark: Collect,
          rejoins: seq<string>, m: nat)
    requires f < |jobs| && m < |rejoins| && forall x :: x in rejoins ==> x in at && at[x] < |jobs|
    requires MarkedRejoins(jobs, before, at, f, mark, rejoins, m)
    ensures var x := at[rejoins[m]]; var marked := before[x := before[x].(collect := Some(mark))];
            MarkedRejoins(jobs, marked[f := marked[f].(downstream := marked[f].downstream + [marked[x]])], at, f, mark, rejoins, m + 1)
  {
    IsRejoinNext(at, rejoins, m);
    hide IsRejoin;
    var x := at[rejoins[m]];
    var marked := before[x := before[x].(collect := Some(mark))];
    var r := marked[f := marked[f].(downstream := marked[f].downstream + [marked[x]])];
    var next := m + 1;
    forall i: nat | i < |jobs|
      ensures JobMarked(jobs, r, f, mark, IsRejoin(at, rejoins, next, i), i)
    {
      assert JobMarked(jobs, before, f, mark, IsRejoin(at, rejoins, m, i), i);
    }
    assert JobMarked(jobs, before, f, mark, IsRejoin(at, rejoins, m, x), x);
    hide JobMarked, MarkedCopy;
  }

  lemma IsRejoinNext(at: map<string, nat>, rejoins: seq<string>, m: nat)
    requires m < |rejoins| && forall x :: x in rejoins ==> x in at
    ensures forall i: nat :: IsRejoin(at, rejoins, m + 1, i) <==> IsRejoin(at, rejoins, m, i) || i == at[rejoins[m]]
  {
  }

  /** Dependents are known, and every position is one of a job. */
  predicate Sized(jobs: seq<NodeJob>, at: map<string, nat>) {
    && (forall name :: name in at ==> at[name] < |jobs|)
    && (forall i, x :: 0 <= i < |jobs| && x in jobs[i].dependents ==> x in at)
  }

  /** Dependents come later in the run order. */
  predicate Later(jobs: seq<NodeJob>, at: map<string, nat>) {
    && (forall name :: name in at ==> at[name] < |jobs|)
    && (forall i, x :: 0 <= i < |jobs| && x in jobs[i].dependents ==> x in at && i < at[x])
  }

  lemma {:induction false} RejoinsKeep(jobs: seq<NodeJob>, at: map<string, nat>, f: nat, body: string,
          rejoins: seq<string>, m: nat)
    requires f < |jobs| && m <= |rejoins| && forall x :: x in rejoins ==> x in at && at[x] < |jobs|
    ensures forall i :: 0 <= i < |jobs| ==>
              var r := WithRejoins(jobs, at, f, body, rejoins, m)[i];
              r == jobs[i].(collect := r.collect, downstream := r.downstream)
  {
    if m > 0 {
      RejoinsKeep(jobs, at, f, body, rejoins, m - 1);
    }
  }

  /**
   Setting up one scheduler, of any shape: it fails exactly if its body is unknown. Else the scheduler loses its body, and
   no other, from its dependents, carries the body as it was and the body's dependents as rejoins, and marks exactly
   these; no other job changes.
   */
  lemma LoopExactly(jobs: seq<NodeJob>, at: map<string, nat>, f: nat)
    requires Sized(jobs, at) && f < |jobs|
    ensures var body := StrField(jobs[f].def.config, "body");
            && (WithLoop(jobs, at, f).None? <==> body !in at)
            && (body in at ==>
                  var r := WithLoop(jobs, at, f).value;
                  && |r| == |jobs| && r[f].loop.Some? && (forall x :: x in r[f].loop.value.rejoins ==> x in at && at[x] < |jobs|)
                  && multiset(r[f].dependents) == multiset(jobs[f].dependents)[body := 0]
                  && r[f].loop.value.bodyAs == LoopVar(jobs[f].def.config)
                  && (at[body] != f ==> r[f].loop.value.body == jobs[at[body]] && r[f].loop.value.rejoins == jobs[at[body]].dependents)
                  && var rejoins := r[f].loop.value.rejoins;
                  MarkedRejoins(jobs[f := jobs[f].(dependents := r[f].dependents, loop := r[f].loop)], r, at, f,
                                Collect(body, LoopVar(jobs[f].def.config), 0, jobs[f].nodeId), rejoins, |rejoins|))
  {
    hide LoopVar, StrField, RemoveStr, MarkedRejoins;
    var body := StrField(jobs[f].def.config, "body");
    if body in at {
      var bare := jobs[f := jobs[f].(dependents := RemoveStr(jobs[f].dependents, body))];
      var rejoins := bare[at[body]].dependents;
      var looped := bare[f := bare[f].(loop := Some(Loop(bare[at[body]], LoopVar(jobs[f].def.config), rejoins)))];
      RejoinsMarked(looped, at, f, body, rejoins, |rejoins|);
      var r := WithRejoins(looped, at, f, body, rejoins, |rejoins|);
      assert WithLoop(jobs, at, f) == Some(r);
      SchedulerMarked(looped, r, at, f, Collect(body, LoopVar(jobs[f].def.config), 0, jobs[f].nodeId), rejoins, |rejoins|);
      assert looped == jobs[f := jobs[f].(dependents := r[f].dependents, loop := r[f].loop)];
    }
  }

  lemma SchedulerMarked(jobs: seq<NodeJob>, r: seq<NodeJob>, at: map<string, nat>, f: nat, mark: Collect,
          rejoins: seq<string>, m: nat)
    requires f < |jobs| && m <= |rejoins| && forall x :: x in rejoins ==> x in at && at[x] < |jobs|
    requires MarkedRejoins(jobs, r, at, f, mark, rejoins, m)
    ensures |r| == |jobs| && r[f].dependents == jobs[f].dependents && r[f].loop == jobs[f].loop
  {
    hide IsRejoin, MarkedCopy;
    assert JobMarked(jobs, r, f, mark, IsRejoin(at, rejoins, m, f), f);
  }

  lemma LoopKeepsLater(jobs: seq<NodeJob>, at: map<string, nat>, f: nat)
    requires Later(jobs, at) && f < |jobs|
    ensures Sized(jobs, at)
    ensures WithLoop(jobs, at, f).Some? ==> Later(WithLoop(jobs, at, f).value, at)
    ensures WithLoop(jobs, at, f).Some? ==> forall i :: 0 <= i < |jobs| ==> WithLoop(jobs, at, f).value[i].def == jobs[i].def
  {
    var body := StrField(jobs[f].def.config, "body");
    if body in at {
      var bare := jobs[f := jobs[f].(dependents := RemoveStr(jobs[f].dependents, body))];
      var rejoins := bare[at[body]].dependents;
      var looped := bare[f := bare[f].(loop := Some(Loop(bare[at[body]], LoopVar(jobs[f].def.config), rejoins)))];
      RejoinsKeep(looped, at, f, body, rejoins, |rejoins|);
    }
  }

  lemma LoopKeepsSized(jobs: seq<NodeJob>, at: map<string, nat>, f: nat)
    requires Sized(jobs, at) && f < |jobs|
    ensures WithLoop(jobs, at, f).Some? ==> Sized(WithLoop(jobs, at, f).value, at)
  {
    var body := StrField(jobs[f].def.config, "body");
    if body in at {
      var bare := jobs[f := jobs[f].(dependents := RemoveStr(jobs[f].dependents, body))];
      var rejoins := bare[at[body]].dependents;
      var looped := bare[f := bare[f].(loop := Some(Loop(bare[at[body]], LoopVar(jobs[f].def.config), rejoins)))];
      RejoinsKeep(looped, at, f, body, rejoins, |rejoins|);
    }
  }

  /** The jobs once the schedulers among the first `n` nodes of the run order are set up. */
  function WithLoops(dag: seq<DagNode>, jobs: seq<NodeJob>, at: map<string, nat>, n: nat): (r: Option<seq<NodeJob>>)
    requires n <= |dag| == |jobs| && Later(jobs, at) && forall i: nat :: i < |dag| ==> dag[i].name in at
    ensures r.Some? ==> |r.value| == |jobs| && Later(r.value, at)
  {
    if n == 0 then Some(jobs)
    else
      match WithLoops(dag, jobs, at, n - 1)
      case None => None
      case Some(before) =>
        var f := at[dag[n - 1].name];
        if !dag[n - 1].nodeType.Foreach? then Some(before)
        else
          LoopKeepsLater(before, at, f);
          WithLoop(before, at, f)
  }

  // ----- nesting

  /** A job with its successors nested in it: each a complete copy of the successor's own tree. */
  function Nested(jobs: seq<NodeJob>, at: map<string, nat>, i: nat): NodeJob
    requires Later(jobs, at) && i < |jobs|
    decreases |jobs| - i, |jobs[i].dependents| + 1
  {
    var job := jobs[i];
    job.(downstream := job.downstream + NestedAll(jobs, at, i, |job.dependents|),
         loop := match job.loop
                 case None => None
                 case Some(l) =>
                   if l.body.nodeId in at && i < at[l.body.nodeId] then Some(l.(body := Nested(jobs, at, at[l.body.nodeId]))) else Some(l))
  }

  /** The trees of the first `m` dependents of the node at `i`. */
  function NestedAll(jobs: seq<NodeJob>, at: map<string, nat>, i: nat, m: nat): (r: seq<NodeJob>)
    requires Later(jobs, at) && i < |jobs| && m <= |jobs[i].dependents|
    ensures |r| == m
    decreases |jobs| - i, m
  {
    if m == 0 then [] else NestedAll(jobs, at, i, m - 1) + [Nested(jobs, at, at[jobs[i].dependents[m - 1]])]
  }

  lemma {:induction false} NestedAllAt(jobs: seq<NodeJob>, at: map<string, nat>, i: nat, m: nat, k: nat)
    requires Later(jobs, at) && i < |jobs| && k < m <= |jobs[i].dependents|
    ensures NestedAll(jobs, at, i, m)[k] == Nested(jobs, at, at[jobs[i].dependents[k]])
  {
    if k < m - 1 {
      NestedAllAt(jobs, at, i, m - 1, k);
    }
  }

  // ----- the whole

  /** The jobs with their dependents, before schedulers and nesting. */
  function Linked(w: Wafer, reg: Registry, dag: seq<DagNode>): (jobs: seq<NodeJob>)
    requires AllHandled(w, reg, dag)
    ensures |jobs| == |dag|
  {
    seq(|dag|, i requires 0 <= i < |dag| => Blank(w, reg, dag[i]).(dependents := DependentsOf(dag, Positions(dag, |dag|), |dag|, i)))
  }

  lemma {:induction false} DependentsAre(dag: seq<DagNode>, at: map<string, nat>, n: nat, j: nat)
    requires n <= |dag| && j < |dag|
    ensures forall x :: x in DependentsOf(dag, at, n, j) <==> exists i: nat :: i < n && DependsAt(dag, at, i, j) && dag[i].name == x
  {
    if n > 0 {
      DependentsAre(dag, at, n - 1, j);
    }
  }

  /** A reference always means a position before the node that makes it. */
  ghost predicate Backwards(dag: seq<DagNode>) {
    var at := Positions(dag, |dag|);
    forall i: nat, j: nat {:trigger DependsAt(dag, at, i, j)} :: i < |dag| && j < |dag| && DependsAt(dag, at, i, j) ==> j < i
  }

  lemma {:induction false} LinkedIsSized(w: Wafer, reg: Registry, dag: seq<DagNode>)
    requires AllHandled(w, reg, dag)
    ensures Sized(Linked(w, reg, dag), Positions(dag, |dag|))
  {
    var at := Positions(dag, |dag|);
    forall j: nat, x | j < |dag| && x in Linked(w, reg, dag)[j].dependents
      ensures x in at
    {
      DependentIsPlaced(dag, j, x);
    }
    forall name | name in at
      ensures at[name] < |dag|
    {
      PositionNames(dag, |dag|, name);
    }
  }

  lemma DependentIsPlaced(dag: seq<DagNode>, j: nat, x: string)
    requires j < |dag| && x in DependentsOf(dag, Positions(dag, |dag|), |dag|, j)
    ensures x in Positions(dag, |dag|)
  {
    hide DependsAt, DependentsOf;
    var at := Positions(dag, |dag|);
    DependentsAre(dag, at, |dag|, j);
    var i: nat :| i < |dag| && DependsAt(dag, at, i, j) && dag[i].name == x;
    PositionLast(dag, |dag|, i);
  }

  lemma {:induction false} LinkedIsLater(w: Wafer, reg: Registry, dag: seq<DagNode>)
    requires AllHandled(w, reg, dag)
    requires Backwards(dag)
    ensures Later(Linked(w, reg, dag), Positions(dag, |dag|))
  {
    forall j: nat, x | j < |dag| && x in Linked(w, reg, dag)[j].dependents
      ensures x in Positions(dag, |dag|) && j < Positions(dag, |dag|)[x]
    {
      DependentIsLater(dag, j, x);
    }
  }

  /** In a run order, a dependent comes later. */
  lemma DependentIsLater(dag: seq<DagNode>, j: nat, x: string)
    requires Backwards(dag) && j < |dag| && x in DependentsOf(dag, Positions(dag, |dag|), |dag|, j)
    ensures x in Positions(dag, |dag|) && j < Positions(dag, |dag|)[x]
  {
    hide DependsAt, DependentsOf;
    var at := Positions(dag, |dag|);
    DependentsAre(dag, at, |dag|, j);
    var i: nat :| i < |dag| && DependsAt(dag, at, i, j) && dag[i].name == x;
    PositionLast(dag, |dag|, i);
  }

  lemma AllPlaced(dag: seq<DagNode>)
    ensures forall i: nat :: i < |dag| ==> dag[i].name in Positions(dag, |dag|)
  {
    forall i: nat | i < |dag|
      ensures dag[i].name in Positions(dag, |dag|)
    {
      PositionLast(dag, |dag|, i);
    }
  }

  /** Compiling in a given run order. */
  function Compile(w: Wafer, reg: Registry, dag: seq<DagNode>, event: Json): Built
    requires Indexed(w, dag) && Backwards(dag)
  {
    if dag == [] then NoNodes
    else if !AllHandled(w, reg, dag) then NoHandler
    else
      var at := Positions(dag, |dag|);
      LinkedIsLater(w, reg, dag);
      AllPlaced(dag);
      match WithLoops(dag, Linked(w, reg, dag), at, |dag|)
      case None => UnknownBody
      case Some(jobs) => Head(Nested(jobs, at, 0).(input := MakeInput(event, map[])))
  }

  // ----- what the jobs carry

  /** The job carries what the Wafer says of its node `i`, and the command registered for it. */
  ghost predicate Carries(w: Wafer, reg: Registry, i: nat, job: NodeJob) {
    && i < |w.nodes|
    && var s, def := w.nodes[i], job.def;
    && def.workflowId == w.name && def.nodeName == s.name && def.nodeType == s.nodeType && def.config == s.config
    && reg(s) == Some(def.command) && def.secrets == s.secrets && def.dedupeKey == s.dedupeKey
  }

  lemma LinkedCarries(w: Wafer, reg: Registry, dag: seq<DagNode>, k: nat)
    requires RunOrder(w.nodes, dag) && AllHandled(w, reg, dag) && k < |dag|
    ensures dag[k].index < |w.nodes| && dag[k] == NodeAt(w.nodes, dag[k].index)
    ensures Carries(w, reg, dag[k].index, Linked(w, reg, dag)[k])
  {
    hide KnownDeps, Positions, DependentsOf;
    assert IsHandled(w, reg, dag[k]);
  }

  lemma SameDef(w: Wafer, reg: Registry, i: nat, job: NodeJob, same: NodeJob)
    requires Carries(w, reg, i, job) && same.def == job.def
    ensures Carries(w, reg, i, same)
  {
  }

  /** The job carries the node that its id stands for. */
  ghost predicate CarriesOwn(w: Wafer, reg: Registry, job: NodeJob) {
    exists i: nat {:trigger Carries(w, reg, i, job)} :: i < |w.nodes| && Carries(w, reg, i, job) && IdAt(w.nodes, i) == job.nodeId
  }

  /** So does every job nested in it, at every depth. */
  ghost predicate AllCarry(w: Wafer, reg: Registry, job: NodeJob) {
    && CarriesOwn(w, reg, job)
    && (forall d :: d in job.downstream ==> AllCarry(w, reg, d))
    && (job.loop.Some? ==> AllCarry(w, reg, job.loop.value.body))
  }

  ghost predicate AllOfAll(w: Wafer, reg: Registry, jobs: seq<NodeJob>) {
    forall i: nat :: i < |jobs| ==> AllCarry(w, reg, jobs[i])
  }

  /** Markers, dependents, input and run do not matter to it; jobs that carry their nodes may be nested. */
  lemma CarriesOn(w: Wafer, reg: Registry, job: NodeJob, same: NodeJob)
    requires CarriesOwn(w, reg, job) && same.def == job.def && same.nodeId == job.nodeId
    requires forall d :: d in same.downstream ==> AllCarry(w, reg, d)
    requires same.loop.Some? ==> AllCarry(w, reg, same.loop.value.body)
    ensures AllCarry(w, reg, same)
  {
    hide Carries;
    var i: nat :| i < |w.nodes| && Carries(w, reg, i, job) && IdAt(w.nodes, i) == job.nodeId;
    SameDef(w, reg, i, job, same);
  }

  lemma LinkedAllCarry(w: Wafer, reg: Registry, dag: seq<DagNode>)
    requires RunOrder(w.nodes, dag) && AllHandled(w, reg, dag)
    ensures AllOfAll(w, reg, Linked(w, reg, dag))
  {
    forall k: nat | k < |dag|
      ensures AllCarry(w, reg, Linked(w, reg, dag)[k])
    {
      LinkedCarries(w, reg, dag, k);
      hide Carries, KnownDeps, DependentsOf, Positions;
      assert Linked(w, reg, dag)[k].nodeId == IdAt(w.nodes, dag[k].index);
    }
  }

  lemma {:induction false} RejoinsCarry(w: Wafer, reg: Registry, jobs: seq<NodeJob>, at: map<string, nat>, f: nat,
          body: string, rejoins: seq<string>, m: nat)
    requires f < |jobs| && m <= |rejoins| && forall x :: x in rejoins ==> x in at && at[x] < |jobs|
    requires AllOfAll(w, reg, jobs)
    ensures AllOfAll(w, reg, WithRejoins(jobs, at, f, body, rejoins, m))
  {
    hide CarriesOwn;
    if m > 0 {
      RejoinsCarry(w, reg, jobs, at, f, body, rejoins, m - 1);
      var before := WithRejoins(jobs, at, f, body, rejoins, m - 1);
      var r := at[rejoins[m - 1]];
      var one := before[r].(collect := Some(Collect(body, LoopVar(jobs[f].def.config), 0, jobs[f].nodeId)));
      CarriesOn(w, reg, before[r], one);
      var marked := before[r := one];
      CarriesOn(w, reg, marked[f], marked[f].(downstream := marked[f].downstream + [marked[r]]));
    }
  }

  lemma LoopCarries(w: Wafer, reg: Registry, jobs: seq<NodeJob>, at: map<string, nat>, f: nat)
    requires f < |jobs| && Sized(jobs, at) && AllOfAll(w, reg, jobs)
    ensures WithLoop(jobs, at, f).Some? ==> AllOfAll(w, reg, WithLoop(jobs, at, f).value)
  {
    hide CarriesOwn;
    var body := StrField(jobs[f].def.config, "body");
    if body in at {
      var less := jobs[f].(dependents := RemoveStr(jobs[f].dependents, body));
      CarriesOn(w, reg, jobs[f], less);
      var bare := jobs[f := less];
      var rejoins := bare[at[body]].dependents;
      var carrier := bare[f].(loop := Some(Loop(bare[at[body]], LoopVar(jobs[f].def.config), rejoins)));
      CarriesOn(w, reg, bare[f], carrier);
      RejoinsCarry(w, reg, bare[f := carrier], at, f, body, rejoins, |rejoins|);
    }
  }

  lemma {:induction false} LoopsCarry(w: Wafer, reg: Registry, dag: seq<DagNode>, jobs: seq<NodeJob>, at: map<string, nat>,
          n: nat)
    requires n <= |dag| == |jobs| && Later(jobs, at) && forall i: nat :: i < |dag| ==> dag[i].name in at
    requires AllOfAll(w, reg, jobs)
    ensures WithLoops(dag, jobs, at, n).Some? ==> AllOfAll(w, reg, WithLoops(dag, jobs, at, n).value)
  {
    hide AllOfAll, WithLoop;
    if n > 0 {
      LoopsCarry(w, reg, dag, jobs, at, n - 1);
      if WithLoops(dag, jobs, at, n - 1).Some? && dag[n - 1].nodeType.Foreach? {
        var before := WithLoops(dag, jobs, at, n - 1).value;
        LoopKeepsLater(before, at, at[dag[n - 1].name]);
        LoopCarries(w, reg, before, at, at[dag[n - 1].name]);
      }
    }
  }

  lemma {:induction false} NestedCarries(w: Wafer, reg: Registry, jobs: seq<NodeJob>, at: map<string, nat>, i: nat)
    requires Later(jobs, at) && i < |jobs| && AllOfAll(w, reg, jobs)
    ensures AllCarry(w, reg, Nested(jobs, at, i))
    decreases |jobs| - i, |jobs[i].dependents| + 1
  {
    hide CarriesOwn;
    var job := jobs[i];
    NestedAllCarry(w, reg, jobs, at, i, |job.dependents|);
    if job.loop.Some? && job.loop.value.body.nodeId in at && i < at[job.loop.value.body.nodeId] {
      NestedCarries(w, reg, jobs, at, at[job.loop.value.body.nodeId]);
    }
    CarriesOn(w, reg, job, Nested(jobs, at, i));
  }

  lemma {:induction false} NestedAllCarry(w: Wafer, reg: Registry, jobs: seq<NodeJob>, at: map<string, nat>, i: nat, m: nat)
    requires Later(jobs, at) && i < |jobs| && m <= |jobs[i].dependents| && AllOfAll(w, reg, jobs)
    ensures forall d :: d in NestedAll(jobs, at, i, m) ==> AllCarry(w, reg, d)
    decreases |jobs| - i, m
  {
    hide AllCarry, AllOfAll;
    if m > 0 {
      NestedAllCarry(w, reg, jobs, at, i, m - 1);
      NestedCarries(w, reg, jobs, at, at[jobs[i].dependents[m - 1]]);
    }
  }

  /** In the compiled tree of any Wafer every job, at every depth, carries the node that its id stands for. */
  lemma CompiledCarries(w: Wafer, reg: Registry, dag: seq<DagNode>, event: Json)
    requires RunOrder(w.nodes, dag) && Indexed(w, dag) && Backwards(dag)
    ensures var built := Compile(w, reg, dag, event);
            built.Head? ==> AllCarry(w, reg, built.job) && built.job.input == MakeInput(event, map[])
  {
    hide AllCarry, AllOfAll, Nested, WithLoops, Linked, RunOrder, Backwards, Later, MakeInput;
    if dag != [] && AllHandled(w, reg, dag) {
      var at := Positions(dag, |dag|);
      LinkedIsLater(w, reg, dag);
      AllPlaced(dag);
      LinkedAllCarry(w, reg, dag);
      LoopsCarry(w, reg, dag, Linked(w, reg, dag), at, |dag|);
      var looped := WithLoops(dag, Linked(w, reg, dag), at, |dag|);
      if looped.Some? {
        NestedCarries(w, reg, looped.value, at, 0);
        WithInput(w, reg, Nested(looped.value, at, 0), MakeInput(event, map[]));
      }
    }
  }

  lemma WithInput(w: Wafer, reg: Registry, job: NodeJob, input: Input)
    requires AllCarry(w, reg, job)
    ensures AllCarry(w, reg, job.(input := input))
  {
    CarriesOn(w, reg, job, job.(input := input));
  }
}
