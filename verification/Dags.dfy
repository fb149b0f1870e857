/** Resolving a Wafer with arrays, counters and a queue, proved against the graph of its references. */
module Dags {
  import opened Values
  import opened Jobs
  import opened Plans
  import opened Wafers

  // ----- what is reported

  /** An earlier node is named like this one's identifier. */
  predicate DuplicateAt(nodes: seq<WaferNode>, i: nat)
    requires i < |nodes|
  {
    exists j :: 0 <= j < i && nodes[j].name == IdAt(nodes, i) != ""
  }

  /** The identifiers of the first `n` nodes that lie behind a cycle, in list order. */
  ghost function CycleNames(nodes: seq<WaferNode>, n: nat): seq<string>
    requires n <= |nodes|
  {
    if n == 0 then []
    else CycleNames(nodes, n - 1) + (if BehindCycle(GraphOf(nodes), n - 1) then [IdAt(nodes, n - 1)] else [])
  }

  ghost predicate IsIssue(nodes: seq<WaferNode>, x: Issue) {
    match x
    case DuplicateName(i) => i < |nodes| && DuplicateAt(nodes, i)
    case UnknownReference(i, d) => i < |nodes| && d in nodes[i].dependsOn && Lookup(nodes, d).None?
    case Circular(names) => HasCycle(GraphOf(nodes)) && names == CycleNames(nodes, |nodes|)
  }

  // ----- names

  lemma LookupNext(nodes: seq<WaferNode>, i: nat, name: string)
    requires i < |nodes|
    ensures Lookup(nodes[..i + 1], name) ==
            if name == "" then None
            else if Lookup(nodes[..i], name).Some? then Lookup(nodes[..i], name)
            else if nodes[i].name == name then Some(i) else None
  {
    assert nodes[..i + 1][..i] == nodes[..i];
  }

  lemma IdNotEmpty(nodes: seq<WaferNode>, i: nat)
    requires i < |nodes|
    ensures IdAt(nodes, i) != ""
  {
  }

  lemma DuplicateIff(nodes: seq<WaferNode>, i: nat)
    requires i < |nodes|
    ensures DuplicateAt(nodes, i) <==> Lookup(nodes[..i], IdAt(nodes, i)).Some?
  {
    IdNotEmpty(nodes, i);
    if Lookup(nodes[..i], IdAt(nodes, i)).Some? {
      var j := Lookup(nodes[..i], IdAt(nodes, i)).value;
      assert nodes[..i][j] == nodes[j];
    }
    if DuplicateAt(nodes, i) {
      var j :| 0 <= j < i && nodes[j].name == IdAt(nodes, i);
      assert nodes[..i][j] == nodes[j];
    }
  }

  /** Index the named nodes by name, the first of each name winning, and report the duplicates. */
  method IndexNames(nodes: seq<WaferNode>) returns (ids: seq<string>, indexByName: map<string, nat>, issues: seq<Issue>)
    ensures |ids| == |nodes| && forall i :: 0 <= i < |ids| ==> ids[i] == IdAt(nodes, i)
    ensures forall name :: name in indexByName <==> Lookup(nodes, name).Some?
    ensures forall name :: name in indexByName ==> Lookup(nodes, name) == Some(indexByName[name])
    ensures forall x :: x in issues <==> x.DuplicateName? && x.index < |nodes| && DuplicateAt(nodes, x.index)
  {
    hide DuplicateAt, Lookup;
    ids, indexByName, issues := [], map[], [];
    var i := 0;
    EmptyLookup(nodes);
    while i < |nodes|
      invariant 0 <= i <= |nodes| && |ids| == i && forall j :: 0 <= j < i ==> ids[j] == IdAt(nodes, j)
      invariant forall name :: name in indexByName <==> Lookup(nodes[..i], name).Some?
      invariant forall name :: name in indexByName ==> Lookup(nodes[..i], name) == Some(indexByName[name])
      invariant forall x :: x in issues <==> x.DuplicateName? && x.index < i && DuplicateAt(nodes, x.index)
    {
      var id := IdAt(nodes, i);
      ids := ids + [id];
      DuplicateIff(nodes, i);
      NamesNext(nodes, i, indexByName);
      if id in indexByName {
        issues := issues + [DuplicateName(i)];
      } else if nodes[i].name != "" {
        indexByName := indexByName[id := i];
      }
      i := i + 1;
    }
    assert nodes[..i] == nodes;
  }

  lemma EmptyLookup(nodes: seq<WaferNode>)
    ensures forall name :: Lookup(nodes[..0], name).None?
  {
  }

  lemma NamesNext(nodes: seq<WaferNode>, i: nat, indexByName: map<string, nat>)
    requires i < |nodes|
    requires forall name :: name in indexByName <==> Lookup(nodes[..i], name).Some?
    requires forall name :: name in indexByName ==> Lookup(nodes[..i], name) == Some(indexByName[name])
    ensures var id := IdAt(nodes, i);
            var after := if id in indexByName || nodes[i].name == "" then indexByName else indexByName[id := i];
            && (forall name :: name in after <==> Lookup(nodes[..i + 1], name).Some?)
            && (forall name :: name in after ==> Lookup(nodes[..i + 1], name) == Some(after[name]))
  {
    hide Lookup;
    forall name: string
      ensures Lookup(nodes[..i + 1], name) ==
              if name == "" then None
              else if Lookup(nodes[..i], name).Some? then Lookup(nodes[..i], name)
              else if nodes[i].name == name then Some(i) else None
    {
      LookupNext(nodes, i, name);
    }
    NoNameless(nodes[..i]);
  }

  lemma NoNameless(nodes: seq<WaferNode>)
    ensures Lookup(nodes, "").None?
  {
  }

  // ----- edges

  /** The nodes among the first `n` that depend on `d`, in list order. */
  function Succs(g: Graph, d: nat, n: nat): (r: seq<nat>)
    requires n <= |g|
    ensures forall i: nat :: i in r <==> i < n && d in g[i]
  {
    if n == 0 then [] else Succs(g, d, n - 1) + (if d in g[n - 1] then [n - 1] else [])
  }

  lemma {:induction false} SuccsDistinct(g: Graph, d: nat, n: nat)
    requires n <= |g|
    ensures Distinct(Succs(g, d, n))
  {
    if n > 0 {
      SuccsDistinct(g, d, n - 1);
      assert n - 1 !in Succs(g, d, n - 1);
    }
  }

  lemma KnownNext(nodes: seq<WaferNode>, refs: seq<string>, k: nat)
    requires k < |refs|
    ensures var before := KnownDeps(nodes, refs[..k]); var d := refs[k];
            KnownDeps(nodes, refs[..k + 1]) == if d in refs[..k] || Lookup(nodes, d).None? then before else before + [d]
  {
    assert refs[..k + 1][..k] == refs[..k];
  }

  /** A new resolved reference adds one predecessor that was not one before. */
  lemma PredsNext(nodes: seq<WaferNode>, known: seq<string>, d: string)
    requires d !in known && Lookup(nodes, d).Some?
    requires forall e :: e in known ==> Lookup(nodes, e).Some?
    ensures Lookup(nodes, d).value !in Preds(nodes, known)
    ensures Preds(nodes, known + [d]) == Preds(nodes, known) + {Lookup(nodes, d).value}
  {
  }

  /** Node `i`'s references: the resolved ones become edges, each once; the others are reported. */
  method AddReferences(nodes: seq<WaferNode>, indexByName: map<string, nat>, i: nat,
                       deps: array<seq<string>>, adj: array<seq<nat>>, indegree: array<int>)
    returns (issues: seq<Issue>)
    requires i < |nodes| && deps.Length == adj.Length == indegree.Length == |nodes|
    requires deps[i] == [] && indegree[i] == 0
    requires forall name :: name in indexByName <==> Lookup(nodes, name).Some?
    requires forall name :: name in indexByName ==> Lookup(nodes, name) == Some(indexByName[name])
    modifies deps, adj, indegree
    ensures forall j :: 0 <= j < |nodes| && j != i ==> deps[j] == old(deps[j]) && indegree[j] == old(indegree[j])
    ensures deps[i] == KnownDeps(nodes, nodes[i].dependsOn) && indegree[i] == |deps[i]|
    ensures forall d :: 0 <= d < |nodes| ==> adj[d] == old(adj[d]) + (if d in Preds(nodes, deps[i]) then [i] else [])
    ensures forall x :: x in issues <==> x.UnknownReference? && x.index == i && x.name in nodes[i].dependsOn && Lookup(nodes, x.name).None?
  {
    hide Lookup, KnownDeps, Preds;
    issues := [];
    var refs := nodes[i].dependsOn;
    var seen: set<string> := {};
    var k := 0;
    NoReferences(nodes, refs);
    while k < |refs|
      invariant 0 <= k <= |refs| && forall d :: d in seen <==> d in refs[..k]
      invariant forall j :: 0 <= j < |nodes| && j != i ==> deps[j] == old(deps[j]) && indegree[j] == old(indegree[j])
      invariant deps[i] == KnownDeps(nodes, refs[..k]) && indegree[i] == |deps[i]|
      invariant forall d :: 0 <= d < |nodes| ==> adj[d] == old(adj[d]) + (if d in Preds(nodes, deps[i]) then [i] else [])
      invariant forall x :: x in issues <==> x.UnknownReference? && x.index == i && x.name in refs[..k] && Lookup(nodes, x.name).None?
    {
      var dep := refs[k];
      KnownNext(nodes, refs, k);
      assert refs[..k + 1] == refs[..k] + [dep];
      k := k + 1;
      if dep in seen {
        continue;
      }
      seen := seen + {dep};
      if dep !in indexByName {
        issues := issues + [UnknownReference(i, dep)];
        continue;
      }
      var at := indexByName[dep];
      PredsNext(nodes, deps[i], dep);
      deps[i] := deps[i] + [dep];
      adj[at] := adj[at] + [i];
      indegree[i] := indegree[i] + 1;
    }
    assert refs[..k] == refs;
  }

  lemma NoReferences(nodes: seq<WaferNode>, refs: seq<string>)
    ensures KnownDeps(nodes, refs[..0]) == [] && Preds(nodes, []) == {}
  {
  }

  /** All edges, node by node. */
  method CollectReferences(nodes: seq<WaferNode>, indexByName: map<string, nat>)
    returns (deps: array<seq<string>>, adj: array<seq<nat>>, indegree: array<int>, issues: seq<Issue>)
    requires forall name :: name in indexByName <==> Lookup(nodes, name).Some?
    requires forall name :: name in indexByName ==> Lookup(nodes, name) == Some(indexByName[name])
    ensures fresh(deps) && fresh(adj) && fresh(indegree) && deps.Length == adj.Length == indegree.Length == |nodes|
    ensures forall i :: 0 <= i < |nodes| ==> deps[i] == KnownDeps(nodes, nodes[i].dependsOn) && indegree[i] == |GraphOf(nodes)[i]|
    ensures forall d :: 0 <= d < |nodes| ==> adj[d] == Succs(GraphOf(nodes), d, |nodes|)
    ensures forall x :: x in issues <==> x.UnknownReference? && IsIssue(nodes, x)
  {
    hide Lookup, KnownDeps, Preds, Succs;
    var n := |nodes|;
    ghost var g := GraphOf(nodes);
    deps := new seq<string>[n](_ => []);
    adj := new seq<nat>[n](_ => []);
    indegree := new int[n](_ => 0);
    issues := [];
    NoSuccs(g);
    var i := 0;
    while i < n
      invariant 0 <= i <= n && fresh(deps) && fresh(adj) && fresh(indegree)
      invariant forall j :: i <= j < n ==> deps[j] == [] && indegree[j] == 0
      invariant forall j :: 0 <= j < i ==> deps[j] == KnownDeps(nodes, nodes[j].dependsOn) && indegree[j] == |g[j]|
      invariant forall d :: 0 <= d < n ==> adj[d] == Succs(g, d, i)
      invariant forall x :: x in issues <==> x.UnknownReference? && x.index < i && IsIssue(nodes, x)
    {
      var unknown := AddReferences(nodes, indexByName, i, deps, adj, indegree);
      DegreeIs(nodes, i);
      SuccsNext(g, i);
      issues := issues + unknown;
      i := i + 1;
    }
  }

  lemma NoSuccs(g: Graph)
    ensures forall d :: Succs(g, d, 0) == []
  {
  }

  lemma SuccsNext(g: Graph, i: nat)
    requires i < |g|
    ensures forall d :: Succs(g, d, i + 1) == Succs(g, d, i) + (if d in g[i] then [i] else [])
  {
  }

  lemma DegreeIs(nodes: seq<WaferNode>, i: nat)
    requires i < |nodes|
    ensures |KnownDeps(nodes, nodes[i].dependsOn)| == |GraphOf(nodes)[i]|
  {
    PredsSize(nodes, KnownDeps(nodes, nodes[i].dependsOn));
  }

  // ----- the run order

  /** Kahn's state: the counters count the dependencies outside `done`, and `ready` is what they allow to run. */
  ghost predicate Counting(g: Graph, done: set<nat>, indegree: seq<int>) {
    |indegree| == |g| && forall i :: 0 <= i < |g| ==> indegree[i] == |g[i] - done|
  }

  ghost predicate ReadyIs(g: Graph, ready: seq<nat>, indegree: seq<int>) {
    && |indegree| == |g| && Distinct(ready)
    && (forall i: nat :: i in ready <==> i < |g| && indegree[i] == 0)
  }

  /** The counters with those of `lowered` already decremented for the node just taken. */
  ghost predicate Lowered(g: Graph, done: set<nat>, lowered: seq<nat>, indegree: seq<int>) {
    |indegree| == |g| && forall i :: 0 <= i < |g| ==> indegree[i] == |g[i] - done| - (if i in lowered then 1 else 0)
  }

  lemma LowerNext(g: Graph, done: set<nat>, n: nat, successors: seq<nat>, k: nat, indegree: seq<int>)
    requires n !in done && successors == Succs(g, n, |g|) && k < |successors|
    requires Lowered(g, done, successors[..k], indegree)
    ensures var m := successors[k];
            m < |indegree| && indegree[m] > 0 && Lowered(g, done, successors[..k + 1], indegree[m := indegree[m] - 1])
  {
    SuccsDistinct(g, n, |g|);
    var m := successors[k];
    assert m in successors;
    SuccIs(g, n, m);
    PrefixNext(successors, k);
    hide Succs, Distinct;
    assert |g[m] - done| > 0 by {
      assert n in g[m] - done;
    }
    forall i | 0 <= i < |g|
      ensures indegree[m := indegree[m] - 1][i] == |g[i] - done| - (if i in successors[..k + 1] then 1 else 0)
    {
      assert indegree[i] == |g[i] - done| - (if i in successors[..k] then 1 else 0);
    }
  }

  lemma SuccIs(g: Graph, n: nat, m: nat)
    requires m in Succs(g, n, |g|)
    ensures m < |g| && n in g[m]
  {
  }

  lemma PrefixNext(s: seq<nat>, k: nat)
    requires Distinct(s) && k < |s|
    ensures s[k] !in s[..k]
    ensures forall i: nat :: i in s[..k + 1] <==> i in s[..k] || i == s[k]
  {
    assert s[..k + 1] == s[..k] + [s[k]];
  }

  lemma AllLowered(g: Graph, done: set<nat>, n: nat, indegree: seq<int>)
    requires n !in done && Lowered(g, done, Succs(g, n, |g|), indegree)
    ensures Counting(g, done + {n}, indegree)
  {
    forall i | 0 <= i < |g|
      ensures indegree[i] == |g[i] - (done + {n})|
    {
      SetMinusOne(g[i], done, n);
    }
  }

  /** Decrement the counters of the nodes that depend on `n`; the ones that reach zero join the queue. */
  method Release(ghost g: Graph, successors: seq<nat>, indegree: array<int>, ghost done: set<nat>,
          ghost taken: seq<nat>, ghost n: nat, queue: seq<nat>)
    returns (longer: seq<nat>)
    requires indegree.Length == |g| && n !in done
    requires successors == Succs(g, n, |g|)
    requires Counting(g, done, indegree[..])
    requires ReadyIs(g, taken + queue, indegree[..])
    modifies indegree
    ensures Counting(g, done + {n}, indegree[..])
    ensures ReadyIs(g, taken + longer, indegree[..])
  {
    assert successors[..0] == [];
    longer := queue;
    var k := 0;
    assert Lowered(g, done, successors[..k], indegree[..]);
    hide Counting, Lowered, ReadyIs, Succs;
    while k < |successors|
      invariant 0 <= k <= |successors|
      invariant Lowered(g, done, successors[..k], indegree[..])
      invariant ReadyIs(g, taken + longer, indegree[..])
    {
      ghost var before := indegree[..];
      LowerNext(g, done, n, successors, k, before);
      var m := successors[k];
      StillReady(g, taken + longer, before, m);
      indegree[m] := indegree[m] - 1;
      assert indegree[..] == before[m := before[m] - 1];
      if indegree[m] == 0 {
        assert taken + (longer + [m]) == taken + longer + [m];
        longer := longer + [m];
      }
      k := k + 1;
    }
    assert successors[..k] == successors;
    AllLowered(g, done, n, indegree[..]);
  }

  lemma StillReady(g: Graph, ready: seq<nat>, before: seq<int>, m: nat)
    requires ReadyIs(g, ready, before) && m < |g| && before[m] > 0
    ensures m !in ready
    ensures before[m] > 1 ==> ReadyIs(g, ready, before[m := before[m] - 1])
    ensures before[m] == 1 ==> ReadyIs(g, ready + [m], before[m := before[m] - 1])
  {
    assert forall i: nat :: i < |g| && i != m ==> before[m := before[m] - 1][i] == before[i];
    assert forall i: nat :: i in ready + [m] <==> i in ready || i == m;
  }

  /** The nodes without dependencies, in list order. */
  method Roots(ghost g: Graph, indegree: array<int>) returns (queue: seq<nat>)
    requires indegree.Length == |g|
    ensures ReadyIs(g, queue, indegree[..])
  {
    queue := [];
    var i := 0;
    while i < indegree.Length
      invariant 0 <= i <= indegree.Length && Distinct(queue)
      invariant forall j: nat :: j in queue <==> j < i && indegree[j] == 0
    {
      if indegree[i] == 0 {
        queue := queue + [i];
      }
      i := i + 1;
    }
  }

  lemma PopKeepsOrder(g: Graph, order: seq<nat>, n: nat, queue: seq<nat>, indegree: seq<int>)
    requires InRange(g) && Topological(g, order) && Counting(g, Elements(order), indegree)
    requires ReadyIs(g, order + [n] + queue, indegree)
    ensures n < |g| && n !in Elements(order) && Topological(g, order + [n])
  {
    hide Elements;
    var ready := order + [n] + queue;
    assert ready[|order|] == n && n in ready;
    ReadyHasNone(g, Elements(order), indegree, ready, n);
    hide Counting, InRange;
    forall k | 0 <= k < |order|
      ensures order[k] != n
    {
      assert ready[k] != ready[|order|];
    }
    hide ReadyIs, Topological;
    OrderNext(g, order, n);
  }

  lemma OrderNext(g: Graph, order: seq<nat>, n: nat)
    requires Topological(g, order) && n < |g| && n !in order
    requires forall d :: d in g[n] ==> d in order
    ensures Topological(g, order + [n])
  {
    var after := order + [n];
    forall k | 0 <= k < |after|
      ensures forall d :: d in g[after[k]] ==> d in after[..k]
    {
      assert after[..k] == order[..k];
      assert order[..|order|] == order;
    }
  }

  /** A ready node waits on nothing. */
  lemma ReadyHasNone(g: Graph, done: set<nat>, indegree: seq<int>, ready: seq<nat>, n: nat)
    requires Counting(g, done, indegree) && ReadyIs(g, ready, indegree) && n in ready
    ensures n < |g| && forall d :: d in g[n] ==> d in done
  {
    NoneLeft(g[n], done);
  }

  lemma NoneLeft(s: set<nat>, done: set<nat>)
    requires |s - done| == 0
    ensures forall d :: d in s ==> d in done
  {
    assert s - done == {};
    assert forall d :: d in s ==> d !in s - done;
  }

  lemma OrderFits(g: Graph, order: seq<nat>)
    requires Topological(g, order)
    ensures |order| <= |g|
  {
    if |order| > |g| {
      Pigeonhole(order, |g|);
    }
  }

  /** With nothing ready left, the nodes outside the order are stuck. */
  lemma LeftIsStuck(g: Graph, order: seq<nat>, indegree: seq<int>)
    requires InRange(g) && Counting(g, Elements(order), indegree) && ReadyIs(g, order, indegree)
    ensures Stuck(g, LeftOut(g, order))
  {
    hide Elements, Below;
    forall i | i in LeftOut(g, order)
      ensures WaitsOn(g, LeftOut(g, order), i)
    {
      assert indegree[i] == |g[i] - Elements(order)| != 0;
      assert g[i] - Elements(order) != {};
      var d :| d in g[i] && d !in Elements(order);
      assert d in LeftOut(g, order);
    }
  }

  /** Kahn's algorithm: repeatedly run a node with no dependency left. */
  method Kahn(ghost g: Graph, adj: array<seq<nat>>, indegree: array<int>) returns (order: seq<nat>)
    requires InRange(g) && adj.Length == indegree.Length == |g|
    requires forall i :: 0 <= i < |g| ==> indegree[i] == |g[i]|
    requires forall d :: 0 <= d < |g| ==> adj[d] == Succs(g, d, |g|)
    modifies indegree
    ensures Topological(g, order) && Stuck(g, LeftOut(g, order))
    ensures forall i :: 0 <= i < |g| ==> (indegree[i] > 0 <==> i !in order)
  {
    hide Elements, Succs, Stuck, Topological, Counting, ReadyIs;
    order := [];
    var queue := Roots(g, indegree);
    NothingDone(g, indegree[..]);
    NothingOrdered(g);
    assert order + queue == queue;
    while |queue| > 0
      invariant Topological(g, order) && Counting(g, Elements(order), indegree[..]) && ReadyIs(g, order + queue, indegree[..])
      decreases |g| - |order|
    {
      var n := queue[0];
      ghost var before := order;
      assert order + queue == order + [n] + queue[1..];
      PopKeepsOrder(g, order, n, queue[1..], indegree[..]);
      order := order + [n];
      OrderFits(g, order);
      queue := Release(g, adj[n], indegree, Elements(before), order, n, queue[1..]);
      ElementsNext(before, n);
    }
    assert order + queue == order;
    LeftIsStuck(g, order, indegree[..]);
    CountersSay(g, order, indegree[..]);
  }

  lemma NothingOrdered(g: Graph)
    ensures Topological(g, [])
  {
  }

  lemma CountersSay(g: Graph, order: seq<nat>, indegree: seq<int>)
    requires Counting(g, Elements(order), indegree) && ReadyIs(g, order, indegree)
    ensures |indegree| == |g| && forall i :: 0 <= i < |g| ==> (indegree[i] > 0 <==> i !in order)
  {
    hide Elements;
  }

  lemma NothingDone(g: Graph, indegree: seq<int>)
    requires |indegree| == |g| && forall i :: 0 <= i < |g| ==> indegree[i] == |g[i]|
    ensures Counting(g, Elements([]), indegree)
  {
    assert Elements([]) == {};
    assert forall i :: 0 <= i < |g| ==> g[i] - {} == g[i];
  }

  lemma ElementsNext(order: seq<nat>, n: nat)
    ensures Elements(order + [n]) == Elements(order) + {n}
  {
  }

  // ----- the whole

  /** The resolved node at `i`. */
  function NodeAt(nodes: seq<WaferNode>, i: nat): DagNode
    requires i < |nodes|
  {
    DagNode(IdAt(nodes, i), nodes[i].nodeType, KnownDeps(nodes, nodes[i].dependsOn), i)
  }

  predicate Listed(dag: seq<DagNode>, i: nat) {
    exists k :: 0 <= k < |dag| && dag[k].index == i
  }

  /** A run order: every node of the list once, each after the nodes it depends on. */
  ghost predicate RunOrder(nodes: seq<WaferNode>, dag: seq<DagNode>) {
    && |dag| == |nodes|
    && (forall k :: 0 <= k < |dag| ==> dag[k].index < |nodes| && dag[k] == NodeAt(nodes, dag[k].index))
    && (forall i: nat {:trigger Listed(dag, i)} :: i < |nodes| ==> Listed(dag, i))
    && (forall k, l :: 0 <= k < l < |dag| ==> dag[k].index != dag[l].index)
    && (forall k, d :: 0 <= k < |dag| && d in dag[k].dependsOn ==> exists l :: 0 <= l < k && dag[l].name == d)
  }

  lemma GraphInRange(nodes: seq<WaferNode>)
    ensures InRange(GraphOf(nodes))
  {
  }

  lemma OrderIsRunOrder(nodes: seq<WaferNode>, order: seq<nat>, dag: seq<DagNode>)
    requires Topological(GraphOf(nodes), order) && |order| == |nodes|
    requires |dag| == |order| && forall k :: 0 <= k < |order| ==> dag[k] == NodeAt(nodes, order[k])
    ensures RunOrder(nodes, dag)
  {
    FullOrder(|nodes|, order);
    forall i: nat | i < |nodes|
      ensures Listed(dag, i)
    {
      assert i in order;
      var k :| 0 <= k < |order| && order[k] == i;
      assert dag[k].index == i;
    }
    forall k, d | 0 <= k < |dag| && d in dag[k].dependsOn
      ensures exists l :: 0 <= l < k && dag[l].name == d
    {
      var at := Lookup(nodes, d).value;
      assert at in GraphOf(nodes)[order[k]];
      var l :| 0 <= l < k && order[..k][l] == at;
      assert dag[l].name == d;
    }
  }

  /** The names to report, in list order. */
  method NamesLeft(nodes: seq<WaferNode>, ids: seq<string>, indegree: array<int>) returns (names: seq<string>)
    requires |ids| == |nodes| && forall i :: 0 <= i < |ids| ==> ids[i] == IdAt(nodes, i)
    requires indegree.Length == |nodes|
    requires forall i :: 0 <= i < |nodes| ==> (indegree[i] > 0 <==> BehindCycle(GraphOf(nodes), i))
    ensures names == CycleNames(nodes, |nodes|)
  {
    hide BehindCycle;
    names := [];
    var i := 0;
    while i < indegree.Length
      invariant 0 <= i <= indegree.Length && names == CycleNames(nodes, i)
    {
      if indegree[i] > 0 {
        names := names + [ids[i]];
      }
      i := i + 1;
    }
  }

  /**
   Resolve a Wafer. Exactly the duplicate names, the unknown references and, if there is a cycle, the nodes
   reachable from one are reported; without a cycle the nodes come back in a run order.
   */
  method ResolveDAG(nodes: seq<WaferNode>) returns (dag: seq<DagNode>, issues: seq<Issue>)
    ensures forall x :: x in issues <==> IsIssue(nodes, x)
    ensures if HasCycle(GraphOf(nodes)) then dag == [] else RunOrder(nodes, dag)
  {
    hide HasCycle, BehindCycle, Succs, LeftOut, KnownDeps, Lookup, DuplicateAt, Stuck, CycleNames, RunOrder;
    ghost var g := GraphOf(nodes);
    GraphInRange(nodes);
    var ids, indexByName, duplicates := IndexNames(nodes);
    var deps, adj, indegree, unknown := CollectReferences(nodes, indexByName);
    issues := duplicates + unknown;
    var order := Kahn(g, adj, indegree);
    OrderedIffFree(g, order);
    FullIffAcyclic(g, order);
    if |order| != |nodes| {
      var names := NamesLeft(nodes, ids, indegree);
      issues := issues + [Circular(names)];
      return [], issues;
    }
    dag := [];
    var k := 0;
    while k < |order|
      invariant 0 <= k <= |order| && |dag| == k
      invariant forall j :: 0 <= j < k ==> dag[j] == NodeAt(nodes, order[j])
    {
      var i := order[k];
      dag := dag + [DagNode(ids[i], nodes[i].nodeType, deps[i], i)];
      k := k + 1;
    }
    OrderIsRunOrder(nodes, order, dag);
  }

  // ----- unnamed nodes

  /** Two nodes share an identifier. */
  predicate SameId(nodes: seq<WaferNode>, i: nat, j: nat)
    requires i < j < |nodes|
  {
    IdAt(nodes, i) == IdAt(nodes, j)
  }

  /** An unnamed node whose position is the name of a later node. */
  predicate PositionTaken(nodes: seq<WaferNode>, i: nat, j: nat)
    requires i < j < |nodes|
  {
    nodes[i].name == "" && nodes[j].name == Itoa(i)
  }

  /** The duplicate check misses exactly one kind of clash: a node named like the position of an earlier unnamed one. */
  lemma ClashesMissed(nodes: seq<WaferNode>, i: nat, j: nat)
    requires i < j < |nodes| && !DuplicateAt(nodes, j)
    ensures SameId(nodes, i, j) <==> PositionTaken(nodes, i, j)
  {
    IdNotEmpty(nodes, j);
    if nodes[i].name == "" && nodes[j].name == "" && Itoa(i) == Itoa(j) {
      ItoaInjective(i, j);
    }
  }

  /** A node with nothing but a name. */
  function Bare(name: string): WaferNode {
    WaferNode(name, Switch, [], JNull, [], "")
  }

  /** Such a Wafer resolves without an issue. */
  lemma ClashResolves()
    ensures var nodes := [Bare(""), Bare("0")];
            SameId(nodes, 0, 1) && forall x :: !IsIssue(nodes, x)
  {
    var nodes := [Bare(""), Bare("0")];
    var g := GraphOf(nodes);
    assert g[0] == {} && g[1] == {};
    forall c
      ensures !OnCycle(g, c)
    {
    }
    assert nodes[1].name == Itoa(0);
    assert nodes[0].name != nodes[1].name;
    assert forall i :: 0 <= i < 2 ==> !DuplicateAt(nodes, i);
  }
}
