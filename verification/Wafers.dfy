/** Resolving a Wafer's nodes into a run order: names, references, and cycles. */
module Wafers {
  import opened Values
  import opened Jobs
  import opened Plans

  /** One entry of a Wafer's node list. A node without a name has the empty one. */
  datatype WaferNode = WaferNode(
    name: string,
    nodeType: NodeType,
    dependsOn: seq<string>,
    config: Json,
    secrets: seq<string>,
    dedupeKey: string)

  /** A node of the resolved graph; `index` is its position in the node list. */
  datatype DagNode = DagNode(name: string, nodeType: NodeType, dependsOn: seq<string>, index: nat)

  datatype Issue =
    | DuplicateName(index: nat)
    | UnknownReference(index: nat, name: string)
    | Circular(names: seq<string>)

  /** A node's effective identifier: its name, or its position when it has none. */
  function IdAt(nodes: seq<WaferNode>, i: nat): string
    requires i < |nodes|
  {
    if nodes[i].name != "" then nodes[i].name else Itoa(i)
  }

  /** The node a reference means: the first one of that name. Positions cannot be referred to. */
  function Lookup(nodes: seq<WaferNode>, name: string): (r: Option<nat>)
    ensures r.Some? ==> r.value < |nodes| && nodes[r.value].name == name != "" && forall i :: 0 <= i < r.value ==> nodes[i].name != name
    ensures r.None? <==> name == "" || forall i :: 0 <= i < |nodes| ==> nodes[i].name != name
  {
    if nodes == [] || name == "" then None
    else
      match Lookup(nodes[..|nodes| - 1], name)
      case Some(i) => Some(i)
      case None => if nodes[|nodes| - 1].name == name then Some(|nodes| - 1) else None
  }

  /** The distinct references that resolve, in order of first mention. */
  function KnownDeps(nodes: seq<WaferNode>, refs: seq<string>): (r: seq<string>)
    ensures forall d :: d in r <==> d in refs && Lookup(nodes, d).Some?
    ensures Distinct(r)
  {
    if refs == [] then []
    else
      var rest, d := refs[..|refs| - 1], refs[|refs| - 1];
      assert refs == rest + [d];
      var before := KnownDeps(nodes, rest);
      if d in rest || Lookup(nodes, d).None? then before else before + [d]
  }

  /** The nodes that resolved references mean. */
  function Preds(nodes: seq<WaferNode>, known: seq<string>): set<nat> {
    set d | d in known && Lookup(nodes, d).Some? :: Lookup(nodes, d).value
  }

  /** The resolved graph: for each node, the nodes it depends on. */
  type Graph = seq<set<nat>>

  function GraphOf(nodes: seq<WaferNode>): (g: Graph)
    ensures |g| == |nodes| && forall i :: 0 <= i < |g| ==> g[i] == Preds(nodes, KnownDeps(nodes, nodes[i].dependsOn))
  {
    seq(|nodes|, i requires 0 <= i < |nodes| => Preds(nodes, KnownDeps(nodes, nodes[i].dependsOn)))
  }

  lemma {:induction false} PredsSize(nodes: seq<WaferNode>, known: seq<string>)
    requires Distinct(known) && forall d :: d in known ==> Lookup(nodes, d).Some?
    ensures |Preds(nodes, known)| == |known|
  {
    if known == [] {
      assert Preds(nodes, known) == {};
    } else {
      var rest, d := known[..|known| - 1], known[|known| - 1];
      assert known == rest + [d];
      PredsSize(nodes, rest);
      assert d !in rest;
      assert Preds(nodes, known) == Preds(nodes, rest) + {Lookup(nodes, d).value};
    }
  }

  // ----- cycles

  /** A walk along dependencies: each step's source is a dependency of its target. */
  ghost predicate IsPath(g: Graph, p: seq<nat>) {
    && |p| > 0
    && (forall k :: 0 <= k < |p| ==> p[k] < |g|)
    && (forall k :: 0 <= k < |p| - 1 ==> p[k] in g[p[k + 1]])
  }

  ghost predicate Reaches(g: Graph, a: nat, b: nat) {
    exists p :: IsPath(g, p) && p[0] == a && p[|p| - 1] == b
  }

  ghost predicate OnCycle(g: Graph, a: nat) {
    a < |g| && exists b :: b in g[a] && Reaches(g, a, b)
  }

  ghost predicate BehindCycle(g: Graph, i: nat) {
    exists c :: OnCycle(g, c) && Reaches(g, c, i)
  }

  ghost predicate HasCycle(g: Graph) {
    exists c :: OnCycle(g, c)
  }

  ghost predicate InRange(g: Graph) {
    forall i :: 0 <= i < |g| ==> forall d :: d in g[i] ==> d < |g|
  }

  /** Every node of `order` comes after all its dependencies. */
  ghost predicate Topological(g: Graph, order: seq<nat>) {
    && Distinct(order)
    && (forall k :: 0 <= k < |order| ==> order[k] < |g|)
    && (forall k :: 0 <= k < |order| ==> forall d :: d in g[order[k]] ==> d in order[..k])
  }

  /** A path into an ordered node runs through earlier and earlier nodes. */
  lemma {:induction false} PathIsOrdered(g: Graph, order: seq<nat>, p: seq<nat>, at: nat) returns (from: nat)
    requires Topological(g, order) && IsPath(g, p) && at < |order| && order[at] == p[|p| - 1]
    ensures from <= at && order[from] == p[0]
  {
    if |p| == 1 {
      from := at;
    } else {
      var q := p[..|p| - 1];
      assert p[|p| - 2] in g[p[|p| - 1]];
      var before: nat :| before < at && order[..at][before] == p[|p| - 2];
      from := PathIsOrdered(g, order, q, before);
    }
  }

  /** No ordered node lies behind a cycle. */
  lemma OrderedIsFree(g: Graph, order: seq<nat>, at: nat)
    requires Topological(g, order) && at < |order|
    ensures !BehindCycle(g, order[at])
  {
    if BehindCycle(g, order[at]) {
      var c: nat :| OnCycle(g, c) && Reaches(g, c, order[at]);
      var p: seq<nat> :| IsPath(g, p) && p[0] == c && p[|p| - 1] == order[at];
      var from := PathIsOrdered(g, order, p, at);
      var b: nat :| b in g[c] && Reaches(g, c, b);
      var q: seq<nat> :| IsPath(g, q) && q[0] == c && q[|q| - 1] == b;
      var before: nat :| before < from && order[..from][before] == b;
      var again := PathIsOrdered(g, order, q, before);
    }
  }

  /** `i` still waits on a node of `rest`. */
  ghost predicate WaitsOn(g: Graph, rest: set<nat>, i: nat) {
    i < |g| && exists d :: d in g[i] && d in rest
  }

  /** Every node of `rest` waits on another one of them. */
  ghost predicate Stuck(g: Graph, rest: set<nat>) {
    forall i {:trigger WaitsOn(g, rest, i)} {:trigger i in rest} :: i in rest ==> WaitsOn(g, rest, i)
  }

  predicate DependsOn(g: Graph, a: nat, b: nat) {
    a < |g| && b in g[a]
  }

  /** Each node of `w` depends on the next. */
  predicate WalksBack(g: Graph, w: seq<nat>) {
    forall k :: 0 <= k < |w| - 1 ==> DependsOn(g, w[k], w[k + 1])
  }

  /** A walk from `i` back through stuck nodes, of any length. */
  lemma {:induction false} WalkBack(g: Graph, rest: set<nat>, i: nat, n: nat) returns (w: seq<nat>)
    requires Stuck(g, rest) && i in rest
    ensures |w| == n + 1 && w[0] == i && WalksBack(g, w)
    ensures forall k :: 0 <= k < |w| ==> w[k] in rest
  {
    if n == 0 {
      w := [i];
    } else {
      var v := WalkBack(g, rest, i, n - 1);
      assert WaitsOn(g, rest, v[n - 1]);
      var d :| d in g[v[n - 1]] && d in rest;
      w := v + [d];
    }
  }

  function Reversed(s: seq<nat>): (r: seq<nat>)
    ensures |r| == |s| && forall k :: 0 <= k < |s| ==> r[k] == s[|s| - 1 - k]
  {
    if s == [] then [] else Reversed(s[1..]) + [s[0]]
  }

  function Below(n: nat): (r: set<nat>)
    ensures forall i: nat :: i in r <==> i < n
    ensures |r| == n
  {
    if n == 0 then {} else Below(n - 1) + {n - 1}
  }

  function Elements(s: seq<nat>): (r: set<nat>)
    ensures forall x :: x in r <==> x in s
    ensures Distinct(s) ==> |r| == |s|
  {
    if s == [] then {}
    else
      var rest, last := s[..|s| - 1], s[|s| - 1];
      assert s == rest + [last];
      Elements(rest) + {last}
  }

  lemma {:induction false} SubsetSize(a: set<nat>, b: set<nat>)
    requires a <= b
    ensures |a| <= |b|
    ensures |a| == |b| ==> a == b
  {
    if a != {} {
      var x :| x in a;
      SubsetSize(a - {x}, b - {x});
      assert b == b - {x} + {x};
    } else if |b| == 0 {
      assert b == {};
    }
  }

  /** More than `n` numbers below `n` repeat one. */
  lemma Pigeonhole(s: seq<nat>, n: nat)
    requires |s| > n && forall k :: 0 <= k < |s| ==> s[k] < n
    ensures !Distinct(s)
  {
    assert Elements(s) <= Below(n);
    SubsetSize(Elements(s), Below(n));
  }

  lemma BackwardPath(g: Graph, w: seq<nat>, a: nat, b: nat)
    requires a <= b < |w| && WalksBack(g, w) && w[b] < |g|
    ensures Reaches(g, w[b], w[a])
  {
    var s := w[a..b + 1];
    var p := Reversed(s);
    forall k | 0 <= k < |p|
      ensures p[k] == w[b - k] && p[k] < |g|
    {
      assert s[|s| - 1 - k] == w[b - k];
      if k > 0 {
        assert DependsOn(g, w[b - k], w[b - k + 1]);
      }
    }
    forall k | 0 <= k < |p| - 1
      ensures p[k] in g[p[k + 1]]
    {
      assert DependsOn(g, w[b - k - 1], w[b - k - 1 + 1]);
    }
    assert IsPath(g, p);
  }

  /** A stuck node lies behind a cycle: walking back from it must come round. */
  lemma StuckIsBehind(g: Graph, rest: set<nat>, i: nat)
    requires Stuck(g, rest) && i in rest
    ensures BehindCycle(g, i)
  {
    var w := WalkBack(g, rest, i, |g|);
    InRest(g, rest, w);
    Pigeonhole(w, |g|);
    var a, b :| 0 <= a < b < |w| && w[a] == w[b];
    hide Reaches, Stuck, Distinct, WaitsOn;
    BackwardPath(g, w, a + 1, b);
    BackwardPath(g, w, 0, a);
    assert DependsOn(g, w[a], w[a + 1]);
    assert OnCycle(g, w[a]);
  }

  lemma InRest(g: Graph, rest: set<nat>, w: seq<nat>)
    requires Stuck(g, rest) && forall k :: 0 <= k < |w| ==> w[k] in rest
    ensures forall k :: 0 <= k < |w| ==> w[k] < |g|
  {
    forall k | 0 <= k < |w|
      ensures w[k] < |g|
    {
      assert WaitsOn(g, rest, w[k]);
    }
  }

  /** The nodes of the graph that the order leaves out. */
  function LeftOut(g: Graph, order: seq<nat>): set<nat> {
    Below(|g|) - Elements(order)
  }

  /** An order that leaves out only stuck nodes lists exactly the nodes not behind a cycle. */
  lemma OrderedIffFree(g: Graph, order: seq<nat>)
    requires Topological(g, order) && Stuck(g, LeftOut(g, order))
    ensures forall i: nat :: i < |g| ==> (i in order <==> !BehindCycle(g, i))
  {
    hide BehindCycle, Stuck, Topological;
    forall i: nat | i < |g|
      ensures i in order <==> !BehindCycle(g, i)
    {
      if i in order {
        var at: nat :| at < |order| && order[at] == i;
        OrderedIsFree(g, order, at);
      } else {
        StuckIsBehind(g, LeftOut(g, order), i);
      }
    }
  }

  lemma CycleIsBehind(g: Graph)
    ensures HasCycle(g) <==> exists i: nat :: i < |g| && BehindCycle(g, i)
  {
    if HasCycle(g) {
      var c: nat :| OnCycle(g, c);
      assert IsPath(g, [c]);
      assert Reaches(g, c, c);
      assert BehindCycle(g, c);
    }
  }

  lemma FullOrder(n: nat, order: seq<nat>)
    requires Distinct(order) && forall k :: 0 <= k < |order| ==> order[k] < n
    ensures |order| == n <==> forall i: nat :: i < n ==> i in order
  {
    hide Elements, Below;
    var listed, all := Elements(order), Below(n);
    assert |listed| == |order|;
    hide Distinct;
    assert listed <= all;
    SubsetSize(listed, all);
    if |order| == n {
      forall i: nat | i < n
        ensures i in order
      {
        assert i in all;
      }
    } else {
      assert listed != all;
      var i :| i in all && i !in listed;
      assert i !in order;
    }
  }

  /** The order is full exactly when there is no cycle. */
  lemma FullIffAcyclic(g: Graph, order: seq<nat>)
    requires Topological(g, order) && Stuck(g, LeftOut(g, order))
    ensures |order| == |g| <==> !HasCycle(g)
  {
    OrderedIffFree(g, order);
    CycleIsBehind(g);
    FullOrder(|g|, order);
    hide *;
  }
}
