/** Where a job's input and skip flag come from, in every schedule. */
module Lineage {
  import opened Values
  import opened Jobs
  import opened Runs
  import opened Plans
  import opened Invariant
  import opened Landing
  import opened Handlers
  import opened Steps
  import opened Outcomes

  /** Every node is named, none collects, and every seed carries the run's event and no steps. */
  ghost predicate Plainly(p: Plan, event: Json) {
    && (forall n {:trigger p.jobs[n]} :: n in p.jobs ==> n != "" && p.jobs[n].def.nodeName == n && p.jobs[n].collect.None?)
    && (forall n {:trigger p.seeds[n]} :: n in p.seeds ==>
          p.seeds[n].def.nodeName == n && p.seeds[n].collect.None? && n != "" && p.seeds[n].input == MakeInput(event, map[]))
  }

  /** The dependency path a job's input was threaded along: each time, the dependency that finished last. */
  ghost function PathTo(p: Plan, h: seq<Completion>, n: NodeId): seq<NodeId>
    requires n in p.deps
    decreases |h|
  {
    var i := LastDep(p.deps[n], h);
    if n in p.seeds || i < 0 || h[i].node !in p.deps then []
    else PathTo(p, h[..i], h[i].node) + [h[i].node]
  }

  /** A path from a seed to `n`, along dependencies. */
  ghost predicate IsPath(p: Plan, path: seq<NodeId>, n: NodeId) {
    && (forall i :: 0 <= i < |path| ==> path[i] in p.deps)
    && n in p.deps
    && (path == [] ==> n in p.seeds)
    && (path != [] ==> path[0] in p.seeds && path[|path| - 1] in p.deps[n])
    && (forall i :: 0 < i < |path| ==> path[i - 1] in p.deps[path[i]])
  }

  /** `steps` holds exactly the nodes of `path`, each with the result it completed with in `h`. */
  ghost predicate StepsAre(h: seq<Completion>, path: seq<NodeId>, steps: map<string, Json>) {
    && (forall m :: m in steps <==> m in path)
    && (forall m :: m in path ==> exists i :: 0 <= i < |h| && h[i].node == m && steps[m] == h[i].result)
  }

  /** What the last-finished dependency handed to `n`. */
  lemma LastEntry(p: Plan, h: seq<Completion>, n: NodeId) returns (i: nat)
    requires WfPlan(p) && HistoryOk(p, h)
    requires n in p.jobs && n in p.deps && n !in p.seeds && p.deps[n] <= DoneSet(h)
    ensures i < |h| && i == LastDep(p.deps[n], h) && h[i].node in p.deps[n]
    ensures JobFor(p, h, n) == NextJob(h[i], p.jobs[n])
    ensures EntryOk(p, h, i)
  {
    assert DepsOk(p, n);
    LastDepFound(p.deps[n], h);
    i := LastDep(p.deps[n], h);
    assert EntryOk(p, h, i);
  }

  lemma HistoryPrefix(p: Plan, h: seq<Completion>, i: nat)
    requires HistoryOk(p, h) && i <= |h|
    ensures HistoryOk(p, h[..i])
  {
    forall j | 0 <= j < i
      ensures EntryOk(p, h[..i], j)
    {
      assert EntryOk(p, h, j);
      assert h[..i][..j] == h[..j];
    }
  }

  lemma StepsExtend(h: seq<Completion>, i: nat, path: seq<NodeId>, steps: map<string, Json>)
    requires i < |h| && h[i].node !in DoneSet(h[..i])
    requires StepsAre(h[..i], path, steps)
    ensures StepsAre(h, path + [h[i].node], steps[h[i].node := h[i].result])
  {
    var steps', path' := steps[h[i].node := h[i].result], path + [h[i].node];
    forall m | m in path'
      ensures exists j :: 0 <= j < |h| && h[j].node == m && steps'[m] == h[j].result
    {
      if m in path {
        var j :| 0 <= j < |h[..i]| && h[..i][j].node == m && steps[m] == h[..i][j].result;
        assert m in DoneSet(h[..i]);
        assert h[j].node == m && steps'[m] == h[j].result;
      } else {
        assert h[i].node == m && steps'[m] == h[i].result;
      }
    }
  }

  /**
   Data lineage: the job of any node that has been enqueued carries the run's event unchanged, and its
   `steps` are exactly the nodes of one dependency path from a seed to it, each with its own result.
   */
  lemma {:induction false} JobLineage(p: Plan, h: seq<Completion>, n: NodeId, event: Json)
    requires WfPlan(p) && HistoryOk(p, h) && Plainly(p, event)
    requires n in p.jobs && n in p.deps && p.deps[n] <= DoneSet(h)
    ensures EventOf(JobFor(p, h, n).input) == event
    ensures IsPath(p, PathTo(p, h, n), n)
    ensures StepsAre(h, PathTo(p, h, n), StepsOf(JobFor(p, h, n).input))
    decreases |h|
  {
    if n !in p.seeds {
      var i := LastEntry(p, h, n);
      HistoryPrefix(p, h, i);
      JobLineage(p, h[..i], h[i].node, event);
      LineageStep(p, h, n, i, event);
    }
  }

  lemma LineageStep(p: Plan, h: seq<Completion>, n: NodeId, i: nat, event: Json)
    requires Plainly(p, event) && n in p.jobs && n in p.deps && n !in p.seeds
    requires i < |h| && i == LastDep(p.deps[n], h) && EntryOk(p, h, i)
    requires h[i].node in p.deps[n] && JobFor(p, h, n) == NextJob(h[i], p.jobs[n])
    requires EventOf(JobFor(p, h[..i], h[i].node).input) == event
    requires IsPath(p, PathTo(p, h[..i], h[i].node), h[i].node)
    requires StepsAre(h[..i], PathTo(p, h[..i], h[i].node), StepsOf(JobFor(p, h[..i], h[i].node).input))
    ensures EventOf(JobFor(p, h, n).input) == event
    ensures IsPath(p, PathTo(p, h, n), n)
    ensures StepsAre(h, PathTo(p, h, n), StepsOf(JobFor(p, h, n).input))
  {
    var d := h[i].node;
    var path := PathTo(p, h[..i], d);
    Threaded(p, h, n, i, event);
    hide StepsAre, IsPath, EntryOk, Plainly, JobFor, DoneSet, NextJob;
    StepsExtend(h, i, path, StepsOf(JobFor(p, h[..i], d).input));
    PathExtends(p, path, d, n);
    assert PathTo(p, h, n) == path + [d];
  }

  /** The input handed on adds the parent's result to the parent's own input. */
  lemma Threaded(p: Plan, h: seq<Completion>, n: NodeId, i: nat, event: Json)
    requires Plainly(p, event) && n in p.jobs && n in p.deps && i < |h| && EntryOk(p, h, i)
    requires JobFor(p, h, n) == NextJob(h[i], p.jobs[n])
    ensures var parent := JobFor(p, h[..i], h[i].node).input;
            && EventOf(JobFor(p, h, n).input) == EventOf(parent)
            && StepsOf(JobFor(p, h, n).input) == StepsOf(parent)[h[i].node := h[i].result]
    ensures h[i].node !in DoneSet(h[..i]) && h[i].node in p.deps
  {
    PlainJob(p, h[..i], h[i].node, event);
    var parent := JobFor(p, h[..i], h[i].node);
    hide JobFor, EventOf, StepsOf;
    assert h[i].input == parent.input && h[i].name == h[i].node;
  }

  lemma PathExtends(p: Plan, path: seq<NodeId>, d: NodeId, n: NodeId)
    requires IsPath(p, path, d) && n in p.deps && d in p.deps[n]
    ensures IsPath(p, path + [d], n)
  {
  }

  lemma PlainJob(p: Plan, h: seq<Completion>, n: NodeId, event: Json)
    requires Plainly(p, event) && n in p.jobs && n in p.deps
    ensures JobFor(p, h, n).def.nodeName == n && n != "" && !Assembles(JobFor(p, h, n))
  {
  }

  /** Data lineage of a run's outstanding jobs, in terms of the stored results. */
  lemma RunLineage(p: Plan, run: Run, id: nat, event: Json)
    requires RunInv(p, run) && Plainly(p, event) && id in run.queue
    ensures EventOf(run.queue[id].input) == event
    ensures var path := PathTo(p, run.history, run.queue[id].nodeId); var steps := StepsOf(run.queue[id].input);
            && IsPath(p, path, run.queue[id].nodeId)
            && (forall m :: m in steps <==> m in path)
            && (forall m :: m in steps ==> m in DoneSet(run.history) && m in run.results && steps[m] == run.results[m])
  {
    OpenNodes(p, run);
    JobLineage(p, run.history, run.queue[id].nodeId, event);
  }

  // ----- skipping

  /** A parent passed the skip on: it was skipped itself, or it is a switch that chose another branch. */
  ghost predicate PassesSkip(c: Completion, n: NodeId) {
    c.skipped || (c.routed.Some? && c.routed.value != n)
  }

  /** A switch somewhere above `n`. */
  ghost predicate SwitchAbove(p: Plan, n: NodeId)
    requires WfPlan(p) && n in p.jobs && n in p.deps && n in p.rank
    decreases p.rank[n]
  {
    assert DepsOk(p, n);
    exists d :: d in p.deps[n] && d in p.jobs && d in p.deps && d in p.rank && p.rank[d] < p.rank[n] &&
                (p.jobs[d].def.nodeType.Switch? || SwitchAbove(p, d))
  }

  /**
   The skip cascade, for the node completed at position `j` of any history. It was skipped only if some
   parent passed the skip on; if all its parents were skipped, it was skipped; and if its only parent is
   an executed switch, it ran exactly when the switch chose it.
   */
  lemma SkipCascade(p: Plan, h: seq<Completion>, j: nat)
    requires WfPlan(p) && HistoryOk(p, h) && j < |h|
    requires h[j].node !in p.seeds
    ensures h[j].node in p.deps
    ensures h[j].skipped ==> exists i :: 0 <= i < j && h[i].node in p.deps[h[j].node] && PassesSkip(h[i], h[j].node)
    ensures (forall i :: 0 <= i < j && h[i].node in p.deps[h[j].node] ==> h[i].skipped) ==> h[j].skipped
    ensures forall i :: 0 <= i < j && p.deps[h[j].node] == {h[i].node} && h[i].routed.Some? ==>
              (h[j].skipped <==> h[i].routed.value != h[j].node)
  {
    assert EntryOk(p, h, j);
    var n := h[j].node;
    HistoryPrefix(p, h, j);
    var i := LastEntry(p, h[..j], n);
    assert TemplateOk(p, n);
    assert h[..j][i] == h[i];
    assert h[j].skipped <==> PassesSkip(h[i], n);
    forall k | 0 <= k < j && p.deps[n] == {h[k].node} && h[k].routed.Some?
      ensures h[j].skipped <==> h[k].routed.value != n
    {
      assert h[..j][k] == h[k];
      SameEntry(p, h[..j], i, k);
      assert EntryOk(p, h, k);
    }
  }

  lemma SameEntry(p: Plan, h: seq<Completion>, i: nat, j: nat)
    requires HistoryOk(p, h) && i < |h| && j < |h| && h[i].node == h[j].node
    ensures i == j
  {
    if i < j {
      EarlierDiffers(p, h, i, j);
    } else if j < i {
      EarlierDiffers(p, h, j, i);
    }
  }

  lemma EarlierDiffers(p: Plan, h: seq<Completion>, i: nat, j: nat)
    requires HistoryOk(p, h) && i < j < |h|
    ensures h[i].node != h[j].node
  {
    assert EntryOk(p, h, j);
    assert h[..j][i] == h[i];
    assert h[i].node in DoneSet(h[..j]);
  }

  /** A node with no switch above it is never skipped. */
  lemma {:induction false} NoSwitchNoSkip(p: Plan, h: seq<Completion>, j: nat)
    requires WfPlan(p) && HistoryOk(p, h) && j < |h|
    requires h[j].node in p.jobs && h[j].node in p.deps && h[j].node in p.rank && !SwitchAbove(p, h[j].node)
    ensures !h[j].skipped
    decreases j
  {
    var n := h[j].node;
    assert EntryOk(p, h, j);
    assert DepsOk(p, n) && TemplateOk(p, n);
    if n !in p.seeds {
      SkipCascade(p, h, j);
      if h[j].skipped {
        var i :| 0 <= i < j && h[i].node in p.deps[n] && PassesSkip(h[i], n);
        assert EntryOk(p, h, i) && TemplateOk(p, h[i].node) && DepsOk(p, h[i].node);
        RoutedIsSwitch(p, h, i);
        NoSwitchNoSkip(p, h, i);
      }
    }
  }

  lemma RoutedIsSwitch(p: Plan, h: seq<Completion>, i: nat)
    requires WfPlan(p) && i < |h| && EntryOk(p, h, i)
    ensures h[i].routed.Some? ==> p.jobs[h[i].node].def.nodeType.Switch?
  {
    assert DepsOk(p, h[i].node);
  }
}
