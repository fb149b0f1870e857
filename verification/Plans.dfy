/**
 The static shape a run follows: the job templates compiled from a Wafer, their dependencies, and the
 jobs that are seeded without waiting on a counter (the head, and the iterations of a foreach body).
 */
module Plans {
  import opened Values
  import opened Jobs
  import opened Runs

  datatype Plan = Plan(
    jobs: map<NodeId, NodeJob>,
    deps: map<NodeId, set<NodeId>>,
    seeds: map<NodeId, NodeJob>,
    rank: map<NodeId, nat>)

  predicate Distinct<T(==)>(s: seq<T>) {
    forall i, j :: 0 <= i < j < |s| ==> s[i] != s[j]
  }

  /** A template points at its dependents' own templates, index by index: a complete subtree. */
  ghost predicate Aligned(p: Plan, job: NodeJob) {
    && Distinct(job.dependents)
    && |job.downstream| == |job.dependents|
    && forall i :: 0 <= i < |job.dependents| ==>
         job.dependents[i] in p.jobs && job.downstream[i] == p.jobs[job.dependents[i]]
  }

  ghost predicate TemplateOk(p: Plan, n: NodeId)
    requires n in p.jobs
  {
    var job := p.jobs[n];
    && job.nodeId == n
    && !job.skip
    && (!job.def.nodeType.Foreach? ==> Aligned(p, job))
  }

  /** Dependencies are nodes of lower rank, and exactly the seeded nodes have none. */
  ghost predicate DepsOk(p: Plan, n: NodeId)
    requires n in p.jobs
  {
    && n in p.deps && n in p.rank
    && (n in p.seeds <==> p.deps[n] == {})
    && (n in p.seeds ==> p.seeds[n] == p.jobs[n].(input := p.seeds[n].input))
    && (forall d :: d in p.deps[n] ==> d in p.jobs && d in p.rank && p.rank[d] < p.rank[n])
  }

  /** Outside foreach schedulers, a node's dependents are exactly the nodes that depend on it. */
  ghost predicate EdgesOk(p: Plan, n: NodeId)
    requires n in p.jobs
  {
    !p.jobs[n].def.nodeType.Foreach? ==>
      forall m :: m in p.jobs && m in p.deps ==> (m in p.jobs[n].dependents <==> n in p.deps[m])
  }

  ghost predicate WfPlan(p: Plan) {
    && p.seeds.Keys <= p.jobs.Keys
    && (forall n {:trigger TemplateOk(p, n)} :: n in p.jobs ==> TemplateOk(p, n))
    && (forall n {:trigger DepsOk(p, n)} :: n in p.jobs ==> DepsOk(p, n))
    && (forall n {:trigger EdgesOk(p, n)} :: n in p.jobs ==> EdgesOk(p, n))
  }

  function DoneSet(h: seq<Completion>): set<NodeId> {
    set i | 0 <= i < |h| :: h[i].node
  }

  /** The latest entry of `h` that is one of `deps`, or -1. */
  function LastDep(deps: set<NodeId>, h: seq<Completion>): (r: int)
    ensures -1 <= r < |h|
    ensures r >= 0 ==> h[r].node in deps
    ensures forall j :: r < j < |h| ==> h[j].node !in deps
  {
    if h == [] then -1
    else if h[|h| - 1].node in deps then |h| - 1
    else LastDep(deps, h[..|h| - 1])
  }

  /**
   The job of node `n` after history `h`: its seed, or its template threaded from the dependency that
   finished last.
   */
  function JobFor(p: Plan, h: seq<Completion>, n: NodeId): NodeJob
    requires n in p.jobs && n in p.deps
  {
    if n in p.seeds then p.seeds[n]
    else
      var i := LastDep(p.deps[n], h);
      if i < 0 then p.jobs[n] else NextJob(h[i], p.jobs[n])
  }

  /** Taking one more element away lowers what is left by one, if it was there. */
  lemma SetMinusOne<T>(s: set<T>, done: set<T>, n: T)
    requires n !in done
    ensures |s - (done + {n})| == |s - done| - (if n in s then 1 else 0)
  {
    if n in s {
      assert s - done == (s - (done + {n})) + {n};
    } else {
      assert s - done == s - (done + {n});
    }
  }

  // ----- facts about histories

  lemma DoneSetAppend(h: seq<Completion>, c: Completion)
    ensures DoneSet(h + [c]) == DoneSet(h) + {c.node}
  {
    var h' := h + [c];
    forall n | n in DoneSet(h) + {c.node}
      ensures n in DoneSet(h')
    {
      if n == c.node {
        assert h'[|h|].node == n;
      } else {
        var i :| 0 <= i < |h| && h[i].node == n;
        assert h'[i].node == n;
      }
    }
  }

  /** Completing a node outside `deps` does not move the last dependency; one inside becomes it. */
  lemma LastDepAppend(deps: set<NodeId>, h: seq<Completion>, c: Completion)
    ensures LastDep(deps, h + [c]) == if c.node in deps then |h| else LastDep(deps, h)
  {
    assert (h + [c])[..|h|] == h;
  }

  lemma LastDepFound(deps: set<NodeId>, h: seq<Completion>)
    requires deps != {} && deps <= DoneSet(h)
    ensures LastDep(deps, h) >= 0
  {
    var d :| d in deps;
    assert d in DoneSet(h);
  }

  /** A node's job is settled once its dependencies are done: later completions do not change it. */
  lemma JobForStable(p: Plan, h: seq<Completion>, c: Completion, n: NodeId)
    requires n in p.jobs && n in p.deps
    requires p.deps[n] <= DoneSet(h) && c.node !in DoneSet(h)
    ensures JobFor(p, h + [c], n) == JobFor(p, h, n)
  {
    LastDepAppend(p.deps[n], h, c);
  }

  /** The node that becomes ready when `c` completes is threaded from `c`. */
  lemma JobForNext(p: Plan, h: seq<Completion>, c: Completion, n: NodeId)
    requires n in p.jobs && n in p.deps && n !in p.seeds
    requires c.node in p.deps[n]
    ensures JobFor(p, h + [c], n) == NextJob(c, p.jobs[n])
  {
    LastDepAppend(p.deps[n], h, c);
  }
}
