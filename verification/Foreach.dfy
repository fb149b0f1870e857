/**
 Foreach as a plan rewrite: once the scheduler has fanned out, the run follows the plan in which the
 body is replaced by its iterations, and the run invariant holds for that plan.
 */
module ForeachRuns {
  import opened Values
  import opened Jobs
  import opened Runs
  import opened Plans
  import opened Invariant
  import opened Landing
  import opened Handlers
  import opened Preservation
  import opened Steps
  import opened Outcomes

  // ----- the jobs a fan-out builds

  /** The jobs carried downstream are named by `ids`, in order. */
  ghost predicate Named(ds: seq<NodeJob>, ids: seq<NodeId>) {
    |ds| == |ids| && Distinct(ids) && forall i :: 0 <= i < |ds| ==> ds[i].nodeId == ids[i]
  }

  lemma {:induction false} FindNamed(ds: seq<NodeJob>, ids: seq<NodeId>, k: nat)
    requires Named(ds, ids) && k < |ids|
    ensures FindJob(ds, ids[k]) == Some(k)
  {
    var i := FindJob(ds, ids[k]).value;
    assert ds[k].nodeId == ids[k];
    FindFirst(ds, ids[k], k);
  }

  lemma {:induction false} FindFirst(ds: seq<NodeJob>, id: NodeId, k: nat)
    requires k < |ds| && ds[k].nodeId == id
    requires forall j :: 0 <= j < k ==> ds[j].nodeId != id
    ensures FindJob(ds, id) == Some(k)
  {
    if k > 0 {
      FindFirst(ds[1..], id, k - 1);
    }
  }

  /** No earlier job carried downstream has the same id. */
  predicate FirstNamed(ds: seq<NodeJob>, k: nat)
    requires k < |ds|
  {
    forall j :: 0 <= j < k ==> ds[j].nodeId != ds[k].nodeId
  }

  lemma {:induction false} FoundFirst(ds: seq<NodeJob>, id: NodeId)
    ensures FindJob(ds, id).Some? ==> FirstNamed(ds, FindJob(ds, id).value)
  {
    if ds != [] && ds[0].nodeId != id {
      FoundFirst(ds[1..], id);
      if FindJob(ds, id).Some? {
        var k := FindJob(ds, id).value;
        forall j | 0 <= j < k
          ensures ds[j].nodeId != id
        {
          if j > 0 {
            assert ds[1..][j - 1] == ds[j];
          }
        }
      }
    }
  }

  /** Whatever the scheduler carries: marked are exactly the rejoins, where an id means the first job that has it. */
  lemma {:induction false} MarksExactly(ds: seq<NodeJob>, rejoins: seq<NodeId>, loop: Loop, count: nat)
    ensures forall i: nat :: i < |ds| ==>
              MarkRejoins(ds, rejoins, loop, count)[i] ==
              if ds[i].nodeId in rejoins && FirstNamed(ds, i) then Marked(ds[i], loop, count) else ds[i]
  {
    if rejoins != [] {
      var rest, x := rejoins[..|rejoins| - 1], rejoins[|rejoins| - 1];
      assert rejoins == rest + [x];
      MarksExactly(ds, rest, loop, count);
      var before := MarkRejoins(ds, rest, loop, count);
      FoundFirst(before, x);
      assert forall i: nat :: i < |ds| ==> before[i].nodeId == ds[i].nodeId;
      assert forall i: nat :: i < |ds| ==> FirstNamed(before, i) == FirstNamed(ds, i);
      MarkedOnce(ds, loop, count);
      hide Marked, MarkRejoins;
      MarkLast(ds, rest, x, loop, count);
      forall i: nat | i < |ds|
        ensures MarkRejoins(ds, rejoins, loop, count)[i] ==
                if ds[i].nodeId in rejoins && FirstNamed(ds, i) then Marked(ds[i], loop, count) else ds[i]
      {
        if FindJob(before, x).Some? && i != FindJob(before, x).value && ds[i].nodeId == x {
          SoleFirst(ds, i, FindJob(before, x).value);
        }
      }
    }
  }

  lemma SoleFirst(ds: seq<NodeJob>, i: nat, k: nat)
    requires i < |ds| && k < |ds| && i != k && ds[i].nodeId == ds[k].nodeId && FirstNamed(ds, k)
    ensures !FirstNamed(ds, i)
  {
  }

  lemma MarkedOnce(ds: seq<NodeJob>, loop: Loop, count: nat)
    ensures forall i: nat :: i < |ds| ==> Marked(Marked(ds[i], loop, count), loop, count) == Marked(ds[i], loop, count)
  {
  }

  lemma MarkLast(ds: seq<NodeJob>, rest: seq<NodeId>, x: NodeId, loop: Loop, count: nat)
    ensures var before := MarkRejoins(ds, rest, loop, count);
            MarkRejoins(ds, rest + [x], loop, count) ==
            match FindJob(before, x)
            case None => before
            case Some(k) => before[k := Marked(before[k], loop, count)]
  {
    assert (rest + [x])[..|rest|] == rest;
  }

  /** `r` holds, for the positions `at` of `rejoins`, the first job of `ds` with that id; at no other position is there one. */
  ghost predicate Finds(ds: seq<NodeJob>, rejoins: seq<NodeId>, at: seq<nat>, r: seq<NodeJob>) {
    && |at| == |r| && (forall j, k :: 0 <= j < k < |at| ==> at[j] < at[k])
    && (forall j :: 0 <= j < |at| ==>
          at[j] < |rejoins| && exists k: nat :: k < |ds| && FirstNamed(ds, k) && ds[k].nodeId == rejoins[at[j]] && r[j] == ds[k])
    && (forall p: nat :: p < |rejoins| && p !in at ==> forall k :: 0 <= k < |ds| ==> ds[k].nodeId != rejoins[p])
  }

  /** Whatever the scheduler carries: an iteration leads to exactly the rejoins that are found, in rejoin order. */
  lemma {:induction false} RejoinsExactly(ds: seq<NodeJob>, rejoins: seq<NodeId>) returns (at: seq<nat>)
    ensures Finds(ds, rejoins, at, RejoinJobs(ds, rejoins))
  {
    hide FirstNamed, FindJob;
    if rejoins == [] {
      at := [];
    } else {
      var n := |rejoins| - 1;
      var rest := rejoins[..n];
      at := RejoinsExactly(ds, rest);
      FoundFirst(ds, rejoins[n]);
      FindsMore(ds, rest, rejoins[n], at, RejoinJobs(ds, rest));
      assert rejoins == rest + [rejoins[n]];
      hide Finds;
      if FindJob(ds, rejoins[n]).Some? {
        at := at + [n];
      }
    }
  }

  lemma FindsMore(ds: seq<NodeJob>, rest: seq<NodeId>, x: NodeId, at: seq<nat>, r: seq<NodeJob>)
    requires Finds(ds, rest, at, r)
    ensures FindJob(ds, x).None? ==> Finds(ds, rest + [x], at, r)
    ensures FindJob(ds, x).Some? ==> Finds(ds, rest + [x], at + [|rest|], r + [ds[FindJob(ds, x).value]])
  {
    FoundFirst(ds, x);
    hide FirstNamed, FindJob;
    var all := rest + [x];
    assert forall p: nat :: p < |rest| ==> all[p] == rest[p];
    if FindJob(ds, x).Some? {
      var more := at + [|rest|];
      assert forall j :: 0 <= j < |at| ==> more[j] == at[j];
      assert more[|at|] == |rest|;
      assert forall p: nat :: p in more <==> p in at || p == |rest|;
    }
  }

  lemma {:induction false} MarkedAre(ds: seq<NodeJob>, ids: seq<NodeId>, loop: Loop, count: nat, k: nat)
    requires Named(ds, ids) && k <= |ids|
    ensures Named(MarkRejoins(ds, ids[..k], loop, count), ids)
    ensures forall i :: 0 <= i < |ds| ==>
              MarkRejoins(ds, ids[..k], loop, count)[i] == if i < k then Marked(ds[i], loop, count) else ds[i]
  {
    if k > 0 {
      MarkedAre(ds, ids, loop, count, k - 1);
      assert ids[..k][..k - 1] == ids[..k - 1];
      FindNamed(MarkRejoins(ds, ids[..k - 1], loop, count), ids, k - 1);
    }
  }

  lemma {:induction false} RejoinsAre(ds: seq<NodeJob>, ids: seq<NodeId>, k: nat)
    requires Named(ds, ids) && k <= |ids|
    ensures RejoinJobs(ds, ids[..k]) == ds[..k]
  {
    if k > 0 {
      RejoinsAre(ds, ids, k - 1);
      assert ids[..k][..k - 1] == ids[..k - 1];
      FindNamed(ds, ids, k - 1);
    }
  }

  /** Each iteration leads to the marked rejoins, index by index. */
  lemma IterationRejoins(ds: seq<NodeJob>, ids: seq<NodeId>, loop: Loop, count: nat)
    requires Named(ds, ids)
    ensures var r := RejoinJobs(MarkRejoins(ds, ids, loop, count), ids);
            |r| == |ds| && forall i :: 0 <= i < |ds| ==> r[i] == Marked(ds[i], loop, count)
  {
    MarkedAre(ds, ids, loop, count, |ids|);
    assert ids[..|ids|] == ids;
    RejoinsAre(MarkRejoins(ds, ids, loop, count), ids, |ids|);
  }

  // ----- the shape and the rewritten plan

  /**
   The foreach shape the engine supports: the body depends only on the scheduler and is its only
   dependent (which the scheduler does not list, since it is fanned out), each rejoin depends only on the body,
   and no node is named like an iteration.
   */
  ghost predicate ForeachShape(p: Plan, f: NodeId, b: NodeId) {
    && f in p.jobs && f in p.deps && b in p.jobs && b in p.deps
    && p.jobs[f].def.nodeType.Foreach? && !p.jobs[b].def.nodeType.Foreach?
    && p.jobs[f].loop.Some?
    && p.jobs[f].loop.value.body.nodeId == b && !p.jobs[f].loop.value.body.skip
    && p.jobs[f].loop.value.body.def == p.jobs[b].def
    && p.jobs[f].loop.value.rejoins == p.jobs[b].dependents
    && p.jobs[f].dependents == [] && p.jobs[f].downstream == p.jobs[b].downstream
    && p.deps[b] == {f}
    && (forall m :: m in p.deps && f in p.deps[m] ==> m == b)
    && (forall m :: m in p.jobs[b].dependents ==> m in p.deps && p.deps[m] == {b})
    && (forall i: nat :: IterId(b, i) !in p.jobs)
  }

  function IterIds(b: NodeId, n: nat): (r: set<NodeId>)
    ensures forall i: nat :: i < n ==> IterId(b, i) in r
    ensures forall x :: x in r ==> exists i: nat :: i < n && x == IterId(b, i)
  {
    if n == 0 then {} else IterIds(b, n - 1) + {IterId(b, n - 1)}
  }

  lemma {:induction false} IterIdsSize(b: NodeId, n: nat)
    ensures |IterIds(b, n)| == n
  {
    if n > 0 {
      IterIdsSize(b, n - 1);
      if IterId(b, n - 1) in IterIds(b, n - 1) {
        var i: nat :| i < n - 1 && IterId(b, n - 1) == IterId(b, i);
        IterIdInjective(b, n - 1, i);
      }
    }
  }

  /** The jobs of the iterations, by id. */
  function IterJobs(bodies: seq<NodeJob>): map<NodeId, NodeJob> {
    if bodies == [] then map[] else IterJobs(bodies[..|bodies| - 1])[bodies[|bodies| - 1].nodeId := bodies[|bodies| - 1]]
  }

  lemma {:induction false} IterJobsAre(bodies: seq<NodeJob>, b: NodeId)
    requires forall i :: 0 <= i < |bodies| ==> bodies[i].nodeId == IterId(b, i)
    ensures IterJobs(bodies).Keys == IterIds(b, |bodies|)
    ensures forall i :: 0 <= i < |bodies| ==> IterId(b, i) in IterJobs(bodies) && IterJobs(bodies)[IterId(b, i)] == bodies[i]
  {
    if bodies != [] {
      var n := |bodies| - 1;
      IterJobsAre(bodies[..n], b);
      forall i | 0 <= i < |bodies|
        ensures IterId(b, i) in IterJobs(bodies) && IterJobs(bodies)[IterId(b, i)] == bodies[i]
      {
        if IterId(b, i) == IterId(b, n) {
          IterIdInjective(b, i, n);
        } else {
          assert bodies[..n][i] == bodies[i];
        }
      }
    }
  }

  /** The plan after scheduler `job` fanned out: `b` is gone, its iterations are seeded, the rejoins wait for all of them. */
  ghost function Expand(p: Plan, b: NodeId, job: NodeJob, items: seq<Json>): Plan
    requires job.loop.Some? && b in p.rank
  {
    var loop := job.loop.value;
    var iters := IterJobs(BodyJobs(job, loop, items));
    Plan(
      Tabulate(p.jobs.Keys - {b}, n requires n in p.jobs =>
                 if n in loop.rejoins then Marked(p.jobs[n], loop, |items|) else p.jobs[n]) + iters,
      Tabulate(p.deps.Keys - {b}, n requires n in p.deps => if n in loop.rejoins then IterIds(b, |items|) else p.deps[n])
      + Tabulate(iters.Keys, n => {}),
      p.seeds + iters,
      p.rank + Tabulate(iters.Keys, n => p.rank[b]))
  }

  /** There is at least one item, unless nothing waits for the iterations. */
  predicate Feeds(items: seq<Json>, rejoins: seq<NodeId>) {
    items != [] || rejoins == []
  }

  /** A scheduler job of the supported shape, about to fan out over items that feed its rejoins. */
  ghost predicate Fans(p: Plan, f: NodeId, b: NodeId, job: NodeJob, items: seq<Json>) {
    && WfPlan(p) && ForeachShape(p, f, b)
    && b in p.rank && p.deps.Keys == p.jobs.Keys
    && job.nodeId == f && job.runId == p.jobs[f].runId && job.loop == p.jobs[f].loop && job.downstream == p.jobs[f].downstream
    && Feeds(items, p.jobs[b].dependents)
  }

  lemma FanFacts(p: Plan, f: NodeId, b: NodeId, job: NodeJob, items: seq<Json>)
    requires Fans(p, f, b, job, items)
    ensures job.loop.Some? && b in p.jobs && b in p.deps && b in p.rank && p.deps.Keys == p.jobs.Keys
  {
  }

  ghost function Iters(job: NodeJob, items: seq<Json>): map<NodeId, NodeJob>
    requires job.loop.Some?
  {
    IterJobs(BodyJobs(job, job.loop.value, items))
  }

  lemma BodyNamed(p: Plan, f: NodeId, b: NodeId)
    requires WfPlan(p) && ForeachShape(p, f, b)
    ensures Aligned(p, p.jobs[b]) && Named(p.jobs[b].downstream, p.jobs[b].dependents)
    ensures b !in p.jobs[b].dependents && f !in p.jobs[b].dependents && b != f
    ensures b in p.rank && f in p.rank && p.rank[f] < p.rank[b]
    ensures forall m :: m in p.jobs[b].dependents ==> m in p.jobs && m in p.rank && p.rank[b] < p.rank[m] && m !in p.seeds
  {
    var ds := p.jobs[b].dependents;
    assert TemplateOk(p, b) && DepsOk(p, b) && EdgesOk(p, b);
    forall i | 0 <= i < |ds|
      ensures p.jobs[b].downstream[i].nodeId == ds[i] && ds[i] in p.jobs && ds[i] in p.rank && p.rank[b] < p.rank[ds[i]] && ds[i] !in p.seeds
    {
      assert TemplateOk(p, ds[i]) && DepsOk(p, ds[i]);
      assert ds[i] in ds;
      assert p.deps[ds[i]] == {b};
    }
    assert forall m :: m in ds ==> exists i :: 0 <= i < |ds| && ds[i] == m;
    assert p.deps[b] == {f};
  }

  /** What each iteration is. */
  lemma ItersAre(p: Plan, f: NodeId, b: NodeId, job: NodeJob, items: seq<Json>)
    requires Fans(p, f, b, job, items)
    ensures Iters(job, items).Keys == IterIds(b, |items|)
    ensures forall i :: 0 <= i < |items| ==>
              && IterId(b, i) in Iters(job, items)
              && Iters(job, items)[IterId(b, i)] == BodyJobs(job, job.loop.value, items)[i]
              && BodyJobs(job, job.loop.value, items)[i].nodeId == IterId(b, i)
  {
    IterJobsAre(BodyJobs(job, job.loop.value, items), b);
  }

  lemma IterShape(p: Plan, f: NodeId, b: NodeId, job: NodeJob, items: seq<Json>, n: NodeId)
    requires Fans(p, f, b, job, items) && n in Iters(job, items)
    ensures var it := Iters(job, items)[n]; var ds := p.jobs[b].dependents;
            && it.nodeId == n && !it.skip && !it.def.nodeType.Foreach? && n !in p.jobs
            && it.def == p.jobs[b].def && it.runId == job.runId && it.dependents == ds && |it.downstream| == |ds|
            && (forall i :: 0 <= i < |ds| ==> ds[i] in p.jobs && it.downstream[i] == Marked(p.jobs[ds[i]], job.loop.value, |items|))
  {
    ItersAre(p, f, b, job, items);
    BodyNamed(p, f, b);
    var loop := job.loop.value;
    var i: nat :| i < |items| && n == IterId(b, i);
    IterationRejoins(p.jobs[b].downstream, p.jobs[b].dependents, loop, |items|);
    assert BodyJobs(job, loop, items)[i] == BodyJob(job, loop, MarkRejoins(job.downstream, loop.rejoins, loop, |items|), items, i);
  }

  /** The rewritten plan, entry by entry. */
  lemma ExpandAt(p: Plan, f: NodeId, b: NodeId, job: NodeJob, items: seq<Json>)
    requires Fans(p, f, b, job, items)
    ensures var p' := Expand(p, b, job, items); var iters := Iters(job, items); var ds := p.jobs[b].dependents;
            && p'.seeds == p.seeds + iters
            && (forall n :: n in p'.jobs <==> (n in p.jobs && n != b) || n in iters)
            && (forall n :: n in p'.deps <==> (n in p.jobs && n != b) || n in iters)
            && (forall n :: n in iters ==> p'.jobs[n] == iters[n] && p'.deps[n] == {} && n in p'.rank && p'.rank[n] == p.rank[b])
            && (forall n :: n in p.jobs && n != b && n !in iters ==>
                  && p'.jobs[n] == (if n in ds then Marked(p.jobs[n], job.loop.value, |items|) else p.jobs[n])
                  && p'.deps[n] == (if n in ds then IterIds(b, |items|) else p.deps[n]))
            && (forall n :: n in p.rank && n !in iters ==> n in p'.rank && p'.rank[n] == p.rank[n])
  {
    BodyNamed(p, f, b);
  }

  lemma ExpandedKeys(p: Plan, f: NodeId, b: NodeId, job: NodeJob, items: seq<Json>)
    requires Fans(p, f, b, job, items)
    ensures Expand(p, b, job, items).deps.Keys == Expand(p, b, job, items).jobs.Keys
  {
    ExpandAt(p, f, b, job, items);
  }

  lemma OldNode(p: Plan, f: NodeId, b: NodeId, job: NodeJob, items: seq<Json>, n: NodeId)
    requires Fans(p, f, b, job, items) && n in p.jobs && n != b
    ensures var p' := Expand(p, b, job, items); var joins := n in p.jobs[b].dependents;
            && n !in Iters(job, items)
            && n in p'.jobs && n in p'.deps && n in p.rank && n in p'.rank && p'.rank[n] == p.rank[n]
            && p'.jobs[n] == (if joins then Marked(p.jobs[n], job.loop.value, |items|) else p.jobs[n])
            && p'.deps[n] == (if joins then IterIds(b, |items|) else p.deps[n])
            && (n in p'.seeds <==> n in p.seeds) && (n in p.seeds ==> p'.seeds[n] == p.seeds[n])
  {
    ExpandAt(p, f, b, job, items);
    assert DepsOk(p, n);
    assert n !in Iters(job, items) by {
      if n in Iters(job, items) {
        IterShape(p, f, b, job, items, n);
      }
    }
  }

  lemma NewNode(p: Plan, f: NodeId, b: NodeId, job: NodeJob, items: seq<Json>, n: NodeId)
    requires Fans(p, f, b, job, items) && n in Iters(job, items)
    ensures var p' := Expand(p, b, job, items);
            && n !in p.jobs
            && n in p'.jobs && n in p'.deps && n in p'.rank && b in p.rank && p'.rank[n] == p.rank[b]
            && p'.jobs[n] == Iters(job, items)[n] && p'.deps[n] == {}
            && n in p'.seeds && p'.seeds[n] == Iters(job, items)[n]
  {
    ExpandAt(p, f, b, job, items);
    IterShape(p, f, b, job, items, n);
  }

  lemma NoOtherNode(p: Plan, f: NodeId, b: NodeId, job: NodeJob, items: seq<Json>, n: NodeId)
    requires Fans(p, f, b, job, items)
    requires n in Expand(p, b, job, items).jobs || n in Expand(p, b, job, items).deps
    ensures (n in p.jobs && n != b) || n in Iters(job, items)
  {
    ExpandAt(p, f, b, job, items);
  }

  lemma Rejoin(p: Plan, f: NodeId, b: NodeId, job: NodeJob, items: seq<Json>, n: NodeId)
    requires Fans(p, f, b, job, items) && n in p.jobs[b].dependents
    ensures n in p.jobs && n != b && n != f && n !in p.seeds && n in p.rank && p.rank[b] < p.rank[n] && p.deps[n] == {b}
  {
    BodyNamed(p, f, b);
  }

  lemma NewAligned(p: Plan, f: NodeId, b: NodeId, job: NodeJob, items: seq<Json>, n: NodeId)
    requires Fans(p, f, b, job, items) && n in Iters(job, items)
    ensures Aligned(Expand(p, b, job, items), Iters(job, items)[n])
  {
    hide Fans, Expand, Iters, Marked, IterIds, Distinct;
    FanFacts(p, f, b, job, items);
    BodyDistinct(p, f, b, job, items);
    IterShape(p, f, b, job, items, n);
    var p' := Expand(p, b, job, items);
    var ds := p.jobs[b].dependents;
    forall i | 0 <= i < |ds|
      ensures ds[i] in p'.jobs && p'.jobs[ds[i]] == Marked(p.jobs[ds[i]], job.loop.value, |items|)
    {
      RejoinMarked(p, f, b, job, items, ds[i]);
    }
  }

  lemma RejoinMarked(p: Plan, f: NodeId, b: NodeId, job: NodeJob, items: seq<Json>, r: NodeId)
    requires Fans(p, f, b, job, items) && r in p.jobs[b].dependents
    ensures b in p.rank && job.loop.Some? && r in p.jobs
    ensures r in Expand(p, b, job, items).jobs
    ensures Expand(p, b, job, items).jobs[r] == Marked(p.jobs[r], job.loop.value, |items|)
  {
    hide Fans, Expand, Iters, Marked, IterIds;
    FanFacts(p, f, b, job, items);
    Rejoin(p, f, b, job, items, r);
    OldNode(p, f, b, job, items, r);
  }

  lemma BodyDistinct(p: Plan, f: NodeId, b: NodeId, job: NodeJob, items: seq<Json>)
    requires Fans(p, f, b, job, items)
    ensures Distinct(p.jobs[b].dependents)
  {
    BodyNamed(p, f, b);
    hide Distinct;
  }

  lemma NewTemplate(p: Plan, f: NodeId, b: NodeId, job: NodeJob, items: seq<Json>, n: NodeId)
    requires Fans(p, f, b, job, items) && n in Iters(job, items)
    ensures n in Expand(p, b, job, items).jobs && TemplateOk(Expand(p, b, job, items), n)
  {
    FanFacts(p, f, b, job, items);
    hide Fans, Expand, Iters, Aligned;
    NewNode(p, f, b, job, items, n);
    IterShape(p, f, b, job, items, n);
    NewAligned(p, f, b, job, items, n);
  }

  lemma OldAligned(p: Plan, f: NodeId, b: NodeId, job: NodeJob, items: seq<Json>, n: NodeId)
    requires Fans(p, f, b, job, items) && n in p.jobs && n != b && !p.jobs[n].def.nodeType.Foreach?
    ensures Aligned(Expand(p, b, job, items), p.jobs[n])
  {
    FanFacts(p, f, b, job, items);
    assert WfPlan(p) && TemplateOk(p, n);
    var p' := Expand(p, b, job, items);
    var ds := p.jobs[n].dependents;
    hide Expand, Iters, IterIds, WfPlan, TemplateOk;
    forall i | 0 <= i < |ds|
      ensures ds[i] in p'.jobs && p'.jobs[ds[i]] == p.jobs[ds[i]]
    {
      assert ds[i] in ds;
      ElsewhereDependent(p, f, b, n, ds[i]);
      OldNode(p, f, b, job, items, ds[i]);
    }
  }

  lemma OldTemplate(p: Plan, f: NodeId, b: NodeId, job: NodeJob, items: seq<Json>, n: NodeId)
    requires Fans(p, f, b, job, items) && n in p.jobs && n != b
    ensures n in Expand(p, b, job, items).jobs && TemplateOk(Expand(p, b, job, items), n)
  {
    FanFacts(p, f, b, job, items);
    assert WfPlan(p) && TemplateOk(p, n);
    hide Fans, Expand, WfPlan, Aligned;
    OldNode(p, f, b, job, items, n);
    if !p.jobs[n].def.nodeType.Foreach? {
      OldAligned(p, f, b, job, items, n);
      MarkedAligned(Expand(p, b, job, items), p.jobs[n], job.loop.value, |items|);
    }
  }

  lemma MarkedAligned(p: Plan, job: NodeJob, loop: Loop, count: nat)
    requires Aligned(p, job)
    ensures Aligned(p, Marked(job, loop, count))
  {
  }

  /** The dependents of other nodes are neither the body nor its rejoins. */
  lemma ElsewhereDependent(p: Plan, f: NodeId, b: NodeId, n: NodeId, m: NodeId)
    requires WfPlan(p) && ForeachShape(p, f, b)
    requires n in p.jobs && n != b && !p.jobs[n].def.nodeType.Foreach? && m in p.jobs[n].dependents
    ensures m in p.jobs && m != b && m !in p.jobs[b].dependents
  {
    assert TemplateOk(p, n) && EdgesOk(p, n);
    var i :| 0 <= i < |p.jobs[n].dependents| && p.jobs[n].dependents[i] == m;
    assert DepsOk(p, m);
    assert n in p.deps[m];
  }

  lemma IterKeys(p: Plan, f: NodeId, b: NodeId, job: NodeJob, items: seq<Json>)
    requires Fans(p, f, b, job, items)
    ensures Iters(job, items).Keys == IterIds(b, |items|)
    ensures p.jobs[b].dependents != [] ==> IterIds(b, |items|) != {}
  {
    ItersAre(p, f, b, job, items);
    if items != [] {
      assert IterId(b, 0) in IterIds(b, |items|);
    }
  }

  lemma RejoinDeps(p: Plan, f: NodeId, b: NodeId, job: NodeJob, items: seq<Json>, n: NodeId)
    requires Fans(p, f, b, job, items) && n in p.jobs[b].dependents
    ensures n in Expand(p, b, job, items).jobs && DepsOk(Expand(p, b, job, items), n)
  {
    FanFacts(p, f, b, job, items);
    hide Fans, Expand, Iters, IterIds, Marked;
    var p' := Expand(p, b, job, items);
    Rejoin(p, f, b, job, items, n);
    OldNode(p, f, b, job, items, n);
    IterKeys(p, f, b, job, items);
    forall d | d in IterIds(b, |items|)
      ensures d in p'.jobs && d in p'.rank && p'.rank[d] < p'.rank[n]
    {
      NewNode(p, f, b, job, items, d);
    }
  }

  lemma OldDeps(p: Plan, f: NodeId, b: NodeId, job: NodeJob, items: seq<Json>, n: NodeId)
    requires Fans(p, f, b, job, items) && n in p.jobs && n != b && n !in p.jobs[b].dependents
    ensures n in Expand(p, b, job, items).jobs && DepsOk(Expand(p, b, job, items), n)
  {
    var p' := Expand(p, b, job, items);
    OldNode(p, f, b, job, items, n);
    assert DepsOk(p, n) && EdgesOk(p, b);
    SameSeed(p, f, b, job, items, n);
    hide Fans, Expand, Iters, IterIds;
    forall d | d in p.deps[n]
      ensures d in p'.jobs && d in p'.rank && p'.rank[d] < p'.rank[n]
    {
      OldNode(p, f, b, job, items, d);
    }
  }

  lemma SameSeed(p: Plan, f: NodeId, b: NodeId, job: NodeJob, items: seq<Json>, n: NodeId)
    requires Fans(p, f, b, job, items) && n in p.jobs && n != b && n !in p.jobs[b].dependents
    ensures n in p.deps && b !in p.deps[n]
  {
    assert EdgesOk(p, b);
  }

  lemma NewDeps(p: Plan, f: NodeId, b: NodeId, job: NodeJob, items: seq<Json>, n: NodeId)
    requires Fans(p, f, b, job, items) && n in Iters(job, items)
    ensures n in Expand(p, b, job, items).jobs && DepsOk(Expand(p, b, job, items), n)
  {
    FanFacts(p, f, b, job, items);
    hide Fans, Expand, Iters;
    NewNode(p, f, b, job, items, n);
  }

  /** Whether node `m` of the rewritten plan waits for `n`, for each origin of the two. */
  lemma ExpandEdge(p: Plan, f: NodeId, b: NodeId, job: NodeJob, items: seq<Json>, n: NodeId, m: NodeId)
    requires Fans(p, f, b, job, items)
    requires var p' := Expand(p, b, job, items); n in p'.jobs && m in p'.jobs && m in p'.deps
    requires !Expand(p, b, job, items).jobs[n].def.nodeType.Foreach?
    ensures m in Expand(p, b, job, items).jobs[n].dependents <==> n in Expand(p, b, job, items).deps[m]
  {
    NoOtherNode(p, f, b, job, items, n);
    NoOtherNode(p, f, b, job, items, m);
    ItersAre(p, f, b, job, items);
    if n in Iters(job, items) {
      NewNode(p, f, b, job, items, n);
      IterShape(p, f, b, job, items, n);
      if m in Iters(job, items) {
        NewNode(p, f, b, job, items, m);
        if m in p.jobs[b].dependents {
          Rejoin(p, f, b, job, items, m);
        }
      } else {
        OldNode(p, f, b, job, items, m);
        assert DepsOk(p, m);
      }
    } else {
      OldNode(p, f, b, job, items, n);
      assert EdgesOk(p, n);
      if m in Iters(job, items) {
        NewNode(p, f, b, job, items, m);
        if m in p.jobs[n].dependents {
          ElsewhereDependent(p, f, b, n, m);
        }
      } else {
        OldNode(p, f, b, job, items, m);
        if m in p.jobs[b].dependents {
          Rejoin(p, f, b, job, items, m);
        }
      }
    }
  }

  lemma ExpandEdges(p: Plan, f: NodeId, b: NodeId, job: NodeJob, items: seq<Json>, n: NodeId)
    requires Fans(p, f, b, job, items) && n in Expand(p, b, job, items).jobs
    ensures EdgesOk(Expand(p, b, job, items), n)
  {
    var p' := Expand(p, b, job, items);
    hide Fans, Expand;
    if !p'.jobs[n].def.nodeType.Foreach? {
      forall m | m in p'.jobs && m in p'.deps
        ensures m in p'.jobs[n].dependents <==> n in p'.deps[m]
      {
        ExpandEdge(p, f, b, job, items, n, m);
      }
    }
  }

  lemma ExpandSeeds(p: Plan, f: NodeId, b: NodeId, job: NodeJob, items: seq<Json>)
    requires Fans(p, f, b, job, items)
    ensures Expand(p, b, job, items).seeds.Keys <= Expand(p, b, job, items).jobs.Keys
  {
    ExpandAt(p, f, b, job, items);
    assert DepsOk(p, b);
  }

  /** The rewritten plan is a plan. */
  lemma ExpandWf(p: Plan, f: NodeId, b: NodeId, job: NodeJob, items: seq<Json>)
    requires Fans(p, f, b, job, items)
    ensures WfPlan(Expand(p, b, job, items))
  {
    hide Fans, Expand, TemplateOk, DepsOk, EdgesOk;
    FanFacts(p, f, b, job, items);
    var p' := Expand(p, b, job, items);
    ExpandSeeds(p, f, b, job, items);
    forall n | n in p'.jobs
      ensures TemplateOk(p', n) && DepsOk(p', n) && EdgesOk(p', n)
    {
      ExpandNode(p, f, b, job, items, n);
    }
  }

  lemma ExpandNode(p: Plan, f: NodeId, b: NodeId, job: NodeJob, items: seq<Json>, n: NodeId)
    requires Fans(p, f, b, job, items) && n in Expand(p, b, job, items).jobs
    ensures var p' := Expand(p, b, job, items); TemplateOk(p', n) && DepsOk(p', n) && EdgesOk(p', n)
  {
    FanFacts(p, f, b, job, items);
    hide Fans, Expand, Iters, TemplateOk, DepsOk, EdgesOk;
    NoOtherNode(p, f, b, job, items, n);
    ExpandEdges(p, f, b, job, items, n);
    if n in Iters(job, items) {
      NewTemplate(p, f, b, job, items, n);
      NewDeps(p, f, b, job, items, n);
    } else {
      OldTemplate(p, f, b, job, items, n);
      if n in p.jobs[b].dependents {
        RejoinDeps(p, f, b, job, items, n);
      } else {
        OldDeps(p, f, b, job, items, n);
      }
    }
  }

  // ----- the invariant across the rewrite

  /** A claimed scheduler, taken out of its place and about to enter the history. */
  ghost predicate Scheduling(p: Plan, h: seq<Completion>, f: NodeId, b: NodeId, job: NodeJob, items: seq<Json>,
          c: Completion) {
    && Fans(p, f, b, job, items)
    && HistoryOk(p, h)
    && c.node == f && Outstanding(p, h, f) && OutcomeOk(JobFor(p, h, f), c)
  }

  /** Until the scheduler completes, its body and rejoins are blocked. */
  lemma BodyBlocked(p: Plan, h: seq<Completion>, f: NodeId, b: NodeId, job: NodeJob, items: seq<Json>, c: Completion,
          n: NodeId)
    requires Scheduling(p, h, f, b, job, items, c)
    requires n in DoneSet(h) || Outstanding(p, h, n)
    ensures n in p.jobs && n in p.deps && n != b && n !in p.jobs[b].dependents
  {
    if n in DoneSet(h) {
      HistoryClosed(p, h, n);
    }
    if b in DoneSet(h) {
      HistoryClosed(p, h, b);
    }
  }

  /** Nodes outside the rewritten part keep their job and their dependencies. */
  lemma UntouchedJob(p: Plan, h: seq<Completion>, f: NodeId, b: NodeId, job: NodeJob, items: seq<Json>, n: NodeId)
    requires Fans(p, f, b, job, items) && n in p.jobs && n != b && n !in p.jobs[b].dependents
    ensures var p' := Expand(p, b, job, items);
            n in p'.jobs && n in p'.deps && p'.deps[n] == p.deps[n] && JobFor(p', h, n) == JobFor(p, h, n)
  {
    FanFacts(p, f, b, job, items);
    hide Fans, Expand, Iters, Marked, NextJob;
    OldNode(p, f, b, job, items, n);
  }

  lemma UntouchedOutstanding(p: Plan, h: seq<Completion>, f: NodeId, b: NodeId, job: NodeJob, items: seq<Json>,
          c: Completion, n: NodeId)
    requires Scheduling(p, h, f, b, job, items, c) && Outstanding(p, h, n)
    ensures var p' := Expand(p, b, job, items);
            && Outstanding(p', h, n) && JobFor(p', h, n) == JobFor(p, h, n)
            && (n != f ==> Outstanding(p', h + [c], n) && JobFor(p', h + [c], n) == JobFor(p, h, n))
  {
    var p' := Expand(p, b, job, items);
    BodyBlocked(p, h, f, b, job, items, c, n);
    hide Fans, Expand, HistoryOk, OutcomeOk;
    UntouchedJob(p, h, f, b, job, items, n);
    if n != f {
      hide JobFor;
      StillOutstanding(p', h, c, n);
    }
  }

  lemma ExpandHistory(p: Plan, h: seq<Completion>, f: NodeId, b: NodeId, job: NodeJob, items: seq<Json>, c: Completion)
    requires Scheduling(p, h, f, b, job, items, c)
    ensures HistoryOk(Expand(p, b, job, items), h + [c])
  {
    var p' := Expand(p, b, job, items);
    forall i | 0 <= i < |h|
      ensures EntryOk(p', h, i)
    {
      assert h[i].node in DoneSet(h);
      BodyBlocked(p, h, f, b, job, items, c, h[i].node);
      hide Expand, OutcomeOk, JobFor;
      assert EntryOk(p, h, i);
      UntouchedJob(p, h[..i], f, b, job, items, h[i].node);
    }
    UntouchedOutstanding(p, h, f, b, job, items, c, f);
    hide Expand, Fans, EntryOk, OutcomeOk, JobFor;
    LandHistory(p', h, c);
  }

  lemma {:induction false} SetRemainingSpec(remaining: map<NodeId, int>, ids: seq<NodeId>, n: int)
    requires forall d :: d in ids ==> d in remaining
    ensures SetRemaining(remaining, ids, n).Keys == remaining.Keys
    ensures forall d :: d in remaining ==> SetRemaining(remaining, ids, n)[d] == if d in ids then n else remaining[d]
  {
    if ids != [] {
      SetRemainingSpec(remaining, ids[..|ids| - 1], n);
      assert ids == ids[..|ids| - 1] + [ids[|ids| - 1]];
    }
  }

  lemma ExpandCounts(p: Plan, h: seq<Completion>, remaining: map<NodeId, int>, f: NodeId, b: NodeId, job: NodeJob,
          items: seq<Json>, c: Completion)
    requires Scheduling(p, h, f, b, job, items, c) && CountsOk(p, h, remaining)
    ensures CountsOk(Expand(p, b, job, items), h + [c], SetRemaining(remaining, job.loop.value.rejoins, |items|))
  {
    FanFacts(p, f, b, job, items);
    var p' := Expand(p, b, job, items);
    var ds := p.jobs[b].dependents;
    assert ds == job.loop.value.rejoins;
    RejoinsCounted(p, h, remaining, f, b, job, items);
    SetRemainingSpec(remaining, ds, |items|);
    DoneSetAppend(h, c);
    assert p.deps[b] == {f};
    forall n | n in p'.jobs && n in p'.deps && n !in p'.seeds
      ensures n in remaining && SetRemaining(remaining, ds, |items|)[n] == |p'.deps[n] - DoneSet(h + [c])|
    {
      ExpandCount(p, h, remaining, f, b, job, items, c, n);
    }
  }

  lemma RejoinsCounted(p: Plan, h: seq<Completion>, remaining: map<NodeId, int>, f: NodeId, b: NodeId, job: NodeJob,
          items: seq<Json>)
    requires Fans(p, f, b, job, items) && CountsOk(p, h, remaining)
    ensures forall d :: d in p.jobs[b].dependents ==> d in remaining
  {
    forall d | d in p.jobs[b].dependents
      ensures d in remaining
    {
      Rejoin(p, f, b, job, items, d);
    }
  }

  lemma RejoinCount(p: Plan, h: seq<Completion>, f: NodeId, b: NodeId, job: NodeJob, items: seq<Json>, c: Completion,
          n: NodeId)
    requires Scheduling(p, h, f, b, job, items, c) && n in p.jobs[b].dependents
    ensures n in Expand(p, b, job, items).deps && |Expand(p, b, job, items).deps[n] - DoneSet(h + [c])| == |items|
  {
    hide Fans, Expand, DoneSet, IterIds, Iters, Marked, HistoryOk, OutcomeOk, Outstanding, JobFor;
    FanFacts(p, f, b, job, items);
    ItersNotDone(p, h, f, b, job, items, c);
    Rejoin(p, f, b, job, items, n);
    OldNode(p, f, b, job, items, n);
    IterIdsSize(b, |items|);
    assert IterIds(b, |items|) - DoneSet(h + [c]) == IterIds(b, |items|);
  }

  lemma OtherCount(p: Plan, h: seq<Completion>, f: NodeId, b: NodeId, job: NodeJob, items: seq<Json>, c: Completion,
          n: NodeId)
    requires Fans(p, f, b, job, items) && c.node == f
    requires n in p.jobs && n != b && n !in p.jobs[b].dependents
    ensures n in Expand(p, b, job, items).deps && n in p.deps
    ensures Expand(p, b, job, items).deps[n] - DoneSet(h + [c]) == p.deps[n] - DoneSet(h)
  {
    FanFacts(p, f, b, job, items);
    OnlyBody(p, f, b, job, items);
    DoneSetAppend(h, c);
    hide Fans, Expand, DoneSet, IterIds, Iters, Marked;
    OldNode(p, f, b, job, items, n);
    assert f !in p.deps[n];
  }

  lemma ExpandCount(p: Plan, h: seq<Completion>, remaining: map<NodeId, int>, f: NodeId, b: NodeId, job: NodeJob,
          items: seq<Json>, c: Completion, n: NodeId)
    requires Scheduling(p, h, f, b, job, items, c) && CountsOk(p, h, remaining)
    requires var p' := Expand(p, b, job, items); n in p'.jobs && n in p'.deps && n !in p'.seeds
    ensures n in remaining
    ensures |Expand(p, b, job, items).deps[n] - DoneSet(h + [c])| == if n in p.jobs[b].dependents then |items| else remaining[n]
  {
    FanFacts(p, f, b, job, items);
    hide Fans, Expand, DoneSet, IterIds, Iters, Marked, HistoryOk, OutcomeOk, Outstanding, JobFor;
    NoOtherNode(p, f, b, job, items, n);
    if n in Iters(job, items) {
      NewNode(p, f, b, job, items, n);
    } else if n in p.jobs[b].dependents {
      RejoinsCounted(p, h, remaining, f, b, job, items);
      RejoinCount(p, h, f, b, job, items, c, n);
    } else {
      OldNode(p, f, b, job, items, n);
      OtherCount(p, h, f, b, job, items, c, n);
    }
  }

  lemma OnlyBody(p: Plan, f: NodeId, b: NodeId, job: NodeJob, items: seq<Json>)
    requires Fans(p, f, b, job, items)
    ensures forall n :: n in p.deps && n != b ==> f !in p.deps[n]
  {
  }

  lemma ItersNotDone(p: Plan, h: seq<Completion>, f: NodeId, b: NodeId, job: NodeJob, items: seq<Json>, c: Completion)
    requires Scheduling(p, h, f, b, job, items, c)
    ensures IterIds(b, |items|) !! DoneSet(h + [c])
  {
    DoneSetAppend(h, c);
    forall n | n in DoneSet(h + [c])
      ensures n in p.jobs
    {
      if n in DoneSet(h) {
        HistoryClosed(p, h, n);
      }
    }
    hide DoneSet;
  }

  /** The jobs after the fan-out: the old ones, untouched, and the iterations, seeded. */
  lemma ExpandToken(p: Plan, h: seq<Completion>, queue: map<nat, NodeJob>, f: NodeId, b: NodeId, job: NodeJob,
          items: seq<Json>, c: Completion,
                    base: nat, k: nat)
    requires Scheduling(p, h, f, b, job, items, c) && TokensOk(p, h, queue) && !HasToken(queue, f)
    requires forall k :: k in queue ==> k < base
    requires k in queue + NewTokens(base, BodyJobs(job, job.loop.value, items))
    ensures var p' := Expand(p, b, job, items); var t := (queue + NewTokens(base, BodyJobs(job, job.loop.value, items)))[k];
            && Outstanding(p', h + [c], t.nodeId) && t == JobFor(p', h + [c], t.nodeId)
            && (k < base ==> k in queue && t == queue[k] && t.nodeId in p.jobs)
            && (k >= base ==> k - base < |items| && t.nodeId == IterId(b, k - base) && t.nodeId !in p.jobs)
  {
    var bodies := BodyJobs(job, job.loop.value, items);
    NewTokensAt(base, bodies);
    if k < base {
      UntouchedOutstanding(p, h, f, b, job, items, c, queue[k].nodeId);
    } else {
      FanFacts(p, f, b, job, items);
      ItersAre(p, f, b, job, items);
      ItersNotDone(p, h, f, b, job, items, c);
      hide Fans, Expand, Iters, BodyJobs, TokensOk, HistoryOk, OutcomeOk, NewTokens, DoneSet;
      NewNode(p, f, b, job, items, IterId(b, k - base));
    }
  }

  lemma ExpandTokens(p: Plan, h: seq<Completion>, queue: map<nat, NodeJob>,
                     f: NodeId, b: NodeId, job: NodeJob, items: seq<Json>, c: Completion, base: nat)
    requires Scheduling(p, h, f, b, job, items, c)
    requires TokensOk(p, h, queue) && !HasToken(queue, f)
    requires forall k :: k in queue ==> k < base
    ensures TokensOk(Expand(p, b, job, items), h + [c], queue + NewTokens(base, BodyJobs(job, job.loop.value, items)))
  {
    hide Expand, BodyJobs, NewTokens, JobFor, Fans, OutcomeOk, HistoryOk, DoneSet, HasToken, Scheduling;
    SchedulingFans(p, h, f, b, job, items, c);
    var queue' := queue + NewTokens(base, BodyJobs(job, job.loop.value, items));
    var p' := Expand(p, b, job, items);
    forall k | k in queue'
      ensures Outstanding(p', h + [c], queue'[k].nodeId) && queue'[k] == JobFor(p', h + [c], queue'[k].nodeId)
    {
      ExpandToken(p, h, queue, f, b, job, items, c, base, k);
    }
  }

  /** After the fan-out a job is an old one of a known node, or an iteration, whose id is new. */
  ghost predicate Placed(known: set<NodeId>, queue: map<nat, NodeJob>, queue': map<nat, NodeJob>, b: NodeId,
          base: nat, k: nat) {
    k in queue' ==>
      && (k < base ==> k in queue && queue'[k] == queue[k] && queue[k].nodeId in known)
      && (k >= base ==> queue'[k].nodeId == IterId(b, k - base) && queue'[k].nodeId !in known)
  }

  lemma ExpandPlaced(p: Plan, h: seq<Completion>, queue: map<nat, NodeJob>, f: NodeId, b: NodeId, job: NodeJob,
          items: seq<Json>, c: Completion,
                     base: nat, k: nat)
    requires Scheduling(p, h, f, b, job, items, c) && TokensOk(p, h, queue) && !HasToken(queue, f)
    requires forall k :: k in queue ==> k < base
    ensures Placed(p.jobs.Keys, queue, queue + NewTokens(base, BodyJobs(job, job.loop.value, items)), b, base, k)
  {
    if k in queue + NewTokens(base, BodyJobs(job, job.loop.value, items)) {
      ExpandToken(p, h, queue, f, b, job, items, c, base, k);
    }
  }

  lemma ExpandExclusive(p: Plan, h: seq<Completion>, queue: map<nat, NodeJob>, parked: map<NodeId, Continuation>,
                        f: NodeId, b: NodeId, job: NodeJob, items: seq<Json>, c: Completion, base: nat)
    requires Scheduling(p, h, f, b, job, items, c)
    requires TokensOk(p, h, queue) && !HasToken(queue, f) && Exclusive(queue, parked)
    requires forall n :: n in parked ==> n in p.jobs
    requires forall k :: k in queue ==> k < base
    ensures Exclusive(queue + NewTokens(base, BodyJobs(job, job.loop.value, items)), parked)
  {
    FanFacts(p, f, b, job, items);
    hide Placed, Exclusive, Scheduling, TokensOk, HasToken, BodyJobs, NewTokens;
    var queue' := queue + NewTokens(base, BodyJobs(job, job.loop.value, items));
    forall k: nat
      ensures Placed(p.jobs.Keys, queue, queue', b, base, k)
    {
      ExpandPlaced(p, h, queue, f, b, job, items, c, base, k);
    }
    NewlyExclusive(queue, queue', parked, p.jobs.Keys, b, base);
  }

  lemma NewlyExclusive(queue: map<nat, NodeJob>, queue': map<nat, NodeJob>, parked: map<NodeId, Continuation>,
          known: set<NodeId>, b: NodeId, base: nat)
    requires Exclusive(queue, parked)
    requires forall n :: n in parked ==> n in known
    requires forall k: nat :: Placed(known, queue, queue', b, base, k)
    ensures Exclusive(queue', parked)
  {
    forall k, k' | k in queue' && k' in queue' && queue'[k].nodeId == queue'[k'].nodeId
      ensures k == k'
    {
      assert Placed(known, queue, queue', b, base, k) && Placed(known, queue, queue', b, base, k');
      if k >= base && k' >= base {
        IterIdInjective(b, k - base, k' - base);
      }
    }
    forall k | k in queue'
      ensures queue'[k].nodeId !in parked
    {
      assert Placed(known, queue, queue', b, base, k);
    }
  }

  lemma ExpandParked(p: Plan, h: seq<Completion>, parked: map<NodeId, Continuation>, f: NodeId, b: NodeId,
          job: NodeJob, items: seq<Json>, c: Completion)
    requires Scheduling(p, h, f, b, job, items, c) && ParkedOk(p, h, parked) && f !in parked
    ensures ParkedOk(Expand(p, b, job, items), h + [c], parked)
  {
    hide Expand, JobFor, Fans, HistoryOk, OutcomeOk, DoneSet, Scheduling;
    SchedulingFans(p, h, f, b, job, items, c);
    var p' := Expand(p, b, job, items);
    forall n | n in parked
      ensures Outstanding(p', h + [c], n) && JobFor(p', h + [c], n) == JobFor(p, h, n)
    {
      UntouchedOutstanding(p, h, f, b, job, items, c, n);
    }
  }

  lemma SchedulingFans(p: Plan, h: seq<Completion>, f: NodeId, b: NodeId, job: NodeJob, items: seq<Json>, c: Completion)
    requires Scheduling(p, h, f, b, job, items, c)
    ensures job.loop.Some? && b in p.rank && Fans(p, f, b, job, items) && c.node == f
  {
    FanFacts(p, f, b, job, items);
    hide Fans;
  }

  lemma ParkedNodes(p: Plan, h: seq<Completion>, parked: map<NodeId, Continuation>)
    requires ParkedOk(p, h, parked)
    ensures forall n :: n in parked ==> n in p.jobs
  {
  }

  lemma IterCovered(p: Plan, f: NodeId, b: NodeId, job: NodeJob, items: seq<Json>, queue: map<nat, NodeJob>,
          base: nat, n: NodeId)
    requires Fans(p, f, b, job, items) && n in Iters(job, items)
    ensures HasToken(queue + NewTokens(base, BodyJobs(job, job.loop.value, items)), n)
  {
    ItersAre(p, f, b, job, items);
    NewTokensAt(base, BodyJobs(job, job.loop.value, items));
    var i: nat :| i < |items| && n == IterId(b, i);
    assert (queue + NewTokens(base, BodyJobs(job, job.loop.value, items)))[base + i].nodeId == n;
  }

  lemma StillToken(queue: map<nat, NodeJob>, base: nat, bodies: seq<NodeJob>, n: NodeId)
    requires HasToken(queue, n)
    requires forall k :: k in queue ==> k < base
    ensures HasToken(queue + NewTokens(base, bodies), n)
  {
    NewTokensAt(base, bodies);
    var k :| k in queue && queue[k].nodeId == n;
    assert (queue + NewTokens(base, bodies))[k].nodeId == n;
  }

  lemma ExpandCovered(p: Plan, h: seq<Completion>, queue: map<nat, NodeJob>, parked: map<NodeId, Continuation>,
                      f: NodeId, b: NodeId, job: NodeJob, items: seq<Json>, c: Completion, base: nat)
    requires Scheduling(p, h, f, b, job, items, c) && Covered(p, h, queue, parked, {f})
    requires forall k :: k in queue ==> k < base
    ensures Covered(Expand(p, b, job, items), h + [c], queue + NewTokens(base, BodyJobs(job, job.loop.value, items)), parked, {})
  {
    FanFacts(p, f, b, job, items);
    var p' := Expand(p, b, job, items);
    var bodies := BodyJobs(job, job.loop.value, items);
    DoneSetAppend(h, c);
    forall n | n in p'.jobs && n in p'.deps && p'.deps[n] <= DoneSet(h + [c])
      ensures n in DoneSet(h + [c]) || n in parked || HasToken(queue + NewTokens(base, bodies), n)
    {
      hide Fans, Expand, Iters, BodyJobs, NewTokens, HistoryOk, OutcomeOk, JobFor, DoneSet, Marked, HasToken, IterIds;
      NoOtherNode(p, f, b, job, items, n);
      if n in Iters(job, items) {
        IterCovered(p, f, b, job, items, queue, base, n);
      } else if n in p.jobs[b].dependents {
        RejoinBlocked(p, h, f, b, job, items, c, n);
      } else {
        OtherCount(p, h, f, b, job, items, c, n);
        assert p.deps[n] - DoneSet(h) == {};
        if HasToken(queue, n) {
          StillToken(queue, base, bodies, n);
        }
      }
    }
    hide Scheduling, Expand, HasToken, DoneSet, BodyJobs, NewTokens;
  }

  lemma RejoinBlocked(p: Plan, h: seq<Completion>, f: NodeId, b: NodeId, job: NodeJob, items: seq<Json>,
          c: Completion, n: NodeId)
    requires Scheduling(p, h, f, b, job, items, c) && n in p.jobs[b].dependents
    ensures n in Expand(p, b, job, items).deps && !(Expand(p, b, job, items).deps[n] <= DoneSet(h + [c]))
  {
    FanFacts(p, f, b, job, items);
    assert items != [];
    RejoinCount(p, h, f, b, job, items, c, n);
    hide Scheduling, Fans, Expand, DoneSet;
    SubsetLeavesNone(Expand(p, b, job, items).deps[n], DoneSet(h + [c]));
  }

  lemma SubsetLeavesNone(s: set<NodeId>, t: set<NodeId>)
    ensures s <= t ==> |s - t| == 0
  {
    if s <= t {
      assert s - t == {};
    }
  }

  /** Everything about nodes carries over to the rewritten plan. */
  lemma ExpandCore(p: Plan, h: seq<Completion>, remaining: map<NodeId, int>, queue: map<nat, NodeJob>,
          parked: map<NodeId, Continuation>,
                   f: NodeId, b: NodeId, job: NodeJob, items: seq<Json>, c: Completion, base: nat)
    requires Scheduling(p, h, f, b, job, items, c) && Core(p, h, remaining, queue, parked) && Covered(p, h, queue, parked, {f})
    requires !HasToken(queue, f) && f !in parked
    requires forall k :: k in queue ==> k < base
    ensures var p' := Expand(p, b, job, items); var queue' := queue + NewTokens(base, BodyJobs(job, job.loop.value, items));
            && Core(p', h + [c], SetRemaining(remaining, job.loop.value.rejoins, |items|), queue', parked)
            && Covered(p', h + [c], queue', parked, {})
  {
    hide Expand, WfPlan, HistoryOk, CountsOk, TokensOk, ParkedOk, Exclusive, Covered, BodyJobs, NewTokens, HasToken;
    hide SetRemaining;
    assert Fans(p, f, b, job, items);
    ExpandWf(p, f, b, job, items);
    ExpandHistory(p, h, f, b, job, items, c);
    ExpandCounts(p, h, remaining, f, b, job, items, c);
    ExpandTokens(p, h, queue, f, b, job, items, c, base);
    ParkedNodes(p, h, parked);
    ExpandExclusive(p, h, queue, parked, f, b, job, items, c, base);
    ExpandParked(p, h, parked, f, b, job, items, c);
    ExpandCovered(p, h, queue, parked, f, b, job, items, c, base);
  }

  // ----- the fan-out step

  lemma {:induction false} AllReady(ready: set<NodeId>, downstream: seq<NodeJob>)
    ensures ReadyJobs([], ready, downstream) == downstream
  {
    if downstream != [] {
      AllReady(ready, downstream[..|downstream| - 1]);
    }
  }

  lemma {:induction false} EnqueueBooks(run: Run, jobs: seq<NodeJob>)
    requires IdsOk(run)
    ensures IdsOk(Enqueue(run, jobs)) && (AllLive(run) ==> AllLive(Enqueue(run, jobs)))
    ensures |Enqueue(run, jobs).queue| == |run.queue| + |jobs|
  {
    if jobs != [] {
      EnqueueBooks(run, jobs[..|jobs| - 1]);
      EnqueueOneBooks(Enqueue(run, jobs[..|jobs| - 1]), jobs[|jobs| - 1]);
    }
  }

  lemma EnqueueOneBooks(run: Run, job: NodeJob)
    requires IdsOk(run)
    ensures IdsOk(EnqueueOne(run, job)) && (AllLive(run) ==> AllLive(EnqueueOne(run, job)))
    ensures |EnqueueOne(run, job).queue| == |run.queue| + 1
  {
    assert run.nextId !in run.queue;
  }

  lemma RemoveBooks(run: Run, id: nat)
    requires IdsOk(run) && id in run.queue
    ensures IdsOk(Remove(run, id)) && (AllLive(run) ==> AllLive(Remove(run, id))) && |Remove(run, id).queue| == |run.queue| - 1
  {
    assert (run.queue - {id}).Keys == run.queue.Keys - {id};
  }

  lemma SameBooks(run: Run, after: Run)
    requires IdsOk(run)
    requires after.queue == run.queue && after.rows == run.rows && after.timers == run.timers && after.nextId == run.nextId
    ensures IdsOk(after) && (AllLive(run) ==> AllLive(after))
  {
  }

  lemma UnionMinus<K, V>(a: map<K, V>, b: map<K, V>, k: K)
    requires k !in b
    ensures (a - {k}) + b == (a + b) - {k}
  {
  }

  lemma FanOutAll(run: Run, bodies: seq<NodeJob>)
    ensures FanOut(run, [], bodies) == Some((Enqueue(run, bodies), |bodies|))
  {
    hide Enqueue;
    AllReady({}, bodies);
    assert run.(remaining := run.remaining) == run;
  }

  /** A scheduler's commit enqueues every body job and acks the scheduler. */
  lemma ScatterCommits(run: Run, claim: Claim, c: Completion, bodies: seq<NodeJob>) returns (fanned: Run)
    requires IdsOk(run) && ClaimValid(run, claim)
    ensures fanned == Enqueue(Written(run, c), bodies) && HasJob(fanned, claim.id)
    ensures CommitAtom(run, ScatterAtom(claim, c, bodies)) == Some(Remove(fanned, claim.id).(pending := fanned.pending + |bodies| - 1))
  {
    assert claim.id < run.nextId;
    hide IdsOk, FanOut, Enqueue;
    var written := Written(run, c);
    FanOutAll(written, bodies);
    EnqueueThenRemove(written, claim.id, bodies);
    fanned := Enqueue(written, bodies);
  }

  /** The rows after a scheduler's commit. */
  lemma FanOutIs(run: Run, claim: Claim, c: Completion, bodies: seq<NodeJob>) returns (after: Run)
    requires IdsOk(run) && ClaimValid(run, claim)
    ensures CommitAtom(run, ScatterAtom(claim, c, bodies)) == Some(after)
    ensures after.history == run.history + [c] && after.results == run.results[c.node := c.result]
    ensures after.status == run.status && after.parked == run.parked && after.fired == run.fired && after.remaining == run.remaining
    ensures after.pending == run.pending + |bodies| - 1
    ensures after.queue == (run.queue - {claim.id}) + NewTokens(run.nextId, bodies)
    ensures IdsOk(after) && (AllLive(run) ==> AllLive(after)) && |after.queue| == |run.queue| + |bodies| - 1
  {
    FreshIds(run, claim.id, bodies);
    WrittenBooks(run, c);
    hide IdsOk, AllLive, Enqueue, NewTokens, FreshRows, CommitAtom;
    var fanned := ScatterCommits(run, claim, c, bodies);
    EnqueueSpec(Written(run, c), bodies);
    EnqueueBooks(Written(run, c), bodies);
    RemoveBooks(fanned, claim.id);
    after := Remove(fanned, claim.id).(pending := fanned.pending + |bodies| - 1);
    SameBooks(Remove(fanned, claim.id), after);
    UnionMinus(run.queue, NewTokens(run.nextId, bodies), claim.id);
  }

  lemma FreshIds(run: Run, id: nat, bodies: seq<NodeJob>)
    requires IdsOk(run) && id in run.queue
    ensures id !in NewTokens(run.nextId, bodies)
  {
    NewTokensAt(run.nextId, bodies);
  }

  lemma WrittenBooks(run: Run, c: Completion)
    requires IdsOk(run)
    ensures IdsOk(Written(run, c)) && (AllLive(run) ==> AllLive(Written(run, c)))
  {
  }

  /** A claimed scheduler of the supported shape that was given items enough for its rejoins. */
  ghost predicate MayFan(p: Plan, run: Run, claim: Claim, b: NodeId, items: seq<Json>) {
    && RunInv(p, run) && (run.status == Running || run.status == Waiting) && ClaimValid(run, claim)
    && p.deps.Keys == p.jobs.Keys
    && ForeachShape(p, run.queue[claim.id].nodeId, b) && !run.queue[claim.id].skip
    && Feeds(items, p.jobs[b].dependents)
  }

  /**
   A scheduler of the supported shape, claimed in a run that keeps its invariant, leaves a run that
   keeps the invariant of the rewritten plan.
   */
  lemma ForeachKeeps(lim: Limits, p: Plan, run: Run, claim: Claim, b: NodeId, items: seq<Json>)
    requires MayFan(p, run, claim, b, items)
    ensures b in p.rank && run.queue[claim.id].loop.Some?
    ensures RunInv(Expand(p, b, run.queue[claim.id], items), FanForeach(lim, run, claim, items))
    ensures var job := run.queue[claim.id];
            FanForeach(lim, run, claim, items).history == run.history + [Completing(job, None, job.input, ItemsResult(items))]
  {
    ForeachNodes(p, run, claim, b, items);
    hide RunInv, MayFan, Expand, Core, Covered, ResultsOk, BodyJobs, NewTokens, CommitAtom, ForeachShape;
    hide SetRemaining, Scheduling, AllLive, IdsOk, StatusOk, FanForeach;
    var job := run.queue[claim.id];
    var c := Completing(job, None, job.input, ItemsResult(items));
    var loop := job.loop.value;
    var remaining := SetRemaining(run.remaining, loop.rejoins, |items|);
    CountedBooks(p, run, remaining);
    var after := FanOutIs(run.(remaining := remaining), claim, c, BodyJobs(job, loop, items));
    AddedResult(p, run, claim.id, c);
    FanForeachIs(lim, run, claim, items, after);
    ForeachStatus(p, run, after);
    Whole(Expand(p, b, job, items), CheckComplete(after));
  }

  lemma CountedBooks(p: Plan, run: Run, remaining: map<NodeId, int>)
    requires RunInv(p, run) && (run.status == Running || run.status == Waiting)
    ensures IdsOk(run.(remaining := remaining)) && AllLive(run.(remaining := remaining)) && run.pending == |run.queue|
  {
    hide Core, Covered, ResultsOk;
  }

  lemma AddedResult(p: Plan, run: Run, id: nat, c: Completion)
    requires RunInv(p, run) && id in run.queue && c.node == run.queue[id].nodeId
    ensures ResultsOk(run.history + [c], run.results[c.node := c.result])
  {
    OpenNode(p, run, id);
    ResultsAppend(run.history, c, run.results);
  }

  lemma ForeachStatus(p: Plan, run: Run, after: Run)
    requires RunInv(p, run) && (run.status == Running || run.status == Waiting)
    requires after.status == run.status && after.parked == run.parked && after.fired == run.fired
    requires AllLive(after) && after.pending == |after.queue|
    requires after.history != [] && after.history[|after.history| - 1].how == ByCommit
    ensures StatusOk(CheckComplete(after))
    ensures IdsOk(after) ==> IdsOk(CheckComplete(after))
  {
    hide Core, Covered, ResultsOk;
  }

  lemma Whole(p: Plan, run: Run)
    requires IdsOk(run) && Core(p, run.history, run.remaining, run.queue, run.parked)
    requires Covered(p, run.history, run.queue, run.parked, {})
    requires ResultsOk(run.history, run.results) && run.pending == |run.queue| && StatusOk(run)
    ensures RunInv(p, run)
  {
    hide IdsOk, Core, Covered, ResultsOk, StatusOk;
  }

  lemma FanForeachIs(lim: Limits, run: Run, claim: Claim, items: seq<Json>, after: Run)
    requires ClaimValid(run, claim) && run.queue[claim.id].loop.Some?
    requires var job := run.queue[claim.id]; var loop := job.loop.value;
             var c := Completing(job, None, job.input, ItemsResult(items));
             CommitAtom(run.(remaining := SetRemaining(run.remaining, loop.rejoins, |items|)),
                        ScatterAtom(claim, c, BodyJobs(job, loop, items))) == Some(after)
    ensures FanForeach(lim, run, claim, items) == CheckComplete(after)
  {
    hide CommitAtom, SetRemaining, BodyJobs, ScatterAtom, CheckComplete, RecordFailure;
  }

  lemma ForeachNodes(p: Plan, run: Run, claim: Claim, b: NodeId, items: seq<Json>)
    requires MayFan(p, run, claim, b, items)
    ensures var job := run.queue[claim.id]; var c := Completing(job, None, job.input, ItemsResult(items));
            && b in p.rank && job.loop.Some? && run.pending >= 1
            && var p' := Expand(p, b, job, items); var queue' := (run.queue - {claim.id}) + NewTokens(run.nextId, BodyJobs(job, job.loop.value, items));
            && Core(p', run.history + [c], SetRemaining(run.remaining, job.loop.value.rejoins, |items|), queue', run.parked)
            && Covered(p', run.history + [c], queue', run.parked, {})
  {
    ClaimedScheduler(p, run, claim, b, items);
    hide Expand, Core, Covered, NewTokens, BodyJobs, SetRemaining, ForeachShape;
    FanForeachCore(p, run, claim, b, items, Completing(run.queue[claim.id], None, run.queue[claim.id].input, ItemsResult(items)));
  }

  lemma ShapeParts(p: Plan, f: NodeId, b: NodeId)
    requires ForeachShape(p, f, b)
    ensures f in p.jobs && b in p.jobs && p.jobs[f].loop.Some?
    ensures p.jobs[f].loop.value.body.nodeId == b && p.jobs[f].loop.value.rejoins == p.jobs[b].dependents
  {
  }

  lemma ClaimedScheduler(p: Plan, run: Run, claim: Claim, b: NodeId, items: seq<Json>)
    requires MayFan(p, run, claim, b, items)
    ensures var job := run.queue[claim.id]; var c := Completing(job, None, job.input, ItemsResult(items));
            && b in p.rank && job.loop.Some? && run.pending >= 1
            && Scheduling(p, run.history, job.nodeId, b, job, items, c)
  {
    hide RunInv, IdsOk, Outstanding, HistoryOk, JobFor, AllLive;
    var job := run.queue[claim.id];
    OpenNodes(p, run);
    Books(p, run);
    assert |run.queue| > 0;
    SchedulerParts(p, run, claim.id);
    BodyRank(p, job.nodeId, b);
    ShapeParts(p, job.nodeId, b);
    hide ForeachShape, WfPlan;
  }

  lemma SchedulerParts(p: Plan, run: Run, id: nat)
    requires RunInv(p, run) && id in run.queue
    ensures WfPlan(p) && HistoryOk(p, run.history)
    ensures var job := run.queue[id]; var n := job.nodeId;
            && n in p.jobs && n in p.deps && job == JobFor(p, run.history, n)
            && job.runId == p.jobs[n].runId && job.def == p.jobs[n].def
            && job.loop == p.jobs[n].loop && job.downstream == p.jobs[n].downstream
  {
    JobShape(p, run.history, run.queue[id].nodeId);
    hide StatusOk, Covered, ResultsOk, HistoryOk, IdsOk, JobFor, WfPlan;
  }

  lemma BodyRank(p: Plan, f: NodeId, b: NodeId)
    requires WfPlan(p) && ForeachShape(p, f, b)
    ensures b in p.rank && p.jobs[f].loop.Some? && p.jobs[f].def.nodeType.Foreach?
  {
    assert DepsOk(p, b);
  }

  lemma FanForeachCore(p: Plan, run: Run, claim: Claim, b: NodeId, items: seq<Json>, c: Completion)
    requires RunInv(p, run) && (run.status == Running || run.status == Waiting) && ClaimValid(run, claim)
    requires var job := run.queue[claim.id]; Scheduling(p, run.history, job.nodeId, b, job, items, c)
    ensures var job := run.queue[claim.id];
            var p' := Expand(p, b, job, items); var queue' := (run.queue - {claim.id}) + NewTokens(run.nextId, BodyJobs(job, job.loop.value, items));
            && Core(p', run.history + [c], SetRemaining(run.remaining, job.loop.value.rejoins, |items|), queue', run.parked)
            && Covered(p', run.history + [c], queue', run.parked, {})
  {
    hide Scheduling, Expand, Core, Covered, BodyJobs, NewTokens, HasToken, SetRemaining, ResultsOk;
    Detach(p, run, claim.id);
    Below(run, claim.id);
    var job := run.queue[claim.id];
    ExpandCore(p, run.history, run.remaining, run.queue - {claim.id}, run.parked, job.nodeId, b, job, items, c, run.nextId);
  }

  // ----- what the rejoin collects

  /**
   A foreach is an ordered map. A rejoin that waits for `count` iterations is enqueued only when all of
   them completed, and the array it then runs with holds their results in input order, whatever the order
   in which they finished.
   */
  lemma RejoinCollects(p: Plan, run: Run, id: nat)
    requires RunInv(p, run) && id in run.queue && Assembles(run.queue[id])
    requires var job := run.queue[id]; var c := job.collect.value;
             job.nodeId in p.deps && p.deps[job.nodeId] == IterIds(c.from, c.count)
    ensures var job := run.queue[id]; var c := job.collect.value; var steps := StepsOf(EffectiveInput(run.results, job));
            && c.name in steps && steps[c.name].JArr? && |steps[c.name].items| == c.count
            && forall i: nat :: i < c.count ==>
                 exists j :: 0 <= j < |run.history| && run.history[j].node == IterId(c.from, i)
                             && steps[c.name].items[i] == run.history[j].result
  {
    var job := run.queue[id];
    var c := job.collect.value;
    var arr := Collected(run.results, c.from, c.count);
    OpenNodes(p, run);
    forall i: nat | i < c.count
      ensures exists j :: 0 <= j < |run.history| && run.history[j].node == IterId(c.from, i) && arr[i] == run.history[j].result
    {
      assert IterId(c.from, i) in DoneSet(run.history);
      var j :| 0 <= j < |run.history| && run.history[j].node == IterId(c.from, i);
      assert run.results[run.history[j].node] == run.history[j].result;
    }
    hide RunInv, IterIds, IterId, DoneSet;
    assert STEPS in EffectiveInput(run.results, job);
  }

  /** Iteration `i` is seeded with the scheduler's own input and the `i`-th item under the loop variable. */
  lemma IterationInput(p: Plan, f: NodeId, b: NodeId, job: NodeJob, items: seq<Json>, i: nat)
    requires Fans(p, f, b, job, items) && i < |items|
    ensures var p' := Expand(p, b, job, items); var n := IterId(b, i); var asVar := job.loop.value.bodyAs;
            && n in p'.seeds && asVar in p'.seeds[n].input && p'.seeds[n].input[asVar] == items[i]
            && (asVar != EVENT ==> EventOf(p'.seeds[n].input) == EventOf(job.input))
            && (asVar != STEPS ==> StepsOf(p'.seeds[n].input) == StepsOf(job.input))
            && p'.seeds[n].collect.None?
  {
    FanFacts(p, f, b, job, items);
    ItersAre(p, f, b, job, items);
    NewNode(p, f, b, job, items, IterId(b, i));
    var loop := job.loop.value;
    var marked := MarkRejoins(job.downstream, loop.rejoins, loop, |items|);
    assert BodyJobs(job, loop, items)[i] == BodyJob(job, loop, marked, items, i);
    hide Fans, Expand, MarkRejoins, RejoinJobs;
  }

  /** A seeded node that does not collect completes on the very input it was seeded with. */
  lemma RanOnSeed(p: Plan, run: Run, j: nat)
    requires RunInv(p, run) && j < |run.history| && run.history[j].node in p.seeds
    requires p.seeds[run.history[j].node].collect.None?
    ensures run.history[j].input == p.seeds[run.history[j].node].input
  {
    assert EntryOk(p, run.history, j);
  }

  /** In the rewritten plan every rejoin waits for exactly the iterations it collects, in order. */
  lemma RejoinWaits(p: Plan, f: NodeId, b: NodeId, job: NodeJob, items: seq<Json>, n: NodeId)
    requires Fans(p, f, b, job, items) && n in p.jobs[b].dependents
    ensures var p' := Expand(p, b, job, items);
            && n in p'.jobs && n in p'.deps && p'.deps[n] == IterIds(b, |items|)
            && p'.jobs[n].collect.Some? && p'.jobs[n].collect.value.from == b && p'.jobs[n].collect.value.count == |items|
  {
    Rejoin(p, f, b, job, items, n);
    OldNode(p, f, b, job, items, n);
    FanFacts(p, f, b, job, items);
    assert job.loop.value.body.nodeId == b;
  }

  /**
   With no items the fan-out loses its rejoins: their counters read zero, yet nothing will ever enqueue
   them, and if the scheduler was the only live job of a running run the run is marked completed without them.
   */
  lemma EmptyForeachLoses(lim: Limits, p: Plan, run: Run, claim: Claim, b: NodeId, r: NodeId)
    requires EmptyFan(p, run, claim, b, r)
    ensures var after := FanForeach(lim, run, claim, []);
            && r in after.remaining && after.remaining[r] == 0
            && r !in DoneSet(after.history) && !HasToken(after.queue, r) && r !in after.parked
            && after.status != Cancelled
            && (|run.queue| == 1 && run.status == Running ==> after.status == Completed)
  {
    EmptyFacts(p, run, claim, b, r);
    hide EmptyFan, SetRemaining, AllLive, IdsOk, FanForeach, HasToken, DoneSet;
    EmptyFanIs(lim, run, claim);
    var job := run.queue[claim.id];
    DoneSetAppend(run.history, Completing(job, None, job.input, ItemsResult([])));
    TokenGone(run.queue, claim.id, r);
  }

  lemma EmptyFanIs(lim: Limits, run: Run, claim: Claim)
    requires ClaimValid(run, claim) && (run.status == Running || run.status == Waiting)
    requires run.pending == |run.queue| && run.queue[claim.id].loop.Some?
    requires var m := SetRemaining(run.remaining, run.queue[claim.id].loop.value.rejoins, 0);
             IdsOk(run.(remaining := m)) && AllLive(run.(remaining := m))
    ensures var after := FanForeach(lim, run, claim, []); var job := run.queue[claim.id];
            && after.remaining == SetRemaining(run.remaining, job.loop.value.rejoins, 0)
            && after.history == run.history + [Completing(job, None, job.input, ItemsResult([]))]
            && after.queue == run.queue - {claim.id} && after.parked == run.parked
            && after.status != Cancelled
            && (|run.queue| == 1 && run.status == Running ==> after.status == Completed)
  {
    var job := run.queue[claim.id];
    NoBodies(job, job.loop.value);
    hide CommitAtom, SetRemaining, AllLive, IdsOk, RecordFailure, BodyJobs, ItemsResult, NewTokens;
    var c := Completing(job, None, job.input, ItemsResult([]));
    var after := FanOutIs(run.(remaining := SetRemaining(run.remaining, job.loop.value.rejoins, 0)), claim, c, []);
    NewTokensSnoc(run.queue - {claim.id}, run.nextId, []);
  }

  lemma NoBodies(job: NodeJob, loop: Loop)
    ensures BodyJobs(job, loop, []) == []
  {
  }

  lemma TokenGone(queue: map<nat, NodeJob>, id: nat, r: NodeId)
    requires !HasToken(queue, r)
    ensures !HasToken(queue - {id}, r)
  {
  }

  /** A claimed scheduler of the supported shape, and one of its rejoins. */
  ghost predicate EmptyFan(p: Plan, run: Run, claim: Claim, b: NodeId, r: NodeId) {
    && RunInv(p, run) && (run.status == Running || run.status == Waiting) && ClaimValid(run, claim)
    && p.deps.Keys == p.jobs.Keys && ForeachShape(p, run.queue[claim.id].nodeId, b) && !run.queue[claim.id].skip
    && r in p.jobs[b].dependents
  }

  lemma EmptyFacts(p: Plan, run: Run, claim: Claim, b: NodeId, r: NodeId)
    requires EmptyFan(p, run, claim, b, r)
    ensures ClaimValid(run, claim) && (run.status == Running || run.status == Waiting) && run.pending == |run.queue|
    ensures var job := run.queue[claim.id];
            && job.loop.Some? && r != job.nodeId
            && r !in DoneSet(run.history) && !HasToken(run.queue, r) && r !in run.parked
            && var m := SetRemaining(run.remaining, job.loop.value.rejoins, 0);
            && r in m && m[r] == 0
            && IdsOk(run.(remaining := m)) && AllLive(run.(remaining := m))
  {
    CountedBooks(p, run, SetRemaining(run.remaining, p.jobs[b].dependents, 0));
    var f := run.queue[claim.id].nodeId;
    SchedulerParts(p, run, claim.id);
    OpenNodes(p, run);
    BodyNamed(p, f, b);
    if r in DoneSet(run.history) {
      HistoryClosed(p, run.history, r);
    }
    if b in DoneSet(run.history) {
      HistoryClosed(p, run.history, b);
    }
    assert p.deps[r] == {b};
    assert forall d :: d in p.jobs[b].dependents ==> d in run.remaining;
    SetRemainingSpec(run.remaining, p.jobs[b].dependents, 0);
    hide WfPlan, HistoryOk, Covered, ResultsOk, StatusOk, IdsOk, JobFor;
  }

  /** An uncompleted node that nothing queued or parked will complete, with its counter at zero, breaks every plan it is in. */
  lemma LostNode(q: Plan, run: Run, r: NodeId)
    requires r in q.jobs && run.status != Cancelled
    requires r !in DoneSet(run.history) && !HasToken(run.queue, r) && r !in run.parked
    requires r in run.remaining && run.remaining[r] == 0
    ensures !RunInv(q, run)
  {
    if RunInv(q, run) {
      OnePlace(q, run, r);
      SeededIsFree(q, run, r);
      assert false;
    }
  }

  lemma SeededIsFree(q: Plan, run: Run, r: NodeId)
    requires RunInv(q, run) && r in q.seeds && r in q.jobs
    ensures r in q.deps && !Blocked(q, run.history, r)
  {
    assert DepsOk(q, r);
  }

  /**
   A fan-out keeps the run invariant exactly when there is an item or no rejoin: else no plan that still has
   the Wafer's other nodes accounts for the run.
   */
  lemma ForeachKeepsExactly(lim: Limits, p: Plan, run: Run, claim: Claim, b: NodeId, items: seq<Json>)
    requires RunInv(p, run) && (run.status == Running || run.status == Waiting) && ClaimValid(run, claim)
    requires p.deps.Keys == p.jobs.Keys && ForeachShape(p, run.queue[claim.id].nodeId, b) && !run.queue[claim.id].skip
    ensures (exists q: Plan :: p.jobs.Keys - {b} <= q.jobs.Keys && RunInv(q, FanForeach(lim, run, claim, items)))
            <==> Feeds(items, p.jobs[b].dependents)
  {
    var job := run.queue[claim.id];
    SchedulerParts(p, run, claim.id);
    BodyNamed(p, job.nodeId, b);
    hide RunInv, FanForeach, ForeachShape, WfPlan, HistoryOk, JobFor, Aligned, Named;
    if Feeds(items, p.jobs[b].dependents) {
      ForeachKeeps(lim, p, run, claim, b, items);
      hide Expand;
      ExpandKeepsNodes(p, run, claim, b, items);
    } else {
      var r := p.jobs[b].dependents[0];
      assert EmptyFan(p, run, claim, b, r);
      EmptyForeachLoses(lim, p, run, claim, b, r);
      forall q: Plan | p.jobs.Keys - {b} <= q.jobs.Keys
        ensures !RunInv(q, FanForeach(lim, run, claim, items))
      {
        LostNode(q, FanForeach(lim, run, claim, []), r);
      }
    }
  }

  lemma ExpandKeepsNodes(p: Plan, run: Run, claim: Claim, b: NodeId, items: seq<Json>)
    requires MayFan(p, run, claim, b, items)
    ensures b in p.rank && run.queue[claim.id].loop.Some?
    ensures p.jobs.Keys - {b} <= Expand(p, b, run.queue[claim.id], items).jobs.Keys
  {
    ClaimedScheduler(p, run, claim, b, items);
    ExpandAt(p, run.queue[claim.id].nodeId, b, run.queue[claim.id], items);
  }

  // ----- a scheduler on a branch that was not chosen

  /** A claimed scheduler of the supported shape that a switch skipped. */
  ghost predicate MaySkip(p: Plan, run: Run, claim: Claim, b: NodeId) {
    && RunInv(p, run) && (run.status == Running || run.status == Waiting) && ClaimValid(run, claim)
    && p.deps.Keys == p.jobs.Keys
    && ForeachShape(p, run.queue[claim.id].nodeId, b) && run.queue[claim.id].skip
  }

  function Skipping(job: NodeJob): Completion {
    Completing(job, None, job.input, SKIPPED)
  }

  /** What the claimed job of a skipped scheduler is, and that its body is blocked. */
  lemma SkippedScheduler(p: Plan, run: Run, claim: Claim, b: NodeId)
    requires MaySkip(p, run, claim, b)
    ensures var job := run.queue[claim.id];
            && job.nodeId in p.jobs && b in p.jobs && b in p.deps && b in p.rank && WfPlan(p) && p.deps[b] == {job.nodeId}
            && job.runId == p.jobs[job.nodeId].runId
            && job.loop == p.jobs[job.nodeId].loop && job.loop.Some? && job.loop.value.rejoins == p.jobs[b].dependents
            && job.dependents == [] && job.downstream == p.jobs[job.nodeId].downstream && job.downstream == p.jobs[b].downstream
            && job.def.nodeType.Foreach?
            && HistoryOk(p, run.history) && Outstanding(p, run.history, job.nodeId) && job == JobFor(p, run.history, job.nodeId)
            && b !in DoneSet(run.history)
    ensures IdsOk(run) && AllLive(run) && run.pending == |run.queue|
  {
    var job := run.queue[claim.id];
    CountedBooks(p, run, run.remaining);
    assert run.(remaining := run.remaining) == run;
    SchedulerParts(p, run, claim.id);
    OpenNodes(p, run);
    JobShape(p, run.history, job.nodeId);
    BodyRank(p, job.nodeId, b);
    if b in DoneSet(run.history) {
      HistoryClosed(p, run.history, b);
    }
    hide WfPlan, HistoryOk, IdsOk, AllLive, JobFor, RunInv;
  }

  /** A skipped scheduler enqueues its rejoins at once, as skip-jobs, and decrements nothing. */
  lemma SkipIs(p: Plan, run: Run, claim: Claim, b: NodeId) returns (after: Run)
    requires MaySkip(p, run, claim, b)
    ensures var job := run.queue[claim.id]; var jobs := NextJobs(Skipping(job), job.downstream);
            && Finish(run, claim, Skipping(job)) == CheckComplete(after)
            && after.history == run.history + [Skipping(job)] && after.results == run.results[job.nodeId := SKIPPED]
            && after.status == run.status && after.parked == run.parked && after.fired == run.fired && after.remaining == run.remaining
            && after.queue == (run.queue - {claim.id}) + NewTokens(run.nextId, jobs)
    ensures IdsOk(after) && AllLive(after) && after.pending == |after.queue|
  {
    SkippedScheduler(p, run, claim, b);
    hide MaySkip, IdsOk, AllLive, NewTokens, CommitAtom, NextJobs, WfPlan, HistoryOk, Outstanding, JobFor, DoneSet;
    var job := run.queue[claim.id];
    var c := Skipping(job);
    var jobs := NextJobs(c, job.downstream);
    after := FanOutIs(run, claim, c, jobs);
    assert AtomOf(job, claim, c, None) == ScatterAtom(claim, c, jobs);
  }

  /** Without rejoins a skipped scheduler just takes its body out of the plan. */
  lemma SkipKeeps(p: Plan, run: Run, claim: Claim, b: NodeId)
    requires MaySkip(p, run, claim, b) && p.jobs[b].dependents == []
    ensures b in p.rank && run.queue[claim.id].loop.Some?
    ensures RunInv(Expand(p, b, run.queue[claim.id], []), Finish(run, claim, Skipping(run.queue[claim.id])))
    ensures Finish(run, claim, Skipping(run.queue[claim.id])).history == run.history + [Skipping(run.queue[claim.id])]
  {
    hide Expand, Core, Covered, NewTokens, BodyJobs, SetRemaining, ForeachShape, Scheduling, WfPlan, HistoryOk, JobFor;
    hide IdsOk, AllLive, StatusOk, ResultsOk, Outstanding, DoneSet, RunInv, Finish;
    var job := run.queue[claim.id];
    var c := Skipping(job);
    SkippedScheduler(p, run, claim, b);
    SkipScheduling(p, run, claim, b);
    FanForeachCore(p, run, claim, b, [], c);
    var after := SkipIs(p, run, claim, b);
    AddedResult(p, run, claim.id, c);
    NoneSpread(job, run.remaining, run.nextId);
    NoneNext(c, job.downstream, run.nextId);
    ForeachStatus(p, run, after);
    Whole(Expand(p, b, job, []), CheckComplete(after));
  }

  lemma NoneSpread(job: NodeJob, remaining: map<NodeId, int>, base: nat)
    requires job.loop.Some? && job.loop.value.rejoins == []
    ensures NewTokens(base, BodyJobs(job, job.loop.value, [])) == map[]
    ensures SetRemaining(remaining, job.loop.value.rejoins, 0) == remaining
  {
    NoBodies(job, job.loop.value);
  }

  lemma NoneNext(c: Completion, downstream: seq<NodeJob>, base: nat)
    ensures downstream == [] ==> NewTokens(base, NextJobs(c, downstream)) == map[]
  {
  }

  lemma SkipScheduling(p: Plan, run: Run, claim: Claim, b: NodeId)
    requires MaySkip(p, run, claim, b) && p.jobs[b].dependents == []
    ensures var job := run.queue[claim.id]; Scheduling(p, run.history, job.nodeId, b, job, [], Skipping(job))
    ensures run.queue[claim.id].downstream == []
  {
    hide RunInv, WfPlan, HistoryOk, Outstanding, JobFor, DoneSet, IdsOk, AllLive;
    SkippedScheduler(p, run, claim, b);
    BodyNamed(p, run.queue[claim.id].nodeId, b);
  }

  /** A job enqueued as a skip-job while its counter is not zero fits no plan that has its node. */
  lemma UntimelySkip(q: Plan, run: Run, k: nat)
    requires k in run.queue && run.queue[k].skip && run.queue[k].nodeId in q.jobs
    requires var r := run.queue[k].nodeId; r in run.remaining && run.remaining[r] != 0
    ensures !RunInv(q, run)
  {
    if RunInv(q, run) {
      var r := run.queue[k].nodeId;
      OpenNodes(q, run);
      SchedulerParts(q, run, k);
      SeedRuns(q, run.history, r);
      CountedOpen(q, run, r);
      hide RunInv, WfPlan, HistoryOk;
      assert false;
    }
  }

  lemma SeedRuns(q: Plan, h: seq<Completion>, r: NodeId)
    requires WfPlan(q) && r in q.jobs && r in q.deps
    ensures r in q.seeds ==> !JobFor(q, h, r).skip
  {
    assert TemplateOk(q, r) && DepsOk(q, r);
  }

  lemma CountedOpen(q: Plan, run: Run, r: NodeId)
    requires RunInv(q, run) && Outstanding(q, run.history, r) && r !in q.seeds
    ensures r in run.remaining && run.remaining[r] == 0
  {
    NoneMissing(q.deps[r], DoneSet(run.history));
    hide WfPlan, HistoryOk, TokensOk, ParkedOk, Exclusive, Covered, ResultsOk, StatusOk, IdsOk;
  }

  /**
   Completing a skipped scheduler keeps the run invariant exactly when it has no rejoins: else they are enqueued
   as skip-jobs while their counters still wait for the body, and no plan with those nodes accounts for the run.
   */
  lemma SkipKeepsExactly(p: Plan, run: Run, claim: Claim, b: NodeId)
    requires MaySkip(p, run, claim, b)
    ensures (exists q: Plan :: p.jobs.Keys - {b} <= q.jobs.Keys && RunInv(q, Finish(run, claim, Skipping(run.queue[claim.id]))))
            <==> p.jobs[b].dependents == []
  {
    var job := run.queue[claim.id];
    SkippedScheduler(p, run, claim, b);
    hide RunInv, ForeachShape, WfPlan, HistoryOk, JobFor, Outstanding, Finish, DoneSet, Expand;
    if p.jobs[b].dependents == [] {
      SkipKeeps(p, run, claim, b);
      SkipKeepsNodes(p, run, claim, b);
    } else {
      SkipLoses(p, run, claim, b);
      forall q: Plan | p.jobs.Keys - {b} <= q.jobs.Keys
        ensures !RunInv(q, Finish(run, claim, Skipping(job)))
      {
        UntimelySkip(q, Finish(run, claim, Skipping(job)), run.nextId);
      }
    }
  }

  lemma SkipKeepsNodes(p: Plan, run: Run, claim: Claim, b: NodeId)
    requires MaySkip(p, run, claim, b) && p.jobs[b].dependents == []
    ensures b in p.rank && run.queue[claim.id].loop.Some?
    ensures p.jobs.Keys - {b} <= Expand(p, b, run.queue[claim.id], []).jobs.Keys
  {
    SkipScheduling(p, run, claim, b);
    ExpandAt(p, run.queue[claim.id].nodeId, b, run.queue[claim.id], []);
  }

  /** The first rejoin of a skipped scheduler is queued as a skip-job with its counter at one. */
  lemma SkipLoses(p: Plan, run: Run, claim: Claim, b: NodeId)
    requires MaySkip(p, run, claim, b) && p.jobs[b].dependents != []
    ensures var after := Finish(run, claim, Skipping(run.queue[claim.id])); var r := p.jobs[b].dependents[0];
            && run.nextId in after.queue && after.queue[run.nextId].skip && after.queue[run.nextId].nodeId == r
            && r in p.jobs && r != b && r in after.remaining && after.remaining[r] == 1
  {
    var r := p.jobs[b].dependents[0];
    SkippedScheduler(p, run, claim, b);
    BodyNamed(p, run.queue[claim.id].nodeId, b);
    RejoinCounter(p, run, claim, b, r);
    hide RunInv, WfPlan, HistoryOk, JobFor, Outstanding, Finish, DoneSet, ForeachShape, IdsOk, AllLive, Aligned;
    var after := SkipIs(p, run, claim, b);
    var job := run.queue[claim.id];
    NewTokensAt(run.nextId, NextJobs(Skipping(job), job.downstream));
    hide NewTokens;
  }

  lemma RejoinCounter(p: Plan, run: Run, claim: Claim, b: NodeId, r: NodeId)
    requires MaySkip(p, run, claim, b) && r in p.jobs[b].dependents
    ensures r in run.remaining && run.remaining[r] == 1
  {
    hide RunInv, WfPlan, HistoryOk, JobFor, Outstanding, DoneSet, IdsOk, AllLive, Aligned, Named;
    SkippedScheduler(p, run, claim, b);
    BodyNamed(p, run.queue[claim.id].nodeId, b);
    assert p.deps[r] == {b};
    OnePlace(p, run, r);
    assert {b} - DoneSet(run.history) == {b};
  }

  // ----- every history of a run with foreach schedulers

  /** Every scheduler still to complete has the supported shape. */
  ghost predicate ForeachsOk(p: Plan, h: seq<Completion>) {
    && p.deps.Keys == p.jobs.Keys
    && forall f {:trigger f in p.jobs} :: f in p.jobs && p.jobs[f].def.nodeType.Foreach? && f !in DoneSet(h) ==> exists b :: ForeachShape(p, f, b)
  }

  lemma IterNotKnown(p: Plan, f: NodeId, b: NodeId, job: NodeJob, items: seq<Json>, b2: NodeId, i: nat)
    requires Fans(p, f, b, job, items) && b2 != b && IterId(b2, i) !in p.jobs
    ensures IterId(b2, i) !in Expand(p, b, job, items).jobs
  {
    ExpandAt(p, f, b, job, items);
    ItersAre(p, f, b, job, items);
    if IterId(b2, i) in Iters(job, items) {
      var j: nat :| j < |items| && IterId(b2, i) == IterId(b, j);
      if |Itoa(i)| <= |Itoa(j)| {
        IterIdApart(b2, i, b, j);
      } else {
        IterIdApart(b, j, b2, i);
      }
    }
  }

  /** Rewriting for one scheduler leaves the shape of every other one as it was. */
  lemma OtherShape(p: Plan, f: NodeId, b: NodeId, job: NodeJob, items: seq<Json>, f2: NodeId, b2: NodeId)
    requires Fans(p, f, b, job, items) && ForeachShape(p, f2, b2) && f2 != f
    ensures ForeachShape(Expand(p, b, job, items), f2, b2)
  {
    OtherShapeJobs(p, f, b, job, items, f2, b2);
    OtherShapeDeps(p, f, b, job, items, f2, b2);
    hide Fans, Expand, IterId;
  }

  lemma OtherShapeJobs(p: Plan, f: NodeId, b: NodeId, job: NodeJob, items: seq<Json>, f2: NodeId, b2: NodeId)
    requires Fans(p, f, b, job, items) && ForeachShape(p, f2, b2) && f2 != f
    ensures var p' := Expand(p, b, job, items);
            && f2 in p'.jobs && f2 in p'.deps && b2 in p'.jobs && b2 in p'.deps
            && p'.jobs[f2].def == p.jobs[f2].def && p'.jobs[f2].loop == p.jobs[f2].loop
            && p'.jobs[f2].downstream == p.jobs[f2].downstream && p'.jobs[f2].dependents == p.jobs[f2].dependents
            && p'.jobs[b2] == p.jobs[b2] && p'.deps[b2] == {f2}
            && (forall i: nat :: IterId(b2, i) !in p'.jobs)
  {
    FanFacts(p, f, b, job, items);
    ShapesApart(p, f, b, f2, b2);
    hide Fans, Expand, Iters, IterId;
    OldNode(p, f, b, job, items, f2);
    OldNode(p, f, b, job, items, b2);
    forall i: nat
      ensures IterId(b2, i) !in Expand(p, b, job, items).jobs
    {
      IterNotKnown(p, f, b, job, items, b2, i);
    }
  }

  lemma OtherShapeDeps(p: Plan, f: NodeId, b: NodeId, job: NodeJob, items: seq<Json>, f2: NodeId, b2: NodeId)
    requires Fans(p, f, b, job, items) && ForeachShape(p, f2, b2) && f2 != f
    ensures var p' := Expand(p, b, job, items);
            && (forall m :: m in p'.deps && f2 in p'.deps[m] ==> m == b2)
            && (forall m :: m in p.jobs[b2].dependents ==> m in p'.deps && p'.deps[m] == {b2})
  {
    FanFacts(p, f, b, job, items);
    ShapesApart(p, f, b, f2, b2);
    hide Fans, Expand, Iters, IterId;
    var p' := Expand(p, b, job, items);
    forall m | m in p'.deps && f2 in p'.deps[m]
      ensures m == b2
    {
      OtherDependents(p, f, b, job, items, f2, m);
    }
    forall m | m in p.jobs[b2].dependents
      ensures m in p'.deps && p'.deps[m] == {b2}
    {
      OldNode(p, f, b, job, items, m);
    }
  }

  lemma ShapesApart(p: Plan, f: NodeId, b: NodeId, f2: NodeId, b2: NodeId)
    requires WfPlan(p) && ForeachShape(p, f, b) && ForeachShape(p, f2, b2) && f2 != f && p.deps.Keys == p.jobs.Keys
    ensures f2 != b && b2 != b && b2 !in p.jobs[b].dependents
    ensures forall m :: m in p.jobs[b2].dependents ==> m in p.jobs && m != b && m !in p.jobs[b].dependents && p.deps[m] == {b2}
  {
    assert p.deps[b] == {f} && p.deps[b2] == {f2};
  }

  lemma OtherDependents(p: Plan, f: NodeId, b: NodeId, job: NodeJob, items: seq<Json>, f2: NodeId, m: NodeId)
    requires Fans(p, f, b, job, items) && f2 in p.jobs && f2 != f
    requires m in Expand(p, b, job, items).deps && f2 in Expand(p, b, job, items).deps[m]
    ensures m in p.deps && f2 in p.deps[m]
  {
    NoOtherNode(p, f, b, job, items, m);
    IterKeys(p, f, b, job, items);
    if m in Iters(job, items) {
      NewNode(p, f, b, job, items, m);
    } else {
      OldNode(p, f, b, job, items, m);
      if f2 in Iters(job, items) {
        NewNode(p, f, b, job, items, f2);
      }
    }
  }

  /** The items over which the step fans a scheduler out, if it does: none for a skipped one. */
  predicate Fanning(run: Run, a: Action) {
    && a.Work? && a.claim.id in run.queue && (run.status == Running || run.status == Waiting)
    && var job := run.queue[a.claim.id];
    && job.def.nodeType.Foreach? && job.loop.Some?
    && (job.skip || (a.out.Output? && a.out.value.JArr?))
  }

  function ItemsOf(run: Run, a: Action): seq<Json>
    requires Fanning(run, a)
  {
    if run.queue[a.claim.id].skip then [] else a.out.value.items
  }

  /** A step that completes a scheduler has an item for its rejoins, if it has rejoins. */
  predicate Supported(run: Run, a: Action) {
    Fanning(run, a) ==> Feeds(ItemsOf(run, a), run.queue[a.claim.id].loop.value.rejoins)
  }

  lemma DoneGrows(h: seq<Completion>, h': seq<Completion>)
    requires h <= h'
    ensures DoneSet(h) <= DoneSet(h')
  {
    forall n | n in DoneSet(h)
      ensures n in DoneSet(h')
    {
      var i :| 0 <= i < |h| && h[i].node == n;
      assert h'[i].node == n;
    }
  }

  /** At most one completion is added, of a node that is no scheduler. */
  ghost predicate Adds(p: Plan, before: seq<Completion>, after: seq<Completion>) {
    after == before ||
    exists c: Completion :: after == before + [c] && c.node in p.jobs && !p.jobs[c.node].def.nodeType.Foreach?
  }

  /** Ordinary handling adds at most one completion. */
  lemma WorkHistory(lim: Limits, p: Plan, run: Run, claim: Claim, out: Outcome)
    requires Bounded(lim) && RunInv(p, run) && ClaimValid(run, claim) && Fits(run.queue[claim.id], out)
    requires !run.queue[claim.id].def.nodeType.Foreach?
    ensures run.history <= Handle(lim, run, claim, out).history
    ensures Adds(p, run.history, Handle(lim, run, claim, out).history)
  {
    SchedulerParts(p, run, claim.id);
    hide RunInv, Finish, FinishOrFail, Park, RecordFailure, CompletionOf, CheckComplete, MayFinish;
    if run.status == Running || run.status == Waiting {
      hide Handle;
      var c := CompletionOf(run, run.queue[claim.id], out);
      HandleIs(lim, run, claim, out);
      if c.Some? {
        CompletionFits(run, claim, out);
        FinishedKeeps(lim, p, run, claim, c.value);
        FinishedNode(run, claim, c.value);
      } else if out.WaitFor? {
        ParkKeeps(p, run, claim, out.signal, out.runAt);
        ParkIs(run, claim, out.signal, out.runAt);
      } else {
        var cause :| Handle(lim, run, claim, out) == RecordFailure(lim, run, claim, cause);
        RecordFailureKeeps(lim, p, run, claim, cause);
      }
    }
  }

  lemma FinishedNode(run: Run, claim: Claim, c: Completion)
    requires MayFinish(run, claim, c)
    ensures claim.id in run.queue && c.node == run.queue[claim.id].nodeId
  {
  }

  lemma StepHistory(lim: Limits, p: Plan, run: Run, a: Action)
    requires Bounded(lim) && RunInv(p, run) && Enabled(run, a) && Ordinary(run, a)
    ensures run.history <= Next(lim, run, a).history
    ensures Adds(p, run.history, Next(lim, run, a).history)
  {
    hide RunInv, Handle, Resume;
    match a
    case Work(claim, out) =>
      TakeKeeps(p, run, claim);
      WorkHistory(lim, p, Take(run, claim), claim, out);
    case Tick(claim) =>
      TimersElsewhere(p, run, TakeTimer(run, claim).timers);
      ResumeHistory(p, TakeTimer(run, claim), run.timers[claim.id].node, "timer", JNull);
    case Wake(n, payload) => ResumeHistory(p, run, n, "signal", payload);
    case Stop =>
  }

  lemma ResumeHistory(p: Plan, run: Run, n: NodeId, source: string, payload: Json)
    requires RunInv(p, run)
    ensures run.history <= Resume(run, n, source, payload).history
    ensures Adds(p, run.history, Resume(run, n, source, payload).history)
  {
    ResumeKeeps(p, run, n, source, payload);
    if run.status == Waiting && n in run.parked {
      hide Resume, Core, Covered, ResultsOk, StatusOk, IdsOk;
      ParkedShape(p, run, n);
      WakingNode(p, run, n);
    }
    hide RunInv;
  }

  lemma WakingNode(p: Plan, run: Run, n: NodeId)
    requires Core(p, run.history, run.remaining, run.queue, run.parked) && n in run.parked
    ensures run.parked[n].nodeId == n
  {
    ParkedShape(p, run, n);
    hide WfPlan, HistoryOk, CountsOk, TokensOk, Exclusive;
  }

  lemma SchedulerShape(p: Plan, run: Run, id: nat) returns (b: NodeId)
    requires RunInv(p, run) && ForeachsOk(p, run.history) && id in run.queue && run.queue[id].def.nodeType.Foreach?
    ensures ForeachShape(p, run.queue[id].nodeId, b) && p.deps.Keys == p.jobs.Keys
  {
    SchedulerParts(p, run, id);
    OpenNodes(p, run);
    hide RunInv, ForeachShape, WfPlan, HistoryOk, JobFor;
    b :| ForeachShape(p, run.queue[id].nodeId, b);
  }
}
