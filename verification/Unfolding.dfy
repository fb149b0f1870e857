/**
 Runs with foreach schedulers, followed from the plan they were started with: every fan-out rewrites the
 plan once, and what it left of the first plan is read off the run's own history.
 */
module Unfolding {
  import opened Values
  import opened Jobs
  import opened Runs
  import opened Plans
  import opened Invariant
  import opened Landing
  import opened Handlers
  import opened Preservation
  import opened Steps
  import opened Outcomes
  import opened ForeachRuns

  // ----- what a history says was fanned out

  /** The list a scheduler's stored result stands for: none was left of a skipped one. */
  function ItemsIn(result: Json): (r: Option<seq<Json>>)
    ensures forall items :: result == ItemsResult(items) ==> r == Some(items)
    ensures result == SKIPPED ==> r == Some([])
  {
    assert |"items"| != |"skipped"|;
    assert result == SKIPPED ==> "skipped" in result.fields;
    if result == SKIPPED then Some([])
    else if result.JObj? && "items" in result.fields && result.fields["items"].JArr? then Some(result.fields["items"].items) else None
  }

  /** The items that scheduler `f` fanned out over, if it did. */
  function Served(h: seq<Completion>, f: NodeId): Option<seq<Json>> {
    if h == [] then None
    else if h[|h| - 1].node == f then ItemsIn(h[|h| - 1].result)
    else Served(h[..|h| - 1], f)
  }

  /** The input that scheduler `f` completed with, if it did. */
  function ServedInput(h: seq<Completion>, f: NodeId): Input {
    if h == [] then map[]
    else if h[|h| - 1].node == f then h[|h| - 1].input
    else ServedInput(h[..|h| - 1], f)
  }

  lemma ServedAppend(h: seq<Completion>, c: Completion, f: NodeId)
    ensures Served(h + [c], f) == if c.node == f then ItemsIn(c.result) else Served(h, f)
    ensures ServedInput(h + [c], f) == if c.node == f then c.input else ServedInput(h, f)
  {
    assert (h + [c])[..|h|] == h;
  }

  ghost predicate IsLoop(p: Plan, f: NodeId) {
    f in p.jobs && p.jobs[f].def.nodeType.Foreach? && p.jobs[f].loop.Some?
  }

  ghost function BodyId(p: Plan, f: NodeId): NodeId
    requires IsLoop(p, f)
  {
    p.jobs[f].loop.value.body.nodeId
  }

  ghost function RejoinIds(p: Plan, f: NodeId): seq<NodeId>
    requires IsLoop(p, f)
  {
    p.jobs[f].loop.value.rejoins
  }

  ghost predicate Fanned(p0: Plan, h: seq<Completion>, f: NodeId) {
    IsLoop(p0, f) && Served(h, f).Some?
  }

  /** `n` is the body of a scheduler that fanned out. */
  ghost predicate IsBody(p0: Plan, h: seq<Completion>, n: NodeId) {
    exists f :: Fanned(p0, h, f) && BodyId(p0, f) == n
  }

  /** `n` collects what a scheduler fanned out. */
  ghost predicate IsRejoin(p0: Plan, h: seq<Completion>, n: NodeId) {
    exists f :: Fanned(p0, h, f) && n in RejoinIds(p0, f)
  }

  /** `n` is an iteration of a scheduler that fanned out. */
  ghost predicate IsIteration(p0: Plan, h: seq<Completion>, n: NodeId) {
    exists f :: Fanned(p0, h, f) && n in IterIds(BodyId(p0, f), |Served(h, f).value|)
  }

  // ----- the plan a run follows, against the plan it was started with

  /** All schedulers of the plan have the supported shape. */
  ghost predicate Looped(p: Plan) {
    && p.deps.Keys == p.jobs.Keys
    && forall f {:trigger IsLoop(p, f)} :: f in p.jobs && p.jobs[f].def.nodeType.Foreach? ==>
         IsLoop(p, f) && ForeachShape(p, f, BodyId(p, f))
  }

  /** But for the loop variable, the iteration has the scheduler's event and steps. */
  predicate FromScheduler(asVar: string, input: Input, iteration: Input) {
    && (asVar != EVENT ==> EventOf(iteration) == EventOf(input))
    && (asVar != STEPS ==> StepsOf(iteration) == StepsOf(input))
  }

  /** Iteration `i` is the body's job in the scheduler's run, seeded with its own item. */
  ghost predicate IterOk(p0: Plan, p: Plan, f: NodeId, items: seq<Json>, input: Input, i: nat)
    requires IsLoop(p0, f) && i < |items|
  {
    var loop := p0.jobs[f].loop.value;
    var n := IterId(loop.body.nodeId, i);
    && n in p.jobs && n in p.deps && p.deps[n] == {}
    && p.jobs[n].def == loop.body.def && p.jobs[n].runId == p0.jobs[f].runId
    && n in p.seeds && p.seeds[n].collect.None?
    && loop.bodyAs in p.seeds[n].input && p.seeds[n].input[loop.bodyAs] == items[i]
    && FromScheduler(loop.bodyAs, input, p.seeds[n].input)
  }

  /** The name under which a rejoin finds the collected array. */
  function CollectName(job: NodeJob): string {
    if job.collect.Some? then job.collect.value.name else ""
  }

  /** A rejoin waits for exactly the iterations, and is marked to collect them. */
  ghost predicate JoinOk(p0: Plan, p: Plan, f: NodeId, count: nat, r: NodeId)
    requires IsLoop(p0, f)
  {
    var loop := p0.jobs[f].loop.value;
    && r in p0.jobs && r in p.jobs && r in p.deps
    && p.deps[r] == IterIds(loop.body.nodeId, count)
    && p.jobs[r].collect == Some(Collect(loop.body.nodeId, loop.bodyAs, count, CollectName(p0.jobs[r])))
  }

  /** A scheduler that fanned out over `items`: its body is gone, the iterations are there, the rejoins wait for them. */
  ghost predicate Spread(p0: Plan, p: Plan, f: NodeId, items: seq<Json>, input: Input)
    requires IsLoop(p0, f)
  {
    && BodyId(p0, f) !in p.jobs
    && Feeds(items, RejoinIds(p0, f))
    && (forall i: nat {:trigger IterOk(p0, p, f, items, input, i)} :: i < |items| ==> IterOk(p0, p, f, items, input, i))
    && (forall r {:trigger JoinOk(p0, p, f, |items|, r)} :: r in RejoinIds(p0, f) ==> JoinOk(p0, p, f, |items|, r))
  }

  ghost predicate LoopOk(p0: Plan, p: Plan, h: seq<Completion>, f: NodeId)
    requires IsLoop(p0, f)
  {
    match Served(h, f)
    case None => f !in DoneSet(h) && ForeachShape(p, f, BodyId(p0, f))
    case Some(items) => f in DoneSet(h) && Spread(p0, p, f, items, ServedInput(h, f))
  }

  /** A node of the first plan is still there, unless it is a body that was fanned out; only rejoins changed. */
  ghost predicate NodeOk(p0: Plan, p: Plan, h: seq<Completion>, n: NodeId)
    requires n in p0.jobs && n in p0.deps
  {
    if IsBody(p0, h, n) then n !in p.jobs
    else
      && n in p.jobs && n in p.deps
      && p.jobs[n] == p0.jobs[n].(collect := p.jobs[n].collect)
      && (!IsRejoin(p0, h, n) ==> p.jobs[n].collect == p0.jobs[n].collect && p.deps[n] == p0.deps[n])
  }

  /** Any other node is an iteration. */
  ghost predicate NewOk(p0: Plan, p: Plan, h: seq<Completion>, n: NodeId)
    requires n in p.jobs
  {
    n !in p0.jobs ==> IsIteration(p0, h, n) && !p.jobs[n].def.nodeType.Foreach?
  }

  /** An iteration completes only after its scheduler fanned out. */
  ghost predicate AfterFan(p0: Plan, h: seq<Completion>, j: nat)
    requires j < |h|
  {
    h[j].node !in p0.jobs ==> IsIteration(p0, h[..j], h[j].node)
  }

  ghost predicate FannedFirst(p0: Plan, h: seq<Completion>) {
    forall j: nat {:trigger AfterFan(p0, h, j)} :: j < |h| ==> AfterFan(p0, h, j)
  }

  /** `p` is what the fan-outs recorded in `h` made of the plan `p0`. */
  ghost predicate Unfolds(p0: Plan, p: Plan, h: seq<Completion>) {
    && Looped(p0)
    && p.deps.Keys == p.jobs.Keys
    && FannedFirst(p0, h)
    && (forall n {:trigger NodeOk(p0, p, h, n)} :: n in p0.jobs ==> NodeOk(p0, p, h, n))
    && (forall n {:trigger NewOk(p0, p, h, n)} :: n in p.jobs ==> NewOk(p0, p, h, n))
    && (forall f {:trigger LoopOk(p0, p, h, f)} :: IsLoop(p0, f) ==> LoopOk(p0, p, h, f))
  }

  // ----- ordinary completions leave it alone

  lemma KindStays(p0: Plan, p: Plan, h: seq<Completion>, n: NodeId)
    requires Unfolds(p0, p, h) && IsLoop(p0, n) && n in p.jobs
    ensures p.jobs[n].def.nodeType.Foreach?
  {
    assert NodeOk(p0, p, h, n);
  }

  lemma SameFanned(p0: Plan, h: seq<Completion>, h': seq<Completion>)
    requires forall f :: IsLoop(p0, f) ==> Served(h', f) == Served(h, f)
    ensures forall f :: Fanned(p0, h', f) == Fanned(p0, h, f)
    ensures forall n :: IsBody(p0, h', n) == IsBody(p0, h, n)
    ensures forall n :: IsRejoin(p0, h', n) == IsRejoin(p0, h, n)
    ensures forall n :: IsIteration(p0, h', n) == IsIteration(p0, h, n)
  {
    hide Served, ServedInput, IterIds;
  }

  lemma FannedFirstAppend(p0: Plan, h: seq<Completion>, c: Completion)
    requires FannedFirst(p0, h) && (c.node !in p0.jobs ==> IsIteration(p0, h, c.node))
    ensures FannedFirst(p0, h + [c])
  {
    hide IsIteration;
    var h' := h + [c];
    forall j: nat | j < |h'|
      ensures AfterFan(p0, h', j)
    {
      if j < |h| {
        assert h'[..j] == h[..j];
        assert AfterFan(p0, h, j);
      } else {
        assert h'[..j] == h;
      }
    }
  }

  /** The completion of a node that is no scheduler changes nothing about the schedulers. */
  lemma UnfoldsAppend(p0: Plan, p: Plan, h: seq<Completion>, c: Completion)
    requires Unfolds(p0, p, h) && c.node in p.jobs && !p.jobs[c.node].def.nodeType.Foreach?
    ensures Unfolds(p0, p, h + [c])
  {
    var h' := h + [c];
    forall f | IsLoop(p0, f)
      ensures f != c.node && Served(h', f) == Served(h, f) && ServedInput(h', f) == ServedInput(h, f)
      ensures f in DoneSet(h') <==> f in DoneSet(h)
    {
      if f == c.node {
        KindStays(p0, p, h, f);
      }
      ServedAppend(h, c, f);
      DoneSetAppend(h, c);
    }
    SameFanned(p0, h, h');
    assert NewOk(p0, p, h, c.node);
    FannedFirstAppend(p0, h, c);
    hide FannedFirst, IsLoop, IsBody, IsRejoin, IsIteration, Served, ServedInput, DoneSet, Spread, ForeachShape, Looped, BodyId;
    forall n | n in p0.jobs
      ensures NodeOk(p0, p, h', n)
    {
      assert NodeOk(p0, p, h, n);
    }
    forall n | n in p.jobs
      ensures NewOk(p0, p, h', n)
    {
      assert NewOk(p0, p, h, n);
    }
    forall f | IsLoop(p0, f)
      ensures LoopOk(p0, p, h', f)
    {
      assert LoopOk(p0, p, h, f);
    }
  }

  lemma UnfoldsAdds(p0: Plan, p: Plan, h: seq<Completion>, h': seq<Completion>)
    requires Unfolds(p0, p, h) && Adds(p, h, h')
    ensures Unfolds(p0, p, h')
  {
    hide Unfolds;
    if h' != h {
      var c: Completion :| h' == h + [c] && c.node in p.jobs && !p.jobs[c.node].def.nodeType.Foreach?;
      UnfoldsAppend(p0, p, h, c);
    }
  }

  /** A plan of supported schedulers unfolds to itself before anything completed. */
  lemma Unfolded(p0: Plan)
    requires ForeachsOk(p0, [])
    ensures Unfolds(p0, p0, [])
  {
    forall f | f in p0.jobs && p0.jobs[f].def.nodeType.Foreach?
      ensures IsLoop(p0, f) && ForeachShape(p0, f, BodyId(p0, f))
    {
      assert DoneSet([]) == {};
      var b :| ForeachShape(p0, f, b);
    }
    assert forall f :: !Fanned(p0, [], f);
    hide ForeachShape;
  }

  /** The schedulers left have the supported shape. */
  lemma UnfoldsShapes(p0: Plan, p: Plan, h: seq<Completion>)
    requires Unfolds(p0, p, h)
    ensures ForeachsOk(p, h)
  {
    hide ForeachShape, Served, ServedInput, DoneSet, Spread, IsBody, IsRejoin, IsIteration;
    forall f | f in p.jobs && p.jobs[f].def.nodeType.Foreach? && f !in DoneSet(h)
      ensures exists b :: ForeachShape(p, f, b)
    {
      assert NewOk(p0, p, h, f);
      assert NodeOk(p0, p, h, f);
      assert IsLoop(p0, f);
      assert LoopOk(p0, p, h, f);
    }
  }

  // ----- a fan-out

  /** A fan-out of a scheduler that has not completed, in a plan that unfolds another. */
  ghost predicate Spreading(p0: Plan, p: Plan, h: seq<Completion>, f: NodeId, b: NodeId, job: NodeJob, items: seq<Json>,
          c: Completion) {
    && Unfolds(p0, p, h) && Fans(p, f, b, job, items)
    && f !in DoneSet(h) && c.node == f && c.input == job.input && ItemsIn(c.result) == Some(items)
  }

  /** Such a scheduler, its body and its rejoins are the first plan's. */
  lemma SpreadParts(p0: Plan, p: Plan, h: seq<Completion>, f: NodeId, b: NodeId, job: NodeJob, items: seq<Json>,
          c: Completion)
    requires Spreading(p0, p, h, f, b, job, items, c)
    ensures IsLoop(p0, f) && BodyId(p0, f) == b && job.loop == p0.jobs[f].loop && job.runId == p0.jobs[f].runId && ForeachShape(p0, f, b)
    ensures f in p.jobs && b in p0.jobs && b in p.jobs && Served(h, f) == None
    ensures RejoinIds(p0, f) == p.jobs[b].dependents && Feeds(items, RejoinIds(p0, f))
    ensures forall r :: r in RejoinIds(p0, f) ==> r in p0.jobs && r in p0.deps && p0.deps[r] == {b}
  {
    assert NewOk(p0, p, h, f) && NodeOk(p0, p, h, f);
    assert IsLoop(p0, f);
    assert LoopOk(p0, p, h, f);
    hide Spread, IsBody, IsRejoin, IsIteration, WfPlan;
  }

  lemma SpreadServed(p0: Plan, p: Plan, h: seq<Completion>, f: NodeId, b: NodeId, job: NodeJob, items: seq<Json>,
          c: Completion)
    requires Spreading(p0, p, h, f, b, job, items, c)
    ensures forall g :: Served(h + [c], g) == if g == f then Some(items) else Served(h, g)
    ensures forall g :: ServedInput(h + [c], g) == if g == f then job.input else ServedInput(h, g)
    ensures forall g :: Fanned(p0, h + [c], g) <==> Fanned(p0, h, g) || g == f
    ensures DoneSet(h + [c]) == DoneSet(h) + {f}
  {
    SpreadParts(p0, p, h, f, b, job, items, c);
    DoneSetAppend(h, c);
    hide Unfolds, Fans, Served, ServedInput, DoneSet;
    forall g
      ensures Served(h + [c], g) == if g == f then Some(items) else Served(h, g)
      ensures ServedInput(h + [c], g) == if g == f then job.input else ServedInput(h, g)
    {
      ServedAppend(h, c, g);
    }
  }

  /** The bodies, rejoins and iterations after the fan-out. */
  lemma SpreadRoles(p0: Plan, p: Plan, h: seq<Completion>, f: NodeId, b: NodeId, job: NodeJob, items: seq<Json>,
          c: Completion, n: NodeId)
    requires Spreading(p0, p, h, f, b, job, items, c)
    ensures IsBody(p0, h + [c], n) <==> IsBody(p0, h, n) || n == b
    ensures IsRejoin(p0, h + [c], n) <==> IsRejoin(p0, h, n) || n in p.jobs[b].dependents
    ensures IsIteration(p0, h + [c], n) <==> IsIteration(p0, h, n) || n in IterIds(b, |items|)
  {
    SpreadParts(p0, p, h, f, b, job, items, c);
    SpreadServed(p0, p, h, f, b, job, items, c);
    hide Spreading, Served, ServedInput, DoneSet, ForeachShape, IterIds, Fanned, IsBody, IsRejoin, IsIteration, Unfolds, Fans;
    FannedRoles(p0, h, h + [c], f, items, n);
  }

  /** One more scheduler fanned out: one more body, its rejoins and its iterations. */
  lemma FannedRoles(p0: Plan, h: seq<Completion>, h': seq<Completion>, f: NodeId, items: seq<Json>, n: NodeId)
    requires IsLoop(p0, f)
    requires forall g :: Served(h', g) == if g == f then Some(items) else Served(h, g)
    requires Served(h, f) == None
    ensures IsBody(p0, h', n) <==> IsBody(p0, h, n) || n == BodyId(p0, f)
    ensures IsRejoin(p0, h', n) <==> IsRejoin(p0, h, n) || n in RejoinIds(p0, f)
    ensures IsIteration(p0, h', n) <==> IsIteration(p0, h, n) || n in IterIds(BodyId(p0, f), |items|)
  {
    assert forall g :: Fanned(p0, h', g) <==> Fanned(p0, h, g) || g == f;
    hide Served, ServedInput, IterIds, IsLoop, Fanned;
    FannedIterations(p0, h, h', f, items, n);
    hide IsIteration;
    FannedBodies(p0, h, h', f, n);
  }

  lemma FannedBodies(p0: Plan, h: seq<Completion>, h': seq<Completion>, f: NodeId, n: NodeId)
    requires IsLoop(p0, f) && forall g :: Fanned(p0, h', g) <==> Fanned(p0, h, g) || g == f
    ensures IsBody(p0, h', n) <==> IsBody(p0, h, n) || n == BodyId(p0, f)
    ensures IsRejoin(p0, h', n) <==> IsRejoin(p0, h, n) || n in RejoinIds(p0, f)
  {
    hide Served, ServedInput, IsLoop;
    assert Fanned(p0, h', f);
  }

  lemma FannedIterations(p0: Plan, h: seq<Completion>, h': seq<Completion>, f: NodeId, items: seq<Json>, n: NodeId)
    requires IsLoop(p0, f) && forall g :: Fanned(p0, h', g) <==> Fanned(p0, h, g) || g == f
    requires forall g :: Served(h', g) == if g == f then Some(items) else Served(h, g)
    requires Served(h, f) == None
    ensures IsIteration(p0, h', n) <==> IsIteration(p0, h, n) || n in IterIds(BodyId(p0, f), |items|)
  {
    assert Fanned(p0, h', f) && !Fanned(p0, h, f);
    hide Served, ServedInput, IterIds, IsLoop, Fanned;
    assert forall g :: Fanned(p0, h, g) ==> Served(h', g) == Served(h, g);
  }

  lemma LoopBody(p0: Plan, f: NodeId)
    requires Looped(p0) && IsLoop(p0, f)
    ensures BodyId(p0, f) in p0.jobs && BodyId(p0, f) in p0.deps && p0.deps[BodyId(p0, f)] == {f}
  {
    assert ForeachShape(p0, f, BodyId(p0, f));
  }

  lemma IterationsAreNew(p0: Plan, f: NodeId, count: nat)
    requires Looped(p0) && IsLoop(p0, f)
    ensures forall n :: n in IterIds(BodyId(p0, f), count) ==> n !in p0.jobs
  {
    assert ForeachShape(p0, f, BodyId(p0, f));
  }

  lemma SpreadNode(p0: Plan, p: Plan, h: seq<Completion>, f: NodeId, b: NodeId, job: NodeJob, items: seq<Json>,
          c: Completion, n: NodeId)
    requires Spreading(p0, p, h, f, b, job, items, c) && n in p0.jobs
    ensures b in p.rank && job.loop.Some? && n in p0.deps && NodeOk(p0, Expand(p, b, job, items), h + [c], n)
  {
    assert NodeOk(p0, p, h, n);
    FanFacts(p, f, b, job, items);
    hide Unfolds, Fans, Expand, IsBody, IsRejoin, DoneSet;
    SpreadRoles(p0, p, h, f, b, job, items, c, n);
    if n == b {
      BodyGone(p, f, b, job, items);
    } else if n in p.jobs {
      OldNode(p, f, b, job, items, n);
    } else {
      GoneStays(p0, p, h, f, b, job, items, c, n);
    }
  }

  /** A node of the first plan that is gone does not come back. */
  lemma GoneStays(p0: Plan, p: Plan, h: seq<Completion>, f: NodeId, b: NodeId, job: NodeJob, items: seq<Json>,
          c: Completion, n: NodeId)
    requires Spreading(p0, p, h, f, b, job, items, c) && n in p0.jobs && n !in p.jobs
    ensures b in p.rank && job.loop.Some? && n !in Expand(p, b, job, items).jobs
  {
    SpreadParts(p0, p, h, f, b, job, items, c);
    IterationsAreNew(p0, f, |items|);
    IterKeys(p, f, b, job, items);
    FanFacts(p, f, b, job, items);
    hide Fans, Expand, Iters, IterIds, Unfolds, ForeachShape;
    if n in Expand(p, b, job, items).jobs {
      NoOtherNode(p, f, b, job, items, n);
    }
  }

  lemma BodyGone(p: Plan, f: NodeId, b: NodeId, job: NodeJob, items: seq<Json>)
    requires Fans(p, f, b, job, items)
    ensures b !in Expand(p, b, job, items).jobs
  {
    if b in Expand(p, b, job, items).jobs {
      NoOtherNode(p, f, b, job, items, b);
      IterShape(p, f, b, job, items, b);
    }
  }

  lemma SpreadNew(p0: Plan, p: Plan, h: seq<Completion>, f: NodeId, b: NodeId, job: NodeJob, items: seq<Json>,
          c: Completion, n: NodeId)
    requires Spreading(p0, p, h, f, b, job, items, c)
    requires b in p.rank && job.loop.Some? && n in Expand(p, b, job, items).jobs
    ensures NewOk(p0, Expand(p, b, job, items), h + [c], n)
  {
    SpreadRoles(p0, p, h, f, b, job, items, c, n);
    IterKeys(p, f, b, job, items);
    NoOtherNode(p, f, b, job, items, n);
    hide Expand, Iters, IterIds, ForeachShape, IsBody, IsRejoin, IsIteration, Served, ServedInput, DoneSet, WfPlan, Spread, Fans;
    if n in Iters(job, items) {
      NewNode(p, f, b, job, items, n);
      IterShape(p, f, b, job, items, n);
    } else {
      assert NewOk(p0, p, h, n);
      OldNode(p, f, b, job, items, n);
    }
  }

  /** The scheduler that fans out spreads. */
  lemma SpreadsIt(p0: Plan, p: Plan, h: seq<Completion>, f: NodeId, b: NodeId, job: NodeJob, items: seq<Json>,
          c: Completion)
    requires Spreading(p0, p, h, f, b, job, items, c)
    ensures b in p.rank && job.loop.Some? && IsLoop(p0, f) && Spread(p0, Expand(p, b, job, items), f, items, job.input)
  {
    SpreadParts(p0, p, h, f, b, job, items, c);
    FanFacts(p, f, b, job, items);
    BodyGone(p, f, b, job, items);
    var p' := Expand(p, b, job, items);
    forall i: nat | i < |items|
      ensures IterOk(p0, p', f, items, job.input, i)
    {
      SpreadIteration(p0, p, h, f, b, job, items, c, i);
    }
    forall r | r in RejoinIds(p0, f)
      ensures JoinOk(p0, p', f, |items|, r)
    {
      SpreadJoin(p0, p, h, f, b, job, items, c, r);
    }
    hide Expand, Unfolds, Fans, IterOk, JoinOk, ForeachShape;
  }

  lemma SpreadIteration(p0: Plan, p: Plan, h: seq<Completion>, f: NodeId, b: NodeId, job: NodeJob, items: seq<Json>,
          c: Completion, i: nat)
    requires Spreading(p0, p, h, f, b, job, items, c) && i < |items|
    ensures b in p.rank && job.loop.Some? && IsLoop(p0, f) && IterOk(p0, Expand(p, b, job, items), f, items, job.input, i)
  {
    SpreadParts(p0, p, h, f, b, job, items, c);
    FanFacts(p, f, b, job, items);
    ItersAre(p, f, b, job, items);
    IterationInput(p, f, b, job, items, i);
    hide Expand, Iters, Unfolds, IterIds, IterId, BodyJobs;
    NewNode(p, f, b, job, items, IterId(b, i));
    IterShape(p, f, b, job, items, IterId(b, i));
  }

  lemma SpreadJoin(p0: Plan, p: Plan, h: seq<Completion>, f: NodeId, b: NodeId, job: NodeJob, items: seq<Json>,
          c: Completion, r: NodeId)
    requires Spreading(p0, p, h, f, b, job, items, c)
    requires IsLoop(p0, f) && r in RejoinIds(p0, f)
    ensures b in p.rank && job.loop.Some? && JoinOk(p0, Expand(p, b, job, items), f, |items|, r)
  {
    SpreadParts(p0, p, h, f, b, job, items, c);
    FanFacts(p, f, b, job, items);
    FreshRejoin(p0, p, h, f, b, job, items, c, r);
    Rejoin(p, f, b, job, items, r);
    hide Expand, Iters, Unfolds, IterIds, Fans, ForeachShape;
    OldNode(p, f, b, job, items, r);
  }

  /** Until its scheduler fans out, a rejoin is no other scheduler's. */
  lemma FreshRejoin(p0: Plan, p: Plan, h: seq<Completion>, f: NodeId, b: NodeId, job: NodeJob, items: seq<Json>,
          c: Completion, r: NodeId)
    requires Spreading(p0, p, h, f, b, job, items, c)
    requires IsLoop(p0, f) && r in RejoinIds(p0, f)
    ensures r in p0.jobs && r in p.jobs && p.jobs[r].collect == p0.jobs[r].collect
  {
    SpreadParts(p0, p, h, f, b, job, items, c);
    assert NodeOk(p0, p, h, r);
    assert NodeOk(p0, p, h, b);
    hide Served, ServedInput, DoneSet, Spread, WfPlan;
    Rejoin(p, f, b, job, items, r);
    RejoinAfterBody(p0, h, r, b);
  }

  lemma RejoinAfterBody(p0: Plan, h: seq<Completion>, r: NodeId, b: NodeId)
    requires Looped(p0) && r in p0.deps && p0.deps[r] == {b}
    ensures IsRejoin(p0, h, r) ==> IsBody(p0, h, b)
  {
    if IsRejoin(p0, h, r) {
      var g :| Fanned(p0, h, g) && r in RejoinIds(p0, g);
      assert ForeachShape(p0, g, BodyId(p0, g));
      assert p0.deps[r] == {BodyId(p0, g)};
    }
  }

  /** A scheduler that fanned out earlier is untouched. */
  lemma SpreadStays(p0: Plan, p: Plan, h: seq<Completion>, f: NodeId, b: NodeId, job: NodeJob, items: seq<Json>,
          c: Completion, g: NodeId, served: seq<Json>, input: Input)
    requires Spreading(p0, p, h, f, b, job, items, c)
    requires IsLoop(p0, g) && Spread(p0, p, g, served, input)
    ensures b in p.rank && job.loop.Some? && Spread(p0, Expand(p, b, job, items), g, served, input)
  {
    hide Fans, IterOk, JoinOk, Expand, Spreading, Unfolds, ForeachShape, Served, ServedInput, DoneSet;
    SpreadWhole(p0, p, h, f, b, job, items, c);
    SpreadParts(p0, p, h, f, b, job, items, c);
    FanFacts(p, f, b, job, items);
    var p' := Expand(p, b, job, items);
    forall i: nat | i < |served|
      ensures IterOk(p0, p', g, served, input, i)
    {
      IterStays(p0, p, h, f, b, job, items, c, g, served, input, i);
    }
    forall r | r in RejoinIds(p0, g)
      ensures JoinOk(p0, p', g, |served|, r)
    {
      JoinStays(p0, p, h, f, b, job, items, c, g, served, input, r);
    }
    LoopBody(p0, g);
    GoneStays(p0, p, h, f, b, job, items, c, BodyId(p0, g));
  }

  lemma SpreadWhole(p0: Plan, p: Plan, h: seq<Completion>, f: NodeId, b: NodeId, job: NodeJob, items: seq<Json>,
          c: Completion)
    requires Spreading(p0, p, h, f, b, job, items, c)
    ensures Fans(p, f, b, job, items) && Looped(p0) && Unfolds(p0, p, h)
  {
    hide Fans, Looped, FannedFirst, NodeOk, NewOk, LoopOk;
  }

  lemma IterStays(p0: Plan, p: Plan, h: seq<Completion>, f: NodeId, b: NodeId, job: NodeJob, items: seq<Json>,
          c: Completion, g: NodeId, served: seq<Json>, input: Input, i: nat)
    requires Spreading(p0, p, h, f, b, job, items, c)
    requires IsLoop(p0, g) && Spread(p0, p, g, served, input) && i < |served|
    ensures b in p.rank && job.loop.Some? && IterOk(p0, Expand(p, b, job, items), g, served, input, i)
  {
    var n := IterId(BodyId(p0, g), i);
    assert IterOk(p0, p, g, served, input, i);
    IterationsAreNew(p0, g, |served|);
    SpreadParts(p0, p, h, f, b, job, items, c);
    FanFacts(p, f, b, job, items);
    assert n in IterIds(BodyId(p0, g), |served|);
    assert n !in p0.jobs && n != b && n !in p.jobs[b].dependents;
    hide Fans, Expand, Iters, Unfolds, IterId, IterIds, ForeachShape;
    OldNode(p, f, b, job, items, n);
  }

  lemma JoinStays(p0: Plan, p: Plan, h: seq<Completion>, f: NodeId, b: NodeId, job: NodeJob, items: seq<Json>,
          c: Completion, g: NodeId, served: seq<Json>, input: Input, r: NodeId)
    requires Spreading(p0, p, h, f, b, job, items, c)
    requires IsLoop(p0, g) && Spread(p0, p, g, served, input) && r in RejoinIds(p0, g)
    ensures b in p.rank && job.loop.Some? && JoinOk(p0, Expand(p, b, job, items), g, |served|, r)
  {
    assert JoinOk(p0, p, g, |served|, r);
    SpreadParts(p0, p, h, f, b, job, items, c);
    FanFacts(p, f, b, job, items);
    ForeignRejoin(p0, p, f, b, g, r);
    hide Fans, Expand, Iters, Unfolds, IterIds, ForeachShape;
    OldNode(p, f, b, job, items, r);
  }

  lemma ForeignRejoin(p0: Plan, p: Plan, f: NodeId, b: NodeId, g: NodeId, r: NodeId)
    requires Looped(p0) && IsLoop(p0, f) && BodyId(p0, f) == b && IsLoop(p0, g) && r in RejoinIds(p0, g)
    requires f in p.jobs && b in p.jobs && RejoinIds(p0, f) == p.jobs[b].dependents && BodyId(p0, g) !in p.jobs
    ensures r != b && r !in p.jobs[b].dependents
  {
    assert ForeachShape(p0, f, b) && ForeachShape(p0, g, BodyId(p0, g));
  }

  lemma SpreadLoop(p0: Plan, p: Plan, h: seq<Completion>, f: NodeId, b: NodeId, job: NodeJob, items: seq<Json>,
          c: Completion, g: NodeId)
    requires Spreading(p0, p, h, f, b, job, items, c) && IsLoop(p0, g)
    ensures b in p.rank && job.loop.Some? && LoopOk(p0, Expand(p, b, job, items), h + [c], g)
  {
    assert LoopOk(p0, p, h, g);
    FanFacts(p, f, b, job, items);
    hide Expand, Unfolds, Fans, Spread, Served, ServedInput, DoneSet, ForeachShape, IsLoop, FannedFirst;
    SpreadParts(p0, p, h, f, b, job, items, c);
    SpreadServed(p0, p, h, f, b, job, items, c);
    if g == f {
      SpreadsIt(p0, p, h, f, b, job, items, c);
    } else {
      match Served(h, g) {
        case None => OtherShape(p, f, b, job, items, g, BodyId(p0, g));
        case Some(served) => SpreadStays(p0, p, h, f, b, job, items, c, g, served, ServedInput(h, g));
      }
    }
  }

  /** A fan-out unfolds the plan further. */
  lemma UnfoldsFan(p0: Plan, p: Plan, h: seq<Completion>, f: NodeId, b: NodeId, job: NodeJob, items: seq<Json>,
          c: Completion)
    requires Spreading(p0, p, h, f, b, job, items, c)
    ensures b in p.rank && job.loop.Some? && Unfolds(p0, Expand(p, b, job, items), h + [c])
  {
    FanFacts(p, f, b, job, items);
    hide FannedFirst, Expand, Fans, NodeOk, NewOk, LoopOk, IsLoop, ForeachShape, Served, ServedInput, DoneSet, IsIteration;
    ExpandedKeys(p, f, b, job, items);
    SpreadParts(p0, p, h, f, b, job, items, c);
    FannedFirstAppend(p0, h, c);
    var p' := Expand(p, b, job, items);
    forall n | n in p0.jobs
      ensures NodeOk(p0, p', h + [c], n)
    {
      SpreadNode(p0, p, h, f, b, job, items, c, n);
    }
    forall n | n in p'.jobs
      ensures NewOk(p0, p', h + [c], n)
    {
      SpreadNew(p0, p, h, f, b, job, items, c, n);
    }
    forall g | IsLoop(p0, g)
      ensures LoopOk(p0, p', h + [c], g)
    {
      SpreadLoop(p0, p, h, f, b, job, items, c, g);
    }
  }

  // ----- the plan after every step

  /** The plan followed after a step: rewritten by a fan-out, else the same. */
  ghost function PlanAfter(p: Plan, run: Run, a: Action): Plan {
    if Fanning(run, a) && run.queue[a.claim.id].loop.value.body.nodeId in p.rank
    then Expand(p, run.queue[a.claim.id].loop.value.body.nodeId, run.queue[a.claim.id], ItemsOf(run, a))
    else p
  }

  /** The plan followed after the steps `acts`, from the plan `p0` on. */
  ghost function PlanAlong(p0: Plan, runs: seq<Run>, acts: seq<Action>): Plan
    requires |acts| <= |runs|
  {
    if acts == [] then p0
    else
      var n := |acts| - 1;
      PlanAfter(PlanAlong(p0, runs, acts[..n]), runs[n], acts[n])
  }

  /** The run keeps its invariant for the plan that its history made of the plan it was started with. */
  ghost predicate Tracks(p0: Plan, p: Plan, run: Run) {
    RunInv(p, run) && Unfolds(p0, p, run.history)
  }

  lemma OrdinaryTracks(lim: Limits, p0: Plan, p: Plan, run: Run, a: Action)
    requires Bounded(lim) && Tracks(p0, p, run) && Enabled(run, a) && Ordinary(run, a)
    ensures Tracks(p0, p, Next(lim, run, a)) && !Fanning(run, a)
    ensures run.history <= Next(lim, run, a).history
  {
    hide RunInv, Next, Unfolds, Adds;
    StepKeeps(lim, p, run, a);
    StepHistory(lim, p, run, a);
    UnfoldsAdds(p0, p, run.history, Next(lim, run, a).history);
  }

  /** A claimed scheduler that is served a list that feeds its rejoins. */
  lemma FanTracks(lim: Limits, p0: Plan, p: Plan, run: Run, claim: Claim, items: seq<Json>)
    requires Tracks(p0, p, run) && ClaimValid(run, claim) && (run.status == Running || run.status == Waiting)
    requires var job := run.queue[claim.id];
             && job.def.nodeType.Foreach? && !job.skip
             && (job.loop.Some? ==> Feeds(items, job.loop.value.rejoins))
    ensures var job := run.queue[claim.id];
            && job.loop.Some? && job.loop.value.body.nodeId in p.rank
            && Tracks(p0, Expand(p, job.loop.value.body.nodeId, job, items), FanForeach(lim, run, claim, items))
            && run.history <= FanForeach(lim, run, claim, items).history
            && job.nodeId in DoneSet(FanForeach(lim, run, claim, items).history)
  {
    hide RunInv, Unfolds, ForeachShape, ForeachsOk, FanForeach, Expand, WfPlan, HistoryOk, JobFor, DoneSet, ItemsResult;
    var job := run.queue[claim.id];
    var c := Completing(job, None, job.input, ItemsResult(items));
    var b := TrackedScheduler(p0, p, run, claim);
    assert MayFan(p, run, claim, b, items);
    ForeachKeeps(lim, p, run, claim, b, items);
    ClaimedScheduler(p, run, claim, b, items);
    hide MayFan;
    assert Spreading(p0, p, run.history, job.nodeId, b, job, items, c);
    hide Spreading, Fans;
    UnfoldsFan(p0, p, run.history, job.nodeId, b, job, items, c);
    DoneSetAppend(run.history, c);
  }

  /** A claimed scheduler has the supported shape in the plan followed, and has not completed. */
  lemma TrackedScheduler(p0: Plan, p: Plan, run: Run, claim: Claim) returns (b: NodeId)
    requires Tracks(p0, p, run) && ClaimValid(run, claim) && run.queue[claim.id].def.nodeType.Foreach?
    ensures var job := run.queue[claim.id];
            && ForeachShape(p, job.nodeId, b) && p.deps.Keys == p.jobs.Keys && b in p.jobs
            && job.loop.Some? && job.loop.value.body.nodeId == b && job.loop.value.rejoins == p.jobs[b].dependents
            && job.nodeId !in DoneSet(run.history)
  {
    UnfoldsShapes(p0, p, run.history);
    b := SchedulerShape(p, run, claim.id);
    SchedulerParts(p, run, claim.id);
    ShapeParts(p, run.queue[claim.id].nodeId, b);
    OpenNode(p, run, claim.id);
    hide RunInv, Unfolds, ForeachShape, WfPlan, HistoryOk, JobFor, DoneSet;
  }

  /** A claimed scheduler without rejoins that a switch skipped. */
  lemma SkipTracks(p0: Plan, p: Plan, run: Run, claim: Claim)
    requires Tracks(p0, p, run) && ClaimValid(run, claim) && (run.status == Running || run.status == Waiting)
    requires var job := run.queue[claim.id];
             job.def.nodeType.Foreach? && job.skip && (job.loop.Some? ==> job.loop.value.rejoins == [])
    ensures var job := run.queue[claim.id];
            && job.loop.Some? && job.loop.value.body.nodeId in p.rank
            && Tracks(p0, Expand(p, job.loop.value.body.nodeId, job, []), Finish(run, claim, Skipping(job)))
            && run.history <= Finish(run, claim, Skipping(job)).history
            && job.nodeId in DoneSet(Finish(run, claim, Skipping(job)).history)
  {
    hide RunInv, Unfolds, ForeachShape, ForeachsOk, Finish, Expand, WfPlan, HistoryOk, JobFor, DoneSet;
    var job := run.queue[claim.id];
    var c := Skipping(job);
    var b := TrackedScheduler(p0, p, run, claim);
    assert MaySkip(p, run, claim, b);
    SkipKeeps(p, run, claim, b);
    SkipScheduling(p, run, claim, b);
    hide MaySkip;
    assert Spreading(p0, p, run.history, job.nodeId, b, job, [], c);
    hide Spreading, Fans;
    UnfoldsFan(p0, p, run.history, job.nodeId, b, job, [], c);
    DoneSetAppend(run.history, c);
  }

  lemma SchedulerTracks(lim: Limits, p0: Plan, p: Plan, run: Run, a: Action)
    requires Bounded(lim) && Tracks(p0, p, run) && Enabled(run, a) && Supported(run, a) && !Ordinary(run, a)
    ensures Tracks(p0, PlanAfter(p, run, a), Next(lim, run, a))
    ensures run.history <= Next(lim, run, a).history
    ensures Fanning(run, a) ==> run.queue[a.claim.id].nodeId in DoneSet(Next(lim, run, a).history)
  {
    hide DoneSet, RunInv, Unfolds, RecordFailure, FanForeach, Finish, Expand, Bounded, Shelve;
    var taken := Take(run, a.claim);
    TakeKeeps(p, run, a.claim);
    assert Tracks(p0, p, taken);
    hide Tracks;
    if run.status != Running && run.status != Waiting {
      ShelvedTracks(p0, p, taken, a.claim);
    } else if run.queue[a.claim.id].skip {
      SkipTracks(p0, p, taken, a.claim);
    } else if a.out.Output? && a.out.value.JArr? {
      FanTracks(lim, p0, p, taken, a.claim, a.out.value.items);
    } else {
      FailedTracks(lim, p0, p, taken, a.claim, if a.out.Broke? then a.out.cause else OtherCause);
    }
  }

  lemma ShelvedTracks(p0: Plan, p: Plan, run: Run, claim: Claim)
    requires Tracks(p0, p, run) && ClaimValid(run, claim) && run.status != Running && run.status != Waiting
    ensures Tracks(p0, p, Shelve(run, claim, Dropped)) && Shelve(run, claim, Dropped).history == run.history
  {
    hide RunInv, Unfolds;
    ShelveKeeps(p, run, claim, Dropped);
  }

  lemma FailedTracks(lim: Limits, p0: Plan, p: Plan, run: Run, claim: Claim, cause: Cause)
    requires Bounded(lim) && Tracks(p0, p, run) && ClaimValid(run, claim) && (run.status == Running || run.status == Waiting)
    ensures Tracks(p0, p, RecordFailure(lim, run, claim, cause)) && RecordFailure(lim, run, claim, cause).history == run.history
  {
    hide RunInv, Unfolds, RecordFailure;
    RecordFailureKeeps(lim, p, run, claim, cause);
  }

  /** Every supported step of a run with foreach schedulers keeps its invariant, for the plan it then follows. */
  lemma StepTracks(lim: Limits, p0: Plan, p: Plan, run: Run, a: Action)
    requires Bounded(lim) && Tracks(p0, p, run) && Enabled(run, a) && Supported(run, a)
    ensures Tracks(p0, PlanAfter(p, run, a), Next(lim, run, a))
    ensures run.history <= Next(lim, run, a).history
    ensures Fanning(run, a) ==> run.queue[a.claim.id].nodeId in DoneSet(Next(lim, run, a).history)
  {
    hide DoneSet, Tracks, Next, Expand, Supported;
    if Ordinary(run, a) {
      OrdinaryTracks(lim, p0, p, run, a);
    } else {
      SchedulerTracks(lim, p0, p, run, a);
    }
  }

  /** A run that was just started with a plan of supported schedulers. */
  lemma StartTracks(p0: Plan, run: Run)
    requires RunInv(p0, run) && run.history == [] && ForeachsOk(p0, [])
    ensures Tracks(p0, p0, run)
  {
    hide RunInv, ForeachsOk, Unfolds;
    Unfolded(p0);
  }

  /** A history of supported steps, from a state in which the run follows `p`, unfolded from the plan `p0`. */
  ghost predicate IsForeachHistory(lim: Limits, p0: Plan, p: Plan, runs: seq<Run>, acts: seq<Action>) {
    && Bounded(lim) && IsHistory(lim, runs, acts) && Tracks(p0, p, runs[0])
    && forall i :: 0 <= i < |acts| ==> Supported(runs[i], acts[i])
  }

  /** Along every such history the run follows the chain of plans that its fan-outs make. */
  lemma {:induction false} HistoryTracks(lim: Limits, p0: Plan, p: Plan, runs: seq<Run>, acts: seq<Action>, i: nat)
    requires IsForeachHistory(lim, p0, p, runs, acts) && i <= |acts|
    ensures Tracks(p0, PlanAlong(p, runs, acts[..i]), runs[i])
    ensures runs[0].history <= runs[i].history
  {
    hide Tracks, Next, Supported, PlanAfter;
    if i > 0 {
      HistoryTracks(lim, p0, p, runs, acts, i - 1);
      assert acts[..i][..i - 1] == acts[..i - 1];
      assert Enabled(runs[i - 1], acts[i - 1]);
      StepTracks(lim, p0, PlanAlong(p, runs, acts[..i - 1]), runs[i - 1], acts[i - 1]);
    }
  }

  // ----- what that says about the plan the run was started with

  /** Node `n` of the first plan has completed: itself, or, if it was fanned out, every iteration of it. */
  ghost predicate NodeDone(p0: Plan, h: seq<Completion>, done: set<NodeId>, n: NodeId) {
    n in done ||
    exists f :: Fanned(p0, h, f) && BodyId(p0, f) == n && IterIds(n, |Served(h, f).value|) <= done
  }

  ghost predicate WaferDone(p0: Plan, h: seq<Completion>) {
    forall n :: n in p0.jobs ==> NodeDone(p0, h, DoneSet(h), n)
  }

  /** A scheduler that fanned out spread its items, and is the only one with its body. */
  lemma FannedSpreads(p0: Plan, p: Plan, h: seq<Completion>, f: NodeId)
    requires Unfolds(p0, p, h) && Fanned(p0, h, f)
    ensures Spread(p0, p, f, Served(h, f).value, ServedInput(h, f)) && f in DoneSet(h) && BodyId(p0, f) in p0.jobs
    ensures IsBody(p0, h, BodyId(p0, f))
    ensures forall g :: Fanned(p0, h, g) && BodyId(p0, g) == BodyId(p0, f) ==> g == f
  {
    assert LoopOk(p0, p, h, f);
    LoopBody(p0, f);
    forall g | Fanned(p0, h, g) && BodyId(p0, g) == BodyId(p0, f)
      ensures g == f
    {
      LoopBody(p0, g);
    }
    hide Spread, Served, ServedInput, DoneSet, Looped;
  }

  lemma SpreadIterations(p0: Plan, p: Plan, h: seq<Completion>, f: NodeId)
    requires Unfolds(p0, p, h) && Fanned(p0, h, f)
    ensures forall x :: x in IterIds(BodyId(p0, f), |Served(h, f).value|) ==> x in p.jobs && x !in p0.jobs
  {
    FannedSpreads(p0, p, h, f);
    var items := Served(h, f).value;
    IterationsAreNew(p0, f, |items|);
    forall x | x in IterIds(BodyId(p0, f), |items|)
      ensures x in p.jobs
    {
      var i: nat :| i < |items| && x == IterId(BodyId(p0, f), i);
      assert IterOk(p0, p, f, items, ServedInput(h, f), i);
    }
  }

  lemma DoneKnown(p: Plan, h: seq<Completion>, n: NodeId)
    requires HistoryOk(p, h) && n in DoneSet(h)
    ensures n in p.jobs
  {
    var i :| 0 <= i < |h| && h[i].node == n;
    assert EntryOk(p, h, i);
  }

  /** All nodes of the plan followed have completed exactly when all nodes of the first plan have. */
  lemma AllDoneIsWafer(p0: Plan, p: Plan, run: Run)
    requires Tracks(p0, p, run)
    ensures AllDone(p, run) <==> WaferDone(p0, run.history)
  {
    var h := run.history;
    assert HistoryOk(p, h) by {
      hide Covered, ResultsOk, StatusOk, IdsOk, Unfolds;
    }
    hide RunInv, HistoryOk;
    if AllDone(p, run) {
      forall n | n in p0.jobs
        ensures NodeDone(p0, h, DoneSet(h), n)
      {
        DoneInWafer(p0, p, run, n);
      }
    }
    if WaferDone(p0, h) {
      forall n | n in p.jobs
        ensures n in DoneSet(h)
      {
        DoneInPlan(p0, p, h, n);
      }
    }
  }

  lemma DoneInWafer(p0: Plan, p: Plan, run: Run, n: NodeId)
    requires Unfolds(p0, p, run.history) && AllDone(p, run) && n in p0.jobs
    ensures NodeDone(p0, run.history, DoneSet(run.history), n)
  {
    var h := run.history;
    assert NodeOk(p0, p, h, n);
    hide Served, ServedInput, DoneSet, IterIds, Unfolds, IsRejoin;
    if IsBody(p0, h, n) {
      var f :| Fanned(p0, h, f) && BodyId(p0, f) == n;
      SpreadIterations(p0, p, h, f);
    }
  }

  lemma DoneInPlan(p0: Plan, p: Plan, h: seq<Completion>, n: NodeId)
    requires Unfolds(p0, p, h) && HistoryOk(p, h) && WaferDone(p0, h) && n in p.jobs
    ensures n in DoneSet(h)
  {
    assert NewOk(p0, p, h, n);
    hide Served, ServedInput, IterIds, HistoryOk, Spread;
    if n in p0.jobs {
      assert NodeOk(p0, p, h, n) && NodeDone(p0, h, DoneSet(h), n);
    } else {
      var f :| Fanned(p0, h, f) && n in IterIds(BodyId(p0, f), |Served(h, f).value|);
      BodyDone(p0, p, h, f);
    }
  }

  lemma BodyDone(p0: Plan, p: Plan, h: seq<Completion>, f: NodeId)
    requires Unfolds(p0, p, h) && HistoryOk(p, h) && WaferDone(p0, h) && Fanned(p0, h, f)
    ensures IterIds(BodyId(p0, f), |Served(h, f).value|) <= DoneSet(h)
  {
    FannedSpreads(p0, p, h, f);
    var b := BodyId(p0, f);
    assert NodeDone(p0, h, DoneSet(h), b);
    hide Served, ServedInput, IterIds, HistoryOk, DoneSet, Unfolds;
    if b in DoneSet(h) {
      DoneKnown(p, h, b);
    }
  }

  lemma NotEmpty(p0: Plan, p: Plan, h: seq<Completion>)
    requires Unfolds(p0, p, h) && p0.jobs != map[]
    ensures p.jobs != map[]
  {
    var n :| n in p0.jobs;
    assert NodeOk(p0, p, h, n);
    hide Served, ServedInput, DoneSet, Spread;
    if IsBody(p0, h, n) {
      var f :| Fanned(p0, h, f) && BodyId(p0, f) == n;
      LoopStays(p0, p, h, f);
    }
  }

  /** Schedulers are nobody's body. */
  lemma LoopStays(p0: Plan, p: Plan, h: seq<Completion>, f: NodeId)
    requires Unfolds(p0, p, h) && IsLoop(p0, f)
    ensures f in p.jobs && !IsBody(p0, h, f)
  {
    assert NodeOk(p0, p, h, f);
    BodyIsPlain(p0, h, f);
    hide Served, ServedInput, DoneSet, Spread;
  }

  lemma BodyIsPlain(p0: Plan, h: seq<Completion>, n: NodeId)
    requires Looped(p0)
    ensures IsBody(p0, h, n) ==> n in p0.jobs && !p0.jobs[n].def.nodeType.Foreach?
  {
    if IsBody(p0, h, n) {
      var f :| Fanned(p0, h, f) && BodyId(p0, f) == n;
      assert ForeachShape(p0, f, n);
    }
  }

  /**
   Completion detection, for the plan the run was started with: the run is marked completed exactly when every
   node of it has completed, a fanned-out body in all its iterations, and the last completion was a commit.
   */
  lemma CompletedWafer(p0: Plan, p: Plan, run: Run)
    requires Tracks(p0, p, run) && run.status != Cancelled && p0.jobs != map[]
    ensures run.status == Completed <==>
            WaferDone(p0, run.history) && run.history != [] && run.history[|run.history| - 1].how == ByCommit
    ensures run.fired == if run.status == Completed then 1 else 0
  {
    hide RunInv, Unfolds, WaferDone, AllDone;
    NotEmpty(p0, p, run.history);
    AllDoneIsWafer(p0, p, run);
    CompletedExactly(p, run);
  }

  /** A node completes only after what the first plan lists as its dependencies, a fanned-out body in all its iterations. */
  lemma WaferOrder(p0: Plan, p: Plan, run: Run, i: nat, d: NodeId)
    requires Tracks(p0, p, run) && i < |run.history|
    requires var n := run.history[i].node; n in p0.jobs && n in p0.deps && d in p0.deps[n]
    ensures NodeDone(p0, run.history, DoneSet(run.history[..i]), d)
  {
    var h := run.history;
    assert EntryOk(p, h, i) && NodeOk(p0, p, h, h[i].node);
    hide RunInv, Served, ServedInput, DoneSet, IterIds;
    BodyNotDone(p0, p, h, h[i].node);
    if IsRejoin(p0, h, h[i].node) {
      var f :| Fanned(p0, h, f) && h[i].node in RejoinIds(p0, f);
      RejoinWaitsFor(p0, p, h, f, h[i].node);
    }
  }

  lemma BodyNotDone(p0: Plan, p: Plan, h: seq<Completion>, n: NodeId)
    requires Unfolds(p0, p, h) && n in p.jobs
    ensures !IsBody(p0, h, n)
  {
    BodyIsPlain(p0, h, n);
    assert n in p0.jobs ==> NodeOk(p0, p, h, n);
    hide Spread, Served, ServedInput, DoneSet;
  }

  /** A rejoin of a scheduler that fanned out waits for exactly its iterations, and did wait for the body. */
  lemma RejoinWaitsFor(p0: Plan, p: Plan, h: seq<Completion>, f: NodeId, r: NodeId)
    requires Unfolds(p0, p, h) && Fanned(p0, h, f) && r in RejoinIds(p0, f)
    ensures r in p0.jobs && r in p0.deps && p0.deps[r] == {BodyId(p0, f)}
    ensures JoinOk(p0, p, f, |Served(h, f).value|, r)
  {
    FannedSpreads(p0, p, h, f);
    assert ForeachShape(p0, f, BodyId(p0, f));
    assert JoinOk(p0, p, f, |Served(h, f).value|, r);
    hide Served, ServedInput, DoneSet;
  }

  /** An iteration completes only after its scheduler. */
  lemma IterationAfterScheduler(p0: Plan, p: Plan, run: Run, f: NodeId, j: nat)
    requires Tracks(p0, p, run) && Fanned(p0, run.history, f) && j < |run.history|
    requires run.history[j].node in IterIds(BodyId(p0, f), |Served(run.history, f).value|)
    ensures f in DoneSet(run.history[..j])
  {
    var h := run.history;
    hide RunInv, IterIds, Spread;
    SpreadIterations(p0, p, h, f);
    assert AfterFan(p0, h, j);
    var g :| Fanned(p0, h[..j], g) && h[j].node in IterIds(BodyId(p0, g), |Served(h[..j], g).value|);
    SameScheduler(p0, f, g, h[j].node, |Served(h, f).value|, |Served(h[..j], g).value|);
    ServedIsDone(h[..j], g);
  }

  lemma {:induction false} ServedIsDone(h: seq<Completion>, f: NodeId)
    requires Served(h, f).Some?
    ensures f in DoneSet(h)
  {
    var n := |h| - 1;
    if h[n].node != f {
      ServedIsDone(h[..n], f);
      var i :| 0 <= i < |h[..n]| && h[..n][i].node == f;
      assert h[i].node == f;
    }
  }

  /** Iterations of different schedulers have different ids. */
  lemma SameScheduler(p0: Plan, f: NodeId, g: NodeId, n: NodeId, count: nat, count': nat)
    requires Looped(p0) && IsLoop(p0, f) && IsLoop(p0, g)
    requires n in IterIds(BodyId(p0, f), count) && n in IterIds(BodyId(p0, g), count')
    ensures g == f
  {
    var i: nat :| i < count && n == IterId(BodyId(p0, f), i);
    var j: nat :| j < count' && n == IterId(BodyId(p0, g), j);
    if |Itoa(i)| <= |Itoa(j)| {
      IterIdApart(BodyId(p0, f), i, BodyId(p0, g), j);
    } else {
      IterIdApart(BodyId(p0, g), j, BodyId(p0, f), i);
    }
    LoopBody(p0, f);
    LoopBody(p0, g);
  }

  // ----- a foreach is an ordered map

  /** Queued, parked or completed: the node was enqueued. */
  ghost predicate Reached(run: Run, n: NodeId) {
    HasToken(run.queue, n) || n in run.parked || n in DoneSet(run.history)
  }

  /** The node was enqueued, and is in exactly one place. */
  ghost predicate OnePlaced(run: Run, n: NodeId) {
    Count(false, HasToken(run.queue, n), n in run.parked, n in DoneSet(run.history)) == 1
  }

  /** Entry `i` of the array is the result of the iteration that ran on item `i`, with the scheduler's event and steps. */
  ghost predicate MapsAt(p0: Plan, run: Run, f: NodeId, items: seq<Json>, arr: seq<Json>, i: nat)
    requires IsLoop(p0, f) && i < |items| == |arr|
  {
    var asVar := p0.jobs[f].loop.value.bodyAs;
    exists j :: 0 <= j < |run.history| && run.history[j].node == IterId(BodyId(p0, f), i)
                && asVar in run.history[j].input && run.history[j].input[asVar] == items[i]
                && FromScheduler(asVar, ServedInput(run.history, f), run.history[j].input)
                && run.history[j].result == arr[i]
  }

  /** The array holds the iterations' results in the order of their items. */
  ghost predicate IsMapped(p0: Plan, run: Run, f: NodeId, items: seq<Json>, arr: Json)
    requires IsLoop(p0, f)
  {
    && arr.JArr? && |arr.items| == |items|
    && forall i: nat {:trigger MapsAt(p0, run, f, items, arr.items, i)} :: i < |items| ==> MapsAt(p0, run, f, items, arr.items, i)
  }

  /** Each iteration was enqueued, and is in one place. */
  lemma IterationPlace(p0: Plan, p: Plan, run: Run, f: NodeId, i: nat)
    requires Tracks(p0, p, run) && run.status != Cancelled && Fanned(p0, run.history, f)
    requires i < |Served(run.history, f).value|
    ensures OnePlaced(run, IterId(BodyId(p0, f), i))
  {
    var items := Served(run.history, f).value;
    FannedSpreads(p0, p, run.history, f);
    assert IterOk(p0, p, f, items, ServedInput(run.history, f), i);
    hide Served, ServedInput, IterId, Unfolds, RunInv, Spread, DoneSet, HasToken;
    OnePlace(p, run, IterId(BodyId(p0, f), i));
  }

  /** What an iteration ran with: its own item, and the scheduler's event and steps. */
  lemma IterationRan(p0: Plan, p: Plan, run: Run, f: NodeId, i: nat, j: nat)
    requires Tracks(p0, p, run) && Fanned(p0, run.history, f)
    requires i < |Served(run.history, f).value| && j < |run.history| && run.history[j].node == IterId(BodyId(p0, f), i)
    ensures var asVar := p0.jobs[f].loop.value.bodyAs; var input := run.history[j].input;
            asVar in input && input[asVar] == Served(run.history, f).value[i] && FromScheduler(asVar, ServedInput(run.history, f), input)
  {
    var items := Served(run.history, f).value;
    FannedSpreads(p0, p, run.history, f);
    assert IterOk(p0, p, f, items, ServedInput(run.history, f), i);
    hide Served, ServedInput, IterId, Unfolds, RunInv, Spread, DoneSet;
    RanOnSeed(p, run, j);
  }

  /** A rejoin is enqueued exactly when every iteration has completed, and then it is in one place. */
  lemma RejoinPlace(p0: Plan, p: Plan, run: Run, f: NodeId, r: NodeId)
    requires Tracks(p0, p, run) && run.status != Cancelled && Fanned(p0, run.history, f) && r in RejoinIds(p0, f)
    ensures Reached(run, r) <==> IterIds(BodyId(p0, f), |Served(run.history, f).value|) <= DoneSet(run.history)
    ensures Reached(run, r) ==> OnePlaced(run, r)
    ensures forall k, k' :: k in run.queue && k' in run.queue && run.queue[k].nodeId == r && run.queue[k'].nodeId == r ==> k == k'
  {
    RejoinWaitsFor(p0, p, run.history, f, r);
    hide Served, ServedInput, IterIds, Unfolds, RunInv, DoneSet, HasToken;
    OnePlace(p, run, r);
  }

  lemma RejoinJob(p0: Plan, p: Plan, run: Run, f: NodeId, id: nat)
    requires Tracks(p0, p, run) && Fanned(p0, run.history, f)
    requires id in run.queue && run.queue[id].nodeId in RejoinIds(p0, f)
    ensures var job := run.queue[id]; var b := BodyId(p0, f); var count := |Served(run.history, f).value|;
            && job.nodeId in p.deps && p.deps[job.nodeId] == IterIds(b, count)
            && job.nodeId in p0.jobs
            && job.collect == Some(Collect(b, p0.jobs[f].loop.value.bodyAs, count, CollectName(p0.jobs[job.nodeId])))
  {
    RejoinWaitsFor(p0, p, run.history, f, run.queue[id].nodeId);
    SchedulerParts(p, run, id);
    hide Served, ServedInput, IterIds, Unfolds, RunInv;
    JobShape(p, run.history, run.queue[id].nodeId);
  }

  /** A queued rejoin that runs will find the mapped array under its collect name. */
  lemma RejoinMaps(p0: Plan, p: Plan, run: Run, f: NodeId, id: nat)
    requires Tracks(p0, p, run) && Fanned(p0, run.history, f)
    requires id in run.queue && run.queue[id].nodeId in RejoinIds(p0, f) && run.queue[id].def.nodeType.Plain?
    ensures run.queue[id].nodeId in p0.jobs
    ensures var steps := StepsOf(EffectiveInput(run.results, run.queue[id])); var name := CollectName(p0.jobs[run.queue[id].nodeId]);
            name in steps && IsMapped(p0, run, f, Served(run.history, f).value, steps[name])
  {
    var job := run.queue[id];
    var items := Served(run.history, f).value;
    RejoinJob(p0, p, run, f, id);
    hide Served, ServedInput, IterIds, Unfolds, RunInv, IterId;
    RejoinCollects(p, run, id);
    var arr := StepsOf(EffectiveInput(run.results, job))[job.collect.value.name].items;
    hide EffectiveInput;
    forall i: nat | i < |items|
      ensures MapsAt(p0, run, f, items, arr, i)
    {
      var j :| 0 <= j < |run.history| && run.history[j].node == IterId(BodyId(p0, f), i) && arr[i] == run.history[j].result;
      IterationRan(p0, p, run, f, i, j);
    }
  }

  /** A claimed rejoin of an open run whose node returned a value. */
  ghost predicate RunsRejoin(p0: Plan, run: Run, f: NodeId, a: Action) {
    && a.Work? && a.out.Output? && Enabled(run, a) && (run.status == Running || run.status == Waiting)
    && var job := run.queue[a.claim.id];
    job.def.nodeType.Plain? && !job.skip && IsLoop(p0, f) && job.nodeId in RejoinIds(p0, f)
  }

  /** The rejoin completes with the mapped array in its input. */
  lemma RejoinRan(lim: Limits, p0: Plan, p: Plan, run: Run, f: NodeId, a: Action) returns (c: Completion)
    requires Tracks(p0, p, run) && Fanned(p0, run.history, f) && RunsRejoin(p0, run, f, a)
    ensures Next(lim, run, a).history == run.history + [c]
    ensures c.node == run.queue[a.claim.id].nodeId && c.node in p0.jobs && c.result == a.out.value
    ensures var steps := StepsOf(c.input); var name := CollectName(p0.jobs[c.node]);
            name in steps && IsMapped(p0, run, f, Served(run.history, f).value, steps[name])
  {
    var job := run.queue[a.claim.id];
    var taken := Take(run, a.claim);
    c := Completing(job, None, EffectiveInput(run.results, job), a.out.value);
    RejoinMaps(p0, p, run, f, a.claim.id);
    RejoinStep(lim, p0, run, f, a);
    hide Served, ServedInput, IterIds, Unfolds, RunInv, IsMapped, Finish, Next, MayFinish, EffectiveInput;
    TakeKeeps(p, run, a.claim);
    RejoinMayFinish(taken, a.claim, a.out.value);
    FinishPreserves(p, taken, a.claim, c);
  }

  lemma RejoinStep(lim: Limits, p0: Plan, run: Run, f: NodeId, a: Action)
    requires RunsRejoin(p0, run, f, a)
    ensures var job := run.queue[a.claim.id];
            Next(lim, run, a) == Finish(Take(run, a.claim), a.claim, Completing(job, None, EffectiveInput(run.results, job), a.out.value))
  {
    hide EffectiveInput, Finish;
  }

  lemma RejoinMayFinish(run: Run, claim: Claim, value: Json)
    requires ClaimValid(run, claim) && run.queue[claim.id].def.nodeType.Plain? && !run.queue[claim.id].skip
    ensures var job := run.queue[claim.id]; MayFinish(run, claim, Completing(job, None, EffectiveInput(run.results, job), value))
  {
  }

  /**
   A foreach is an ordered map, in every history. Once scheduler `f` fanned out, each
   iteration is in one place; rejoin `r` is enqueued exactly when every iteration has completed, is then in
   one place and completes at most once; and whenever it runs, its input holds the iterations' results in the
   order of the items.
   */
  lemma OrderedMap(lim: Limits, p0: Plan, p: Plan, runs: seq<Run>, acts: seq<Action>, i: nat, f: NodeId, r: NodeId)
    requires IsForeachHistory(lim, p0, p, runs, acts) && i <= |acts| && runs[i].status != Cancelled
    requires Fanned(p0, runs[i].history, f) && r in RejoinIds(p0, f)
    ensures var iterations := IterIds(BodyId(p0, f), |Served(runs[i].history, f).value|);
            && (forall x :: x in iterations ==> OnePlaced(runs[i], x))
            && (Reached(runs[i], r) <==> iterations <= DoneSet(runs[i].history))
            && (Reached(runs[i], r) ==> OnePlaced(runs[i], r))
    ensures forall j, k :: (&& 0 <= j < |runs[i].history| && runs[i].history[j].node == r
                            && 0 <= k < |runs[i].history| && runs[i].history[k].node == r) ==> j == k
    ensures i < |acts| && RunsRejoin(p0, runs[i], f, acts[i]) ==>
              exists c: Completion ::
                && runs[i + 1].history == runs[i].history + [c]
                && c.node == runs[i].queue[acts[i].claim.id].nodeId && c.node in p0.jobs
                && var steps := StepsOf(c.input); var name := CollectName(p0.jobs[c.node]);
                name in steps && IsMapped(p0, runs[i], f, Served(runs[i].history, f).value, steps[name])
  {
    hide Supported, Next;
    HistoryTracks(lim, p0, p, runs, acts, i);
    var q := PlanAlong(p, runs, acts[..i]);
    var run := runs[i];
    hide PlanAlong, Served, ServedInput, IsMapped, OnePlaced, Reached, RunInv, Unfolds, Tracks;
    RejoinPlace(p0, q, run, f, r);
    forall x | x in IterIds(BodyId(p0, f), |Served(run.history, f).value|)
      ensures OnePlaced(run, x)
    {
      var k: nat :| k < |Served(run.history, f).value| && x == IterId(BodyId(p0, f), k);
      IterationPlace(p0, q, run, f, k);
    }
    EntriesDiffer(p0, q, run);
    if i < |acts| && RunsRejoin(p0, run, f, acts[i]) {
      hide RunsRejoin;
      var c := RejoinRan(lim, p0, q, run, f, acts[i]);
      assert runs[i + 1] == Next(lim, run, acts[i]);
    }
  }

  lemma EntriesDiffer(p0: Plan, p: Plan, run: Run)
    requires Tracks(p0, p, run)
    ensures forall j, k :: 0 <= j < |run.history| && 0 <= k < |run.history| && run.history[j].node == run.history[k].node ==> j == k
  {
    hide RunInv, Unfolds;
    forall j, k | 0 <= j < |run.history| && 0 <= k < |run.history| && run.history[j].node == run.history[k].node
      ensures j == k
    {
      OnceInOrder(p, run, j);
    }
  }

  /**
   Along every history: it is marked completed exactly when every node of the plan it was
   started with has completed, a fanned-out body in all its iterations, and the last completion was a commit.
   */
  lemma HistoryCompletes(lim: Limits, p0: Plan, p: Plan, runs: seq<Run>, acts: seq<Action>, i: nat)
    requires IsForeachHistory(lim, p0, p, runs, acts) && i <= |acts| && runs[i].status != Cancelled && p0.jobs != map[]
    ensures var h := runs[i].history;
            runs[i].status == Completed <==> WaferDone(p0, h) && h != [] && h[|h| - 1].how == ByCommit
    ensures runs[i].fired == if runs[i].status == Completed then 1 else 0
  {
    hide PlanAlong, Tracks, WaferDone, Supported, Next;
    HistoryTracks(lim, p0, p, runs, acts, i);
    hide IsForeachHistory;
    CompletedWafer(p0, PlanAlong(p, runs, acts[..i]), runs[i]);
  }

  /** Along every such history nodes complete in the order of the plan the run was started with. */
  lemma HistoryInOrder(lim: Limits, p0: Plan, p: Plan, runs: seq<Run>, acts: seq<Action>, i: nat, j: nat, d: NodeId)
    requires IsForeachHistory(lim, p0, p, runs, acts) && i <= |acts| && j < |runs[i].history|
    requires var n := runs[i].history[j].node; n in p0.jobs && n in p0.deps && d in p0.deps[n]
    ensures NodeDone(p0, runs[i].history, DoneSet(runs[i].history[..j]), d)
  {
    hide PlanAlong, Tracks, NodeDone, DoneSet, Supported, Next;
    HistoryTracks(lim, p0, p, runs, acts, i);
    hide IsForeachHistory;
    WaferOrder(p0, PlanAlong(p, runs, acts[..i]), runs[i], j, d);
  }

  // ----- for stores, where runs come and go

  /** The run keeps its invariant for some unfolding of the plan it was started with. */
  ghost predicate RunOk(p0: Plan, run: Run) {
    exists p :: Tracks(p0, p, run)
  }

  lemma StepRunOk(lim: Limits, p0: Plan, run: Run, a: Action)
    requires Bounded(lim) && RunOk(p0, run) && Enabled(run, a) && Supported(run, a)
    ensures RunOk(p0, Next(lim, run, a))
  {
    hide Tracks, Next, PlanAfter, Supported;
    var p :| Tracks(p0, p, run);
    StepTracks(lim, p0, p, run, a);
  }
}
