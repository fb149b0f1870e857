/** Every handler keeps the run invariant. */
module Preservation {
  import opened Values
  import opened Jobs
  import opened Runs
  import opened Plans
  import opened Invariant
  import opened Landing
  import opened Handlers

  /** A job and the template it was made from differ only in input and skip flag. */
  lemma JobShape(p: Plan, h: seq<Completion>, n: NodeId)
    requires WfPlan(p) && n in p.jobs && n in p.deps
    ensures JobFor(p, h, n) == p.jobs[n].(input := JobFor(p, h, n).input, skip := JobFor(p, h, n).skip)
    ensures JobFor(p, h, n).nodeId == n
  {
    assert TemplateOk(p, n) && DepsOk(p, n);
  }

  lemma ResultsAppend(h: seq<Completion>, c: Completion, results: map<NodeId, Json>)
    requires ResultsOk(h, results) && c.node !in DoneSet(h)
    ensures ResultsOk(h + [c], results[c.node := c.result])
  {
    forall i | 0 <= i < |h|
      ensures h[i].node != c.node
    {
      assert h[i].node in DoneSet(h);
    }
  }

  /** The rows a completion writes before its fan-out. */
  function Written(run: Run, c: Completion): Run {
    run.(results := run.results[c.node := c.result], history := run.history + [c])
  }

  lemma FlightTemplate(p: Plan, run: Run, c: Completion)
    requires Core(p, run.history, run.remaining, run.queue, run.parked)
    requires InFlight(p, run.history, run.queue, run.parked, c)
    ensures c.node in p.jobs && Aligned(p, p.jobs[c.node])
  {
    assert TemplateOk(p, c.node);
  }

  /** The fan-out of a completion, on a run from whose places the completing node was removed. */
  lemma FanOutLands(p: Plan, run: Run, c: Completion) returns (fanned: Run, ids: seq<NodeId>)
    requires Core(p, run.history, run.remaining, run.queue, run.parked)
    requires InFlight(p, run.history, run.queue, run.parked, c)
    requires Covered(p, run.history, run.queue, run.parked, {c.node})
    requires forall k :: k in run.queue ==> k < run.nextId
    ensures FanOut(Written(run, c), p.jobs[c.node].dependents, NextJobs(c, p.jobs[c.node].downstream)) == Some((fanned, |ids|))
    ensures Frontier(p, DoneSet(run.history), c.node, ids) && forall m :: m in ids ==> m in p.jobs
    ensures fanned == Written(run, c).(
                        remaining := fanned.remaining,
                        queue := Grown(p, run.queue, run.nextId, c, ids),
                        rows := run.rows + FreshRows(run.nextId, |ids|),
                        nextId := run.nextId + |ids|)
    ensures Core(p, fanned.history, fanned.remaining, fanned.queue, fanned.parked)
    ensures Covered(p, fanned.history, fanned.queue, fanned.parked, {})
  {
    hide Core, Covered, Frontier, InFlight, Decrement, FreshRows, NewTokens, Enqueue;
    FlightTemplate(p, run, c);
    var job := p.jobs[c.node];
    var m, ready, ids' := Land(p, run.history, run.remaining, run.queue, run.parked, run.nextId, c);
    ids := ids';
    var jobs := Launched(p, c, ids);
    ReadyJobsAre(p, job, c, ready, |job.dependents|);
    assert NextJobs(c, job.downstream)[..|job.dependents|] == NextJobs(c, job.downstream);
    assert job.dependents[..|job.dependents|] == job.dependents;
    EnqueueSpec(Written(run, c).(remaining := m), jobs);
    fanned := Enqueue(Written(run, c).(remaining := m), jobs);
  }

  /** Bookkeeping stays in step with the queue across a fan-out. */
  lemma FanOutIds(p: Plan, run: Run, c: Completion, ids: seq<NodeId>, fanned: Run)
    requires IdsOk(run)
    requires forall m :: m in ids ==> m in p.jobs
    requires fanned.queue == Grown(p, run.queue, run.nextId, c, ids)
    requires fanned.rows == run.rows + FreshRows(run.nextId, |ids|)
    requires fanned.nextId == run.nextId + |ids| && fanned.timers == run.timers
    ensures IdsOk(fanned) && |fanned.queue| == |run.queue| + |ids|
  {
    hide Grown, FreshRows, NextJob, Launched, NewTokens;
    GrownKeys(p, run.queue, run.nextId, c, ids);
    FreshRowsKeys(run.rows, run.nextId, |ids|);
  }

  lemma FreshRowsKeys(rows: map<nat, Row>, base: nat, n: nat)
    ensures forall k :: k in rows + FreshRows(base, n) <==> k in rows || base <= k < base + n
  {
    FreshRowsAt(base, n);
  }

  lemma FreshRowsLive(run: Run, n: nat, fanned: Run)
    requires fanned.rows == run.rows + FreshRows(run.nextId, n)
    ensures AllLive(run) ==> AllLive(fanned)
  {
    hide FreshRows;
    FreshRowsAt(run.nextId, n);
  }

  // ----- committing a claimed job

  /** What may complete a claimed job: any outcome that its type allows. */
  ghost predicate MayFinish(run: Run, claim: Claim, c: Completion) {
    && ClaimValid(run, claim)
    && !run.queue[claim.id].def.nodeType.Foreach?
    && c.node == run.queue[claim.id].nodeId
    && c.how == ByCommit
    && OutcomeOk(run.queue[claim.id], c)
  }

  /** Taking a job out of the queue leaves its node the only one unaccounted for. */
  lemma Detach(p: Plan, run: Run, id: nat)
    requires IdsOk(run) && Core(p, run.history, run.remaining, run.queue, run.parked)
    requires Covered(p, run.history, run.queue, run.parked, {})
    requires id in run.queue
    ensures IdsOk(Remove(run, id)) && |Remove(run, id).queue| == |run.queue| - 1
    ensures var n := run.queue[id].nodeId; var queue := Remove(run, id).queue;
            && Core(p, run.history, run.remaining, queue, run.parked)
            && Covered(p, run.history, queue, run.parked, {n})
            && Outstanding(p, run.history, n) && run.queue[id] == JobFor(p, run.history, n)
            && n !in run.parked && !HasToken(queue, n)
  {
    hide WfPlan, HistoryOk, CountsOk, JobFor, Outstanding, Covered, ParkedOk, TokensOk, Exclusive, HasToken;
    assert (run.queue - {id}).Keys == run.queue.Keys - {id};
    DetachCovered(p, run.history, run.queue, run.parked, id);
    DetachTokens(p, run.history, run.queue, run.parked, id);
  }

  lemma DetachTokens(p: Plan, h: seq<Completion>, queue: map<nat, NodeJob>, parked: map<NodeId, Continuation>, id: nat)
    requires TokensOk(p, h, queue) && Exclusive(queue, parked) && id in queue
    ensures TokensOk(p, h, queue - {id}) && Exclusive(queue - {id}, parked)
    ensures Outstanding(p, h, queue[id].nodeId) && queue[id] == JobFor(p, h, queue[id].nodeId)
    ensures queue[id].nodeId !in parked && !HasToken(queue - {id}, queue[id].nodeId)
  {
    hide Outstanding, JobFor;
  }

  lemma DetachCovered(p: Plan, h: seq<Completion>, queue: map<nat, NodeJob>, parked: map<NodeId, Continuation>, id: nat)
    requires Covered(p, h, queue, parked, {}) && id in queue
    ensures Covered(p, h, queue - {id}, parked, {queue[id].nodeId})
  {
    forall n | n in p.jobs && n in p.deps && p.deps[n] <= DoneSet(h)
      ensures n in DoneSet(h) || n in parked || n == queue[id].nodeId || HasToken(queue - {id}, n)
    {
      if HasToken(queue, n) && n != queue[id].nodeId {
        var k :| k in queue && queue[k].nodeId == n;
        assert k in queue - {id};
      }
    }
  }

  lemma FinishInFlight(p: Plan, run: Run, claim: Claim, c: Completion)
    requires IdsOk(run) && Core(p, run.history, run.remaining, run.queue, run.parked)
    requires Covered(p, run.history, run.queue, run.parked, {})
    requires MayFinish(run, claim, c)
    ensures InFlight(p, run.history, Remove(run, claim.id).queue, run.parked, c)
    ensures var job := p.jobs[c.node];
            run.queue[claim.id] == job.(input := run.queue[claim.id].input, skip := run.queue[claim.id].skip)
  {
    hide JobFor, OutcomeOk, HasToken;
    Detach(p, run, claim.id);
    JobShape(p, run.history, c.node);
  }

  lemma {:induction false} EnqueueThenRemove(run: Run, id: nat, jobs: seq<NodeJob>)
    requires HasJob(run, id) && id < run.nextId
    ensures Remove(Enqueue(run, jobs), id) == Enqueue(Remove(run, id), jobs)
    ensures HasJob(Enqueue(run, jobs), id) && Enqueue(run, jobs).rows[id] == run.rows[id]
    ensures Enqueue(run, jobs).nextId >= run.nextId
  {
    if jobs != [] {
      EnqueueThenRemove(run, id, jobs[..|jobs| - 1]);
      EnqueueOneThenRemove(Enqueue(run, jobs[..|jobs| - 1]), id, jobs[|jobs| - 1]);
    }
  }

  lemma EnqueueOneThenRemove(run: Run, id: nat, job: NodeJob)
    requires id < run.nextId
    ensures Remove(EnqueueOne(run, job), id) == EnqueueOne(Remove(run, id), job)
  {
    UpdateMinus(run.queue, run.nextId, job, id);
    UpdateMinus(run.rows, run.nextId, FRESH_ROW, id);
  }

  lemma UpdateMinus<K, V>(m: map<K, V>, k: K, v: V, gone: K)
    requires k != gone
    ensures m[k := v] - {gone} == (m - {gone})[k := v]
  {
  }

  /** The claimed row stays in the queue during the fan-out and goes with the ack; the order does not matter. */
  lemma FanOutThenRemove(run: Run, id: nat, dependents: seq<NodeId>, downstream: seq<NodeJob>, bare: Run, count: nat)
    returns (fanned: Run)
    requires HasJob(run, id) && id < run.nextId
    requires FanOut(Remove(run, id), dependents, downstream) == Some((bare, count))
    ensures FanOut(run, dependents, downstream) == Some((fanned, count))
    ensures Remove(fanned, id) == bare && HasJob(fanned, id) && fanned.rows[id] == run.rows[id]
  {
    hide Decrement, ReadyJobs, Enqueue;
    var (m, ready) := Decrement(run.remaining, dependents).value;
    EnqueueThenRemove(run.(remaining := m), id, ReadyJobs(dependents, ready, downstream));
    assert Remove(run.(remaining := m), id) == Remove(run, id).(remaining := m);
    fanned := Enqueue(run.(remaining := m), ReadyJobs(dependents, ready, downstream));
  }

  lemma CommitIs(run: Run, claim: Claim, c: Completion, dependents: seq<NodeId>, downstream: seq<NodeJob>, bare: Run,
          count: nat)
    requires ClaimValid(run, claim) && claim.id < run.nextId
    requires FanOut(Written(Remove(run, claim.id), c), dependents, downstream) == Some((bare, count))
    ensures CommitAtom(run, NodeAtom(c.node, c.result, None, dependents, downstream, Some(claim), [c]))
            == Some(bare.(pending := bare.pending + count - 1))
  {
    hide FanOut;
    assert Remove(Written(run, c), claim.id) == Written(Remove(run, claim.id), c);
    var whole := FanOutThenRemove(Written(run, c), claim.id, dependents, downstream, bare, count);
  }

  /** The success atom of a claimed job goes through, and keeps all but the status clause. */
  lemma CommitLands(p: Plan, run: Run, claim: Claim, c: Completion) returns (committed: Run, ids: seq<NodeId>)
    requires IdsOk(run)
    requires Core(p, run.history, run.remaining, run.queue, run.parked)
    requires Covered(p, run.history, run.queue, run.parked, {})
    requires run.pending == |run.queue|
    requires MayFinish(run, claim, c)
    ensures CommitAtom(run, AtomOf(run.queue[claim.id], claim, c, None)) == Some(committed)
    ensures Frontier(p, DoneSet(run.history), c.node, ids)
    ensures committed == Written(run, c).(
                           pending := |committed.queue|,
                           remaining := committed.remaining,
                           queue := Grown(p, run.queue - {claim.id}, run.nextId, c, ids),
                           rows := committed.rows,
                           nextId := run.nextId + |ids|)
    ensures IdsOk(committed) && (AllLive(run) ==> AllLive(committed))
    ensures Core(p, committed.history, committed.remaining, committed.queue, committed.parked)
    ensures Covered(p, committed.history, committed.queue, committed.parked, {})
  {
    hide Core, Covered, InFlight, Frontier, Grown, FanOut, NextJobs, FreshRows, IdsOk, AllLive;
    hide JobFor, Outstanding, HasToken, OutcomeOk, CommitAtom, AtomOf;
    var bare := Remove(run, claim.id);
    FinishInFlight(p, run, claim, c);
    Detach(p, run, claim.id);
    Below(run, claim.id);
    var fanned, ids' := FanOutLands(p, bare, c);
    ids := ids';
    committed := fanned.(pending := run.pending + |ids| - 1);
    FanOutIds(p, bare, c, ids, committed);
    FreshRowsLive(bare, |ids|, committed);
    var job := run.queue[claim.id];
    CommitIs(run, claim, c, job.dependents, NextJobs(c, job.downstream), fanned, |ids|);
    AtomIs(job, claim, c);
  }

  lemma AtomIs(job: NodeJob, claim: Claim, c: Completion)
    requires c.node == job.nodeId
    ensures AtomOf(job, claim, c, None)
            == NodeAtom(c.node, c.result, None, job.dependents, NextJobs(c, job.downstream), Some(claim), [c])
  {
  }

  lemma Below(run: Run, id: nat)
    requires IdsOk(run)
    ensures forall k :: k in run.queue ==> k < run.nextId
    ensures AllLive(run) ==> AllLive(Remove(run, id))
  {
  }

  lemma NewResult(p: Plan, run: Run, id: nat)
    requires Core(p, run.history, run.remaining, run.queue, run.parked) && id in run.queue
    ensures run.queue[id].nodeId !in DoneSet(run.history)
  {
  }

  lemma FinishPreserves(p: Plan, run: Run, claim: Claim, c: Completion)
    requires RunInv(p, run) && (run.status == Running || run.status == Waiting)
    requires MayFinish(run, claim, c)
    ensures RunInv(p, Finish(run, claim, c))
    ensures Finish(run, claim, c).history == run.history + [c]
  {

    hide CommitAtom, AtomOf, Core, Covered, ResultsOk, Grown, Frontier, OutcomeOk;
    var committed, ids := CommitLands(p, run, claim, c);
    NewResult(p, run, claim.id);
    ResultsAppend(run.history, c, run.results);
  }
}
