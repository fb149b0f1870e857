/**
 The invariant of a run: the stored counters mean what they stand for, every node is in exactly one
 place, and every queued or parked job is the one its history determines.
 */
module Invariant {
  import opened Values
  import opened Jobs
  import opened Runs
  import opened Plans
  import opened Handlers

  /** Queue ids are never reused, and every job has its bookkeeping row. */
  ghost predicate IdsOk(run: Run) {
    && (forall k :: k in run.queue ==> k in run.rows && k < run.nextId)
    && (forall k :: k in run.rows ==> k in run.queue)
    && (forall k :: k in run.timers ==> k < run.nextId)
  }

  ghost predicate AllLive(run: Run) {
    forall k :: k in run.rows ==> run.rows[k].place == Live
  }

  /** What an executed switch, a skipped node and any other node record. */
  ghost predicate OutcomeOk(job: NodeJob, c: Completion) {
    && c.name == job.def.nodeName
    && c.skipped == job.skip
    && (!Assembles(job) ==> c.input == job.input)
    && (c.skipped ==> c.result == SKIPPED)
    && (c.routed.Some? <==> job.def.nodeType.Switch? && !job.skip)
    && (c.routed.Some? ==> c.result == BranchResult(c.routed.value))
    && (c.how == ByResume ==> job.def.nodeType.Wait? && !job.skip)
  }

  /** Entry `i` completes a node once, after all its dependencies, with the job history gave it. */
  ghost predicate EntryOk(p: Plan, h: seq<Completion>, i: nat)
    requires i < |h|
  {
    && h[i].node in p.jobs && h[i].node in p.deps
    && h[i].node !in DoneSet(h[..i])
    && p.deps[h[i].node] <= DoneSet(h[..i])
    && OutcomeOk(JobFor(p, h[..i], h[i].node), h[i])
  }

  ghost predicate HistoryOk(p: Plan, h: seq<Completion>) {
    forall i {:trigger EntryOk(p, h, i)} :: 0 <= i < |h| ==> EntryOk(p, h, i)
  }

  ghost predicate ResultsOk(h: seq<Completion>, results: map<NodeId, Json>) {
    forall i :: 0 <= i < |h| ==> h[i].node in results && results[h[i].node] == h[i].result
  }

  /** `remaining` counts a node's uncompleted dependencies. */
  ghost predicate CountsOk(p: Plan, h: seq<Completion>, remaining: map<NodeId, int>) {
    forall n :: n in p.jobs && n in p.deps && n !in p.seeds ==>
      n in remaining && remaining[n] == |p.deps[n] - DoneSet(h)|
  }

  /** A node that has been enqueued and has not completed. */
  ghost predicate Outstanding(p: Plan, h: seq<Completion>, n: NodeId) {
    && n in p.jobs && n in p.deps
    && n !in DoneSet(h)
    && p.deps[n] <= DoneSet(h)
  }

  ghost predicate TokensOk(p: Plan, h: seq<Completion>, tokens: map<nat, NodeJob>) {
    forall k :: k in tokens ==> Outstanding(p, h, tokens[k].nodeId) && tokens[k] == JobFor(p, h, tokens[k].nodeId)
  }

  /** The continuation a wait's job leaves when it parks. */
  function ContinuationOf(job: NodeJob, signal: string, runAt: int): Continuation {
    Continuation(job.nodeId, job.def.nodeName, job.input, job.dependents, job.downstream, signal, runAt)
  }

  ghost predicate ParkedOk(p: Plan, h: seq<Completion>, parked: map<NodeId, Continuation>) {
    forall n :: n in parked ==>
      && Outstanding(p, h, n)
      && JobFor(p, h, n).def.nodeType.Wait? && !JobFor(p, h, n).skip
      && parked[n] == ContinuationOf(JobFor(p, h, n), parked[n].signal, parked[n].runAt)
  }

  /** No node has two jobs, and none is both parked and queued. */
  ghost predicate Exclusive(tokens: map<nat, NodeJob>, parked: map<NodeId, Continuation>) {
    && (forall k, k' :: k in tokens && k' in tokens && tokens[k].nodeId == tokens[k'].nodeId ==> k == k')
    && (forall k :: k in tokens ==> tokens[k].nodeId !in parked)
  }

  ghost predicate HasToken(tokens: map<nat, NodeJob>, n: NodeId) {
    exists k :: k in tokens && tokens[k].nodeId == n
  }

  /** Every node whose dependencies are done was enqueued; `flight` is a node in mid-completion. */
  ghost predicate Covered(p: Plan, h: seq<Completion>, tokens: map<nat, NodeJob>, parked: map<NodeId, Continuation>,
          flight: set<NodeId>) {
    forall n :: n in p.jobs && n in p.deps && p.deps[n] <= DoneSet(h) ==>
      n in DoneSet(h) || n in parked || n in flight || HasToken(tokens, n)
  }

  /** The part of the invariant that is about nodes, apart from coverage. */
  ghost predicate Core(p: Plan, h: seq<Completion>, remaining: map<NodeId, int>, tokens: map<nat, NodeJob>,
          parked: map<NodeId, Continuation>) {
    && WfPlan(p)
    && HistoryOk(p, h)
    && CountsOk(p, h, remaining)
    && TokensOk(p, h, tokens)
    && ParkedOk(p, h, parked)
    && Exclusive(tokens, parked)
  }

  /** What each run status says about the rest of the run. */
  ghost predicate StatusOk(run: Run) {
    match run.status
    case Running =>
      && run.parked == map[] && AllLive(run) && run.fired == 0
      && (run.queue == map[] ==> run.history != [] && run.history[|run.history| - 1].how == ByResume)
    case Waiting =>
      run.parked != map[] && AllLive(run) && run.fired == 0
    case Completed =>
      && run.queue == map[] && run.parked == map[] && run.fired == 1
      && run.history != [] && run.history[|run.history| - 1].how == ByCommit
    case Failed =>
      && (exists k :: k in run.rows && run.rows[k].place == Dead)
      && run.fired == 0
    case Cancelled => run.parked == map[] && run.fired <= 1
  }

  /** The run invariant. Jobs in `queue` include the dead-lettered and dropped ones. */
  ghost predicate RunInv(p: Plan, run: Run) {
    && IdsOk(run)
    && Core(p, run.history, run.remaining, run.queue, run.parked)
    && (run.status != Cancelled ==> Covered(p, run.history, run.queue, run.parked, {}))
    && ResultsOk(run.history, run.results)
    && run.pending == |run.queue|
    && StatusOk(run)
  }

  // ----- what one fan-out does

  lemma DecrementSpec(remaining: map<NodeId, int>, ds: seq<NodeId>)
    requires Distinct(ds)
    requires forall d :: d in ds ==> d in remaining
    ensures Decrement(remaining, ds).Some?
    ensures var (m, ready) := Decrement(remaining, ds).value;
            && m.Keys == remaining.Keys
            && (forall n :: n in remaining ==> m[n] == remaining[n] - (if n in ds then 1 else 0))
            && (forall n :: n in ready <==> n in ds && n in remaining && remaining[n] == 1)
  {
    if ds != [] {
      var rest, d := ds[..|ds| - 1], ds[|ds| - 1];
      assert ds == rest + [d];
      assert d !in rest;
      DecrementSpec(remaining, rest);
    }
  }

  function ReadyIds(ds: seq<NodeId>, ready: set<NodeId>): (r: seq<NodeId>)
    ensures forall d :: d in r <==> d in ds && d in ready
  {
    if ds == [] then []
    else
      var before := ReadyIds(ds[..|ds| - 1], ready);
      assert ds == ds[..|ds| - 1] + [ds[|ds| - 1]];
      if ds[|ds| - 1] in ready then before + [ds[|ds| - 1]] else before
  }

  lemma ReadyIdsDistinct(ds: seq<NodeId>, ready: set<NodeId>)
    requires Distinct(ds)
    ensures Distinct(ReadyIds(ds, ready))
  {
    if ds != [] {
      ReadyIdsDistinct(ds[..|ds| - 1], ready);
      assert ds[|ds| - 1] !in ds[..|ds| - 1];
    }
  }

  /** The jobs a completion enqueues, one per ready dependent. */
  function Launched(p: Plan, c: Completion, ids: seq<NodeId>): (r: seq<NodeJob>)
    requires forall m :: m in ids ==> m in p.jobs
    ensures |r| == |ids| && forall i :: 0 <= i < |ids| ==> r[i] == NextJob(c, p.jobs[ids[i]])
  {
    seq(|ids|, i requires 0 <= i < |ids| => NextJob(c, p.jobs[ids[i]]))
  }

  lemma ReadyJobsAre(p: Plan, job: NodeJob, c: Completion, ready: set<NodeId>, k: nat)
    requires Aligned(p, job) && k <= |job.dependents|
    ensures forall m :: m in job.dependents ==> m in p.jobs
    ensures ReadyJobs(job.dependents, ready, NextJobs(c, job.downstream)[..k])
            == Launched(p, c, ReadyIds(job.dependents[..k], ready))
  {
    var ds := NextJobs(c, job.downstream);
    if k > 0 {
      ReadyJobsAre(p, job, c, ready, k - 1);
      assert ds[..k][..k - 1] == ds[..k - 1];
      assert job.dependents[..k][..k - 1] == job.dependents[..k - 1];
      assert ds[k - 1] == NextJob(c, p.jobs[job.dependents[k - 1]]);
    }
  }

  /** The jobs under the ids they get when enqueued from `base` on. */
  function NewTokens(base: nat, jobs: seq<NodeJob>): map<nat, NodeJob> {
    if jobs == [] then map[]
    else
      var n := |jobs| - 1;
      NewTokens(base, jobs[..n])[base + n := jobs[n]]
  }

  lemma {:induction false} NewTokensAt(base: nat, jobs: seq<NodeJob>)
    ensures forall i :: i in NewTokens(base, jobs) <==> base <= i < base + |jobs|
    ensures forall i :: i in NewTokens(base, jobs) ==> NewTokens(base, jobs)[i] == jobs[i - base]
    ensures |NewTokens(base, jobs)| == |jobs|
  {
    if jobs != [] {
      NewTokensAt(base, jobs[..|jobs| - 1]);
      assert base + |jobs| - 1 !in NewTokens(base, jobs[..|jobs| - 1]);
    }
  }

  function FreshRows(base: nat, n: nat): map<nat, Row> {
    if n == 0 then map[] else FreshRows(base, n - 1)[base + n - 1 := FRESH_ROW]
  }

  lemma {:induction false} FreshRowsAt(base: nat, n: nat)
    ensures forall i :: i in FreshRows(base, n) <==> base <= i < base + n
    ensures forall i :: i in FreshRows(base, n) ==> FreshRows(base, n)[i] == FRESH_ROW
  {
    if n > 0 {
      FreshRowsAt(base, n - 1);
    }
  }

  lemma UnionUpdate<K, V>(a: map<K, V>, b: map<K, V>, k: K, v: V)
    ensures a + b[k := v] == (a + b)[k := v]
  {
  }

  lemma DisjointUnionSize<K, V>(a: map<K, V>, b: map<K, V>)
    requires a.Keys !! b.Keys
    ensures |a + b| == |a| + |b|
  {
    assert (a + b).Keys == a.Keys + b.Keys;
    assert |(a + b).Keys| == |a.Keys| + |b.Keys|;
  }

  lemma NewTokensSnoc(queue: map<nat, NodeJob>, base: nat, jobs: seq<NodeJob>)
    ensures queue + NewTokens(base, []) == queue
    ensures jobs != [] ==>
              var n := |jobs| - 1;
              queue + NewTokens(base, jobs) == (queue + NewTokens(base, jobs[..n]))[base + n := jobs[n]]
  {
    if jobs != [] {
      UnionUpdate(queue, NewTokens(base, jobs[..|jobs| - 1]), base + |jobs| - 1, jobs[|jobs| - 1]);
    }
  }

  lemma FreshRowsSnoc(rows: map<nat, Row>, base: nat, n: nat)
    ensures rows + FreshRows(base, 0) == rows
    ensures n > 0 ==> rows + FreshRows(base, n) == (rows + FreshRows(base, n - 1))[base + n - 1 := FRESH_ROW]
  {
    if n > 0 {
      UnionUpdate(rows, FreshRows(base, n - 1), base + n - 1, FRESH_ROW);
    }
  }

  lemma EnqueueUnfolds(run: Run, jobs: seq<NodeJob>)
    ensures Enqueue(run, []) == run
    ensures jobs != [] ==> Enqueue(run, jobs) == EnqueueOne(Enqueue(run, jobs[..|jobs| - 1]), jobs[|jobs| - 1])
  {
  }

  lemma {:induction false} EnqueueSpec(run: Run, jobs: seq<NodeJob>)
    ensures Enqueue(run, jobs) == run.(queue := run.queue + NewTokens(run.nextId, jobs),
                                       rows := run.rows + FreshRows(run.nextId, |jobs|),
                                       nextId := run.nextId + |jobs|)
  {
    EnqueueUnfolds(run, jobs);
    hide NewTokens, FreshRows, Enqueue;
    NewTokensSnoc(run.queue, run.nextId, jobs);
    FreshRowsSnoc(run.rows, run.nextId, |jobs|);
    if jobs != [] {
      EnqueueSpec(run, jobs[..|jobs| - 1]);
    }
  }
}
