/**
 The rows the store keeps for one run, and the meaning of each transaction on them.

 Rows keyed by a run id are grouped under that run, so a `Run` is everything the tables hold for it.
 A queued job's payload is in `queue` and its bookkeeping in `rows`, under the same id; timer jobs
 are in `timers`. History fields record what happened and are never read by the engine: `history`,
 `fired` (how often the completion callback ran) and the place `Dropped` of a row.
 */
module Runs {
  import opened Values
  import opened Jobs

  datatype Status = Running | Completed | Failed | Cancelled | Waiting

  /** Where a queued job is: claimable, dead-lettered, or acked without running (a history place). */
  datatype Place = Live | Dead | Dropped

  /** The queue's bookkeeping for one job. `owner` is the worker whose claim is valid, if any. */
  datatype Row = Row(place: Place, attempts: nat, owner: Option<string>)

  const FRESH_ROW := Row(Live, 0, None)

  /** The one-shot timer job of the wait `node`. */
  datatype Timer = Timer(node: NodeId, owner: Option<string>)

  datatype Claim = Claim(id: nat, worker: string)

  /** A parked wait: what a resume needs to continue, and the sources that may resume it. */
  datatype Continuation = Continuation(
    nodeId: NodeId,
    nodeName: string,
    input: Input,
    dependents: seq<NodeId>,
    downstream: seq<NodeJob>,
    signal: string,
    runAt: int)

  datatype How = ByCommit | ByResume

  /** One node's completion. `routed` is the branch an executed switch chose. */
  datatype Completion = Completion(
    node: NodeId,
    name: string,
    skipped: bool,
    routed: Option<NodeId>,
    input: Input,
    result: Json,
    how: How)

  datatype Run = Run(
    status: Status,
    pending: int,
    remaining: map<NodeId, int>,
    results: map<NodeId, Json>,
    parked: map<NodeId, Continuation>,
    queue: map<nat, NodeJob>,
    rows: map<nat, Row>,
    timers: map<nat, Timer>,
    nextId: nat,
    saved: Option<NodeJob>,
    history: seq<Completion>,
    fired: nat)

  datatype DedupeRecord = DedupeRecord(workflowId: string, nodeName: string, key: string, succeeded: bool, result: Json)

  /** The writes that commit as one unit when a node completes; `log` is its history record. */
  datatype NodeAtom = NodeAtom(
    nodeId: NodeId,
    result: Json,
    dedupe: Option<DedupeRecord>,
    dependents: seq<NodeId>,
    downstream: seq<NodeJob>,
    ack: Option<Claim>,
    log: seq<Completion>)

  // ----- queue

  function EnqueueOne(run: Run, job: NodeJob): Run {
    run.(queue := run.queue[run.nextId := job], rows := run.rows[run.nextId := FRESH_ROW], nextId := run.nextId + 1)
  }

  function Enqueue(run: Run, jobs: seq<NodeJob>): Run {
    if jobs == [] then run else EnqueueOne(Enqueue(run, jobs[..|jobs| - 1]), jobs[|jobs| - 1])
  }

  predicate HasJob(run: Run, id: nat) {
    id in run.queue && id in run.rows
  }

  predicate ClaimValid(run: Run, claim: Claim) {
    && HasJob(run, claim.id)
    && run.rows[claim.id].place == Live
    && run.rows[claim.id].owner == Some(claim.worker)
  }

  /** Claiming a job makes the worker its owner and counts the attempt. */
  function Take(run: Run, claim: Claim): Run
    requires HasJob(run, claim.id)
  {
    var row := run.rows[claim.id];
    run.(rows := run.rows[claim.id := row.(owner := Some(claim.worker), attempts := row.attempts + 1)])
  }

  function Remove(run: Run, id: nat): Run {
    run.(queue := run.queue - {id}, rows := run.rows - {id})
  }

  // ----- dependency counters

  /** Decrements each listed counter in turn; the second component holds the ids that hit zero. */
  function Decrement(remaining: map<NodeId, int>, dependents: seq<NodeId>): (r: Option<(map<NodeId, int>, set<NodeId>)>) {
    if dependents == [] then Some((remaining, {}))
    else
      match Decrement(remaining, dependents[..|dependents| - 1])
      case None => None
      case Some((m, ready)) =>
        var d := dependents[|dependents| - 1];
        if d !in m then None
        else
          var m' := m[d := m[d] - 1];
          Some((m', if m'[d] == 0 then ready + {d} else ready))
  }

  /** The downstream jobs to enqueue: those whose aligned dependent is ready, or that have none. */
  function ReadyJobs(dependents: seq<NodeId>, ready: set<NodeId>, downstream: seq<NodeJob>): seq<NodeJob> {
    if downstream == [] then []
    else
      var i := |downstream| - 1;
      var before := ReadyJobs(dependents, ready, downstream[..i]);
      if i < |dependents| && dependents[i] !in ready then before else before + [downstream[i]]
  }

  /** Decrement, then enqueue what became ready; also returns how many jobs were enqueued. */
  function FanOut(run: Run, dependents: seq<NodeId>, downstream: seq<NodeJob>): Option<(Run, nat)> {
    match Decrement(run.remaining, dependents)
    case None => None
    case Some((m, ready)) =>
      var jobs := ReadyJobs(dependents, ready, downstream);
      Some((Enqueue(run.(remaining := m), jobs), |jobs|))
  }

  // ----- transactions

  /** The node atom. None means an error in some part, so the whole transaction rolled back. */
  function CommitAtom(run: Run, atom: NodeAtom): Option<Run> {
    var written := run.(results := run.results[atom.nodeId := atom.result], history := run.history + atom.log);
    match FanOut(written, atom.dependents, atom.downstream)
    case None => None
    case Some((fanned, n)) =>
      match atom.ack
      case None => Some(fanned.(pending := fanned.pending + n))
      case Some(claim) =>
        if !ClaimValid(fanned, claim) then None
        else Some(Remove(fanned, claim.id).(pending := fanned.pending + n - 1))
  }

  /** A successor's job as enqueued when `c` completes. */
  function NextJob(c: Completion, d: NodeJob): NodeJob {
    d.(input := ThreadInput(c.input, c.name, c.result),
       skip := d.skip || c.skipped || (c.routed.Some? && c.routed.value != d.nodeId))
  }

  function NextJobs(c: Completion, ds: seq<NodeJob>): (r: seq<NodeJob>)
    ensures |r| == |ds| && forall i :: 0 <= i < |ds| ==> r[i] == NextJob(c, ds[i])
  {
    seq(|ds|, i requires 0 <= i < |ds| => NextJob(c, ds[i]))
  }

  function CheckComplete(run: Run): Run {
    if run.pending == 0 && run.status != Waiting then run.(status := Completed, fired := run.fired + 1) else run
  }

  /** A claimed job's completion record. */
  function Completing(job: NodeJob, routed: Option<NodeId>, input: Input, result: Json): Completion {
    Completion(job.nodeId, job.def.nodeName, job.skip, routed, input, result, ByCommit)
  }

  /** The success atom of a job whose completion record is `c`. */
  function AtomOf(job: NodeJob, claim: Claim, c: Completion, dedupe: Option<DedupeRecord>): NodeAtom {
    NodeAtom(job.nodeId, c.result, dedupe, job.dependents, NextJobs(c, job.downstream), Some(claim), [c])
  }
}
