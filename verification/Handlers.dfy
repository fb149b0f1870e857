/**
 What the worker and the control plane do to one run, as functions of its rows.

 Each handler takes the run after the job was claimed. Node execution is not modelled: what a node
 returned, or how it failed, is an argument.
 */
module Handlers {
  import opened Values
  import opened Jobs
  import opened Runs

  /** Retry bounds: of the worker for secrets and other failures, and of the queue itself. */
  datatype Limits = Limits(secretRetries: nat, maxAttempts: nat, queueMax: nat)

  datatype Cause = SecretMissing | SourceUnreachable | SecretStale | OtherCause

  /** The failed result row of an attempt. */
  function FailureResult(cause: Cause): Json {
    match cause
    case SecretMissing => JObj(map["ok" := JBool(false), "code" := JStr("missing_secret")])
    case SourceUnreachable => JObj(map["ok" := JBool(false), "code" := JStr("secret_source_unreachable")])
    case SecretStale => JObj(map["ok" := JBool(false), "code" := JStr("secret_auth_failed")])
    case OtherCause => JObj(map["ok" := JBool(false)])
  }

  /** Commit the success atom of the claimed job, then check for completion. A failed commit changes nothing. */
  function Finish(run: Run, claim: Claim, c: Completion): Run
    requires HasJob(run, claim.id)
  {
    match CommitAtom(run, AtomOf(run.queue[claim.id], claim, c, None))
    case None => run
    case Some(committed) => CheckComplete(committed)
  }

  /** The results a rejoin collects, in iteration order; a missing row reads as null. */
  function Collected(results: map<NodeId, Json>, from: NodeId, count: nat): (r: seq<Json>)
    ensures |r| == count
    ensures forall i :: 0 <= i < count ==>
              r[i] == if IterId(from, i) in results then results[IterId(from, i)] else JNull
  {
    seq(count, i requires 0 <= i < count => if IterId(from, i) in results then results[IterId(from, i)] else JNull)
  }

  /**
   Storing a result changes the collected array at one entry, if the node is one of the iterations, and
   nowhere otherwise: the array does not depend on the order in which the iterations' results were stored.
   */
  lemma CollectedWrite(results: map<NodeId, Json>, from: NodeId, count: nat, n: NodeId, r: Json)
    ensures forall i: nat :: i < count && n == IterId(from, i) ==>
              Collected(results[n := r], from, count) == Collected(results, from, count)[i := r]
    ensures (forall i: nat :: i < count ==> n != IterId(from, i)) ==>
              Collected(results[n := r], from, count) == Collected(results, from, count)
  {
    hide IterId;
    forall i: nat | i < count && n == IterId(from, i)
      ensures Collected(results[n := r], from, count) == Collected(results, from, count)[i := r]
    {
      forall j: nat | j < count && IterId(from, j) == n
        ensures j == i
      {
        IterIdInjective(from, i, j);
      }
    }
  }

  /** Only an ordinary node that carries the collect marker assembles a foreach's results. */
  predicate Assembles(job: NodeJob) {
    job.collect.Some? && job.def.nodeType.Plain?
  }

  /** The input a node runs with: its own, or for a collecting rejoin the one with the array added. */
  function EffectiveInput(results: map<NodeId, Json>, job: NodeJob): Input {
    if !Assembles(job) then job.input
    else
      var c := job.collect.value;
      job.input[STEPS := JObj(StepsOf(job.input)[c.name := JArr(Collected(results, c.from, c.count))])]
  }

  /** Park the claimed wait: continuation, `waiting`, ack, and a timer job if the wait has a timer. */
  function Park(run: Run, claim: Claim, signal: string, runAt: int): Run
    requires ClaimValid(run, claim)
  {
    var job := run.queue[claim.id];
    var cont := Continuation(job.nodeId, job.def.nodeName, job.input, job.dependents, job.downstream, signal, runAt);
    var parked := Remove(run, claim.id).(
      parked := run.parked[job.nodeId := cont],
      status := Waiting,
      pending := run.pending - 1);
    if runAt != 0
    then parked.(timers := parked.timers[parked.nextId := Timer(job.nodeId, None)], nextId := parked.nextId + 1)
    else parked
  }

  /** The completion of the wait parked in `cont`. */
  function Waking(cont: Continuation, source: string, payload: Json): Completion {
    Completion(cont.nodeId, cont.nodeName, false, None, cont.input, WakeResult(source, payload), ByResume)
  }

  /** Resume one parked wait. Nothing happens unless the run is waiting and that wait is parked. */
  function Resume(run: Run, n: NodeId, source: string, payload: Json): Run {
    if run.status != Waiting || n !in run.parked then run
    else
      var cont := run.parked[n];
      var c := Waking(cont, source, payload);
      var written := run.(results := run.results[cont.nodeId := c.result], history := run.history + [c]);
      match FanOut(written, cont.dependents, NextJobs(c, cont.downstream))
      case None => run
      case Some((fanned, count)) =>
        var parked := run.parked - {n};
        fanned.(
          pending := fanned.pending + count,
          parked := parked,
          status := if parked == map[] then Running else fanned.status)
  }

  /** A claimed timer job fires: resume its wait if it is still parked, and ack the timer either way. */
  function FireTimer(run: Run, claim: Claim): Run
    requires claim.id in run.timers
  {
    var timer := run.timers[claim.id];
    var resumed := Resume(run, timer.node, "timer", JNull);
    if timer.owner == Some(claim.worker) then resumed.(timers := resumed.timers - {claim.id}) else resumed
  }

  /** Move a claimed job out of the claimable rows. */
  function Shelve(run: Run, claim: Claim, place: Place): Run {
    if !ClaimValid(run, claim) then run
    else run.(rows := run.rows[claim.id := run.rows[claim.id].(place := place, owner := None)])
  }

  /** The queue's own retry: back to pending, or dead-lettered when its attempts are used up. */
  function Retry(lim: Limits, run: Run, claim: Claim): Run
    requires HasJob(run, claim.id)
  {
    var row := run.rows[claim.id];
    if !ClaimValid(run, claim) then run
    else if row.attempts >= lim.queueMax then Shelve(run, claim, Dead)
    else run.(rows := run.rows[claim.id := row.(owner := None)])
  }

  /** Whether the worker gives up on this attempt. */
  predicate Terminal(lim: Limits, cause: Cause, attempts: nat) {
    match cause
    case SecretMissing => true
    case SourceUnreachable => attempts >= lim.secretRetries
    case SecretStale => attempts >= lim.secretRetries
    case OtherCause => attempts >= lim.maxAttempts
  }

  /** Record a failed attempt: a failed result row, then retry or dead-letter and fail the run. */
  function RecordFailure(lim: Limits, run: Run, claim: Claim, cause: Cause): Run
    requires HasJob(run, claim.id)
  {
    var job := run.queue[claim.id];
    var written := run.(results := run.results[job.nodeId := FailureResult(cause)]);
    if Terminal(lim, cause, run.rows[claim.id].attempts)
    then Shelve(written.(saved := Some(job.(input := EffectiveInput(run.results, job)))), claim, Dead).(status := Failed)
    else Retry(lim, written, claim)
  }

  function Discard(row: Row): Row {
    if row.place == Live && row.owner == None then row.(place := Dropped) else row
  }

  lemma {:induction false} HasLast(ids: set<nat>)
    requires ids != {}
    ensures exists k :: k in ids && forall j :: j in ids ==> j <= k
  {
    var k :| k in ids;
    var rest := ids - {k};
    assert ids == rest + {k};
    if rest != {} {
      HasLast(rest);
      var l :| l in rest && forall j :: j in rest ==> j <= l;
      assert forall j :: j in ids ==> j <= if k < l then l else k;
    }
  }

  function LastOf(ids: set<nat>): (k: nat)
    requires ids != {}
    ensures k in ids
  {
    HasLast(ids);
    var k :| k in ids && forall j :: j in ids ==> j <= k;
    k
  }

  lemma WithoutOne<V>(m: map<nat, V>, k: nat)
    requires k in m
    ensures (m - {k}).Keys == m.Keys - {k} && |m - {k}| < |m|
  {
    assert (m - {k}).Keys == m.Keys - {k};
    assert |(m - {k}).Keys| == |m.Keys| - 1;
  }

  /** Every job waiting to be claimed is dropped; a claimed one is left to the worker's own check. */
  function Discarded(rows: map<nat, Row>): (r: map<nat, Row>)
    ensures r.Keys == rows.Keys && forall k :: k in rows ==> r[k] == Discard(rows[k])
    decreases |rows|
  {
    hide Discard, LastOf;
    if rows.Keys == {} then map[]
    else
      var k := LastOf(rows.Keys);
      WithoutOne(rows, k);
      Discarded(rows - {k})[k := Discard(rows[k])]
  }

  /** Cancelling drops the run's unclaimed jobs and timers, and its parked continuations. */
  function Cancel(run: Run): Run {
    run.(status := Cancelled,
         rows := Discarded(run.rows),
         timers := ClaimedTimers(run.timers),
         parked := map[])
  }

  function ClaimedTimers(timers: map<nat, Timer>): map<nat, Timer> {
    timers - (set k | k in timers && timers[k].owner.None?)
  }

  /**
   Rerun `continue`: the saved job is the only pending work. The dead and dropped jobs of the failed
   attempt leave the books here.
   */
  function RerunContinue(run: Run): Run {
    match run.saved
    case None => run
    case Some(job) => EnqueueOne(run.(status := Running, pending := 1, queue := LiveJobs(run), rows := LiveRows(run)), job)
  }

  /** The jobs that can still be claimed, with their rows. */
  function LiveJobs(run: Run): map<nat, NodeJob> {
    run.queue - (set k | k in run.queue && !(k in run.rows && run.rows[k].place == Live))
  }

  function LiveRows(run: Run): map<nat, Row> {
    run.rows - (set k | k in run.rows && !(k in run.queue && run.rows[k].place == Live))
  }

  // ----- foreach

  function SetRemaining(remaining: map<NodeId, int>, ids: seq<NodeId>, n: int): map<NodeId, int> {
    if ids == [] then remaining
    else
      var before := SetRemaining(remaining, ids[..|ids| - 1], n);
      var id := ids[|ids| - 1];
      if id in before then before[id := n] else before
  }

  /** The first job in `ds` with the given id. */
  function FindJob(ds: seq<NodeJob>, id: NodeId): (r: Option<nat>)
    ensures r.Some? ==> r.value < |ds| && ds[r.value].nodeId == id
    ensures r.None? ==> forall i :: 0 <= i < |ds| ==> ds[i].nodeId != id
  {
    if ds == [] then None
    else if ds[0].nodeId == id then Some(0)
    else
      match FindJob(ds[1..], id)
      case None => None
      case Some(i) => Some(i + 1)
  }

  /** Marks each rejoin carried downstream to collect `count` iterations of `body`. */
  function MarkRejoins(ds: seq<NodeJob>, rejoins: seq<NodeId>, loop: Loop, count: nat): (r: seq<NodeJob>)
    ensures |r| == |ds|
  {
    if rejoins == [] then ds
    else
      var before := MarkRejoins(ds, rejoins[..|rejoins| - 1], loop, count);
      match FindJob(before, rejoins[|rejoins| - 1])
      case None => before
      case Some(i) => before[i := Marked(before[i], loop, count)]
  }

  function Marked(job: NodeJob, loop: Loop, count: nat): NodeJob {
    var name := if job.collect.Some? then job.collect.value.name else "";
    job.(collect := Some(Collect(loop.body.nodeId, loop.bodyAs, count, name)))
  }

  /** The rejoin jobs found downstream, in rejoin order. */
  function RejoinJobs(ds: seq<NodeJob>, rejoins: seq<NodeId>): seq<NodeJob> {
    if rejoins == [] then []
    else
      var before := RejoinJobs(ds, rejoins[..|rejoins| - 1]);
      match FindJob(ds, rejoins[|rejoins| - 1])
      case None => before
      case Some(i) => before + [ds[i]]
  }

  /** One iteration of the body: its own id and input, leading to the marked rejoins. */
  function BodyJob(job: NodeJob, loop: Loop, marked: seq<NodeJob>, items: seq<Json>, i: nat): NodeJob
    requires i < |items|
  {
    loop.body.(
      runId := job.runId,
      nodeId := IterId(loop.body.nodeId, i),
      input := ItemInput(job.input, loop.bodyAs, items[i]),
      dependents := loop.rejoins,
      downstream := RejoinJobs(marked, loop.rejoins),
      collect := None)
  }

  function BodyJobs(job: NodeJob, loop: Loop, items: seq<Json>): (r: seq<NodeJob>)
    ensures |r| == |items|
    ensures var marked := MarkRejoins(job.downstream, loop.rejoins, loop, |items|);
            forall i :: 0 <= i < |items| ==> r[i] == BodyJob(job, loop, marked, items, i)
  {
    var marked := MarkRejoins(job.downstream, loop.rejoins, loop, |items|);
    seq(|items|, i requires 0 <= i < |items| => BodyJob(job, loop, marked, items, i))
  }

  /** The atom of a foreach: no dependents, so every body job is enqueued. */
  function ScatterAtom(claim: Claim, c: Completion, bodies: seq<NodeJob>): NodeAtom {
    NodeAtom(c.node, c.result, None, [], bodies, Some(claim), [c])
  }

  /**
   A claimed foreach fans out: every rejoin's counter becomes the iteration count, and one body job per
   item is enqueued unconditionally. The foreach decrements no dependents of its own.
   */
  function FanForeach(lim: Limits, run: Run, claim: Claim, items: seq<Json>): Run
    requires HasJob(run, claim.id)
  {
    var job := run.queue[claim.id];
    match job.loop
    case None => run
    case Some(loop) =>
      var counted := run.(remaining := SetRemaining(run.remaining, loop.rejoins, |items|));
      var c := Completing(job, None, job.input, ItemsResult(items));
      match CommitAtom(counted, ScatterAtom(claim, c, BodyJobs(job, loop, items)))
      case None => RecordFailure(lim, counted, claim, OtherCause)
      case Some(committed) => CheckComplete(committed)
  }

  // ----- one claimed job

  /** Like `Finish`, for the kinds whose failed commit is itself recorded as a failed attempt. */
  function FinishOrFail(lim: Limits, run: Run, claim: Claim, c: Completion): Run
    requires HasJob(run, claim.id)
  {
    match CommitAtom(run, AtomOf(run.queue[claim.id], claim, c, None))
    case None => RecordFailure(lim, run, claim, OtherCause)
    case Some(committed) => CheckComplete(committed)
  }

  /** What came of a claimed job's own work: an output, a wait's sources (with the oldest signal already buffered for its name), or a failure. */
  datatype Outcome =
    | Output(value: Json)
    | WaitFor(signal: string, runAt: int, buffered: Option<Json>)
    | Broke(cause: Cause)

  predicate Fits(job: NodeJob, out: Outcome) {
    out.Broke? || (out.WaitFor? <==> job.def.nodeType.Wait?)
  }

  /** The worker's handling of one claimed job, by its kind. */
  function Handle(lim: Limits, run: Run, claim: Claim, out: Outcome): Run
    requires HasJob(run, claim.id) && Fits(run.queue[claim.id], out)
  {
    var job := run.queue[claim.id];
    if run.status != Running && run.status != Waiting then Shelve(run, claim, Dropped)
    else if job.skip then Finish(run, claim, Completing(job, None, job.input, SKIPPED))
    else
      match out
      case Broke(cause) => RecordFailure(lim, run, claim, cause)
      case WaitFor(signal, runAt, buffered) =>
        if buffered.Some? && signal != ""
        then FinishOrFail(lim, run, claim, Completing(job, None, job.input, WakeResult("signal", buffered.value)))
        else if ClaimValid(run, claim) then CheckComplete(Park(run, claim, signal, runAt))
        else RecordFailure(lim, run, claim, OtherCause)
      case Output(value) =>
        match job.def.nodeType
        case Switch =>
          if value.JStr? && value.s != ""
          then Finish(run, claim, Completing(job, Some(value.s), job.input, BranchResult(value.s)))
          else RecordFailure(lim, run, claim, OtherCause)
        case Foreach =>
          if value.JArr? then FanForeach(lim, run, claim, value.items) else RecordFailure(lim, run, claim, OtherCause)
        case SendSignal => FinishOrFail(lim, run, claim, Completing(job, None, job.input, value))
        case RerunFailed => FinishOrFail(lim, run, claim, Completing(job, None, job.input, value))
        case _ => Finish(run, claim, Completing(job, None, EffectiveInput(run.results, job), value))
  }
}
