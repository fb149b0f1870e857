/**
 Claims finer than whole steps: a claim may lapse while its worker is still busy, another worker may
 claim the job again, and the first may come back late. What commits with the ack takes effect once; what
 does not is written whoever holds the claim. Here are the moves, and what holds of them in every history.
 */
module Redelivery {
  import opened Values
  import opened Jobs
  import opened Runs
  import opened Plans
  import opened Invariant
  import opened Landing
  import opened Handlers
  import opened Preservation
  import opened Steps
  import opened Checks
  import opened ForeachRuns

  /**
   A fine step. A worker claims a job, a claim lapses, and the worker, whether its claim still stands or not,
   - submits the success atom of the payload it read;
   - as a foreach, overwrites one rejoin's counter, or submits the atom that scatters its iterations;
   - as a wait, parks;
   - records a failed attempt, drops the job, or checks for completion with the pending count it read.
   A resume, by signal or timer, continues from the continuation it read. Timer jobs are claimed, lapse and are
   acked like others. A crashed worker just never comes back.
   */
  datatype Move =
    | Grab(claim: Claim)
    | Lapse(id: nat)
    | Submit(claim: Claim, job: NodeJob, c: Completion)
    | Recount(claim: Claim, job: NodeJob, rejoin: NodeId, count: nat)
    | Scatter(claim: Claim, job: NodeJob, items: seq<Json>)
    | Suspend(claim: Claim, job: NodeJob, signal: string, runAt: int)
    | Fault(claim: Claim, job: NodeJob, input: Input, attempts: nat, cause: Cause)
    | Drop(claim: Claim)
    | Check(pendingRead: int)
    | Revive(node: NodeId, cont: Continuation, source: string, payload: Json)
    | GrabTimer(claim: Claim)
    | LapseTimer(id: nat)
    | AckTimer(claim: Claim)

  predicate Possible(run: Run, m: Move) {
    match m
    case Grab(claim) => HasJob(run, claim.id) && run.rows[claim.id].place == Live && run.rows[claim.id].owner == None
    case Lapse(id) => HasJob(run, id) && run.rows[id].place == Live
    case GrabTimer(claim) => claim.id in run.timers && run.timers[claim.id].owner == None
    case LapseTimer(id) => id in run.timers
    case _ => true
  }

  /** A transaction commits whole, or changes nothing. */
  function Committed(run: Run, atom: NodeAtom): Run {
    match CommitAtom(run, atom)
    case None => run
    case Some(after) => after
  }

  /** The completion of a scheduler over `items`. */
  function Spreads(job: NodeJob, items: seq<Json>): Completion {
    Completing(job, None, job.input, ItemsResult(items))
  }

  /** The atom a scheduler submits. */
  function FanAtom(job: NodeJob, claim: Claim, items: seq<Json>): NodeAtom {
    ScatterAtom(claim, Spreads(job, items), if job.loop.Some? then BodyJobs(job, job.loop.value, items) else [])
  }

  /**
   Recording a failed attempt: the failed result row is written whoever holds the claim. A worker that gives
   up saves its job and fails the run, whoever holds the claim; only the queue's own row is guarded by it.
   */
  function Faulted(lim: Limits, run: Run, claim: Claim, job: NodeJob, input: Input, attempts: nat, cause: Cause): Run {
    var written := run.(results := run.results[job.nodeId := FailureResult(cause)]);
    if Terminal(lim, cause, attempts) then Shelve(written.(saved := Some(job.(input := input))), claim, Dead).(status := Failed)
    else if ClaimValid(run, claim) then Retry(lim, written, claim)
    else written
  }

  /** The resume transaction, of the continuation that was read: it does not look whether that is still there. */
  function Revived(run: Run, n: NodeId, cont: Continuation, source: string, payload: Json): Run {
    var c := Waking(cont, source, payload);
    var written := run.(results := run.results[cont.nodeId := c.result], history := run.history + [c]);
    match FanOut(written, cont.dependents, NextJobs(c, cont.downstream))
    case None => run
    case Some((fanned, count)) =>
      var parked := run.parked - {n};
      fanned.(pending := fanned.pending + count, parked := parked, status := if parked == map[] then Running else fanned.status)
  }

  function After(lim: Limits, run: Run, m: Move): Run
    requires Possible(run, m)
  {
    match m
    case Grab(claim) => Take(run, claim)
    case Lapse(id) => run.(rows := run.rows[id := run.rows[id].(owner := None)])
    case Submit(claim, job, c) => Committed(run, AtomOf(job, claim, c, None))
    case Recount(_, _, rejoin, count) => run.(remaining := SetRemaining(run.remaining, [rejoin], count))
    case Scatter(claim, job, items) => Committed(run, FanAtom(job, claim, items))
    case Suspend(claim, _, signal, runAt) => if ClaimValid(run, claim) then Park(run, claim, signal, runAt) else run
    case Fault(claim, job, input, attempts, cause) => Faulted(lim, run, claim, job, input, attempts, cause)
    case Drop(claim) => Shelve(run, claim, Dropped)
    case Check(pendingRead) => LateCheck(pendingRead, run)
    case Revive(n, cont, source, payload) => Revived(run, n, cont, source, payload)
    case GrabTimer(claim) => TakeTimer(run, claim)
    case LapseTimer(id) => run.(timers := run.timers[id := run.timers[id].(owner := None)])
    case AckTimer(claim) =>
      if claim.id in run.timers && run.timers[claim.id].owner == Some(claim.worker)
      then run.(timers := run.timers - {claim.id}) else run
  }

  // ----- the steps in one are sequences of these

  /** While its claim is valid, a failed attempt is recorded as the handling in one step records it. */
  lemma FaultInTime(lim: Limits, run: Run, claim: Claim, cause: Cause)
    requires ClaimValid(run, claim)
    ensures var job := run.queue[claim.id];
            Faulted(lim, run, claim, job, EffectiveInput(run.results, job), run.rows[claim.id].attempts, cause)
            == RecordFailure(lim, run, claim, cause)
  {
    hide EffectiveInput, FailureResult;
  }

  /** A resume that finds its wait still parked in a waiting run is the resume in one step. */
  lemma ReviveInTime(run: Run, n: NodeId, source: string, payload: Json)
    requires run.status == Waiting && n in run.parked
    ensures Revived(run, n, run.parked[n], source, payload) == Resume(run, n, source, payload)
  {
    hide FanOut, NextJobs, WakeResult;
  }

  /** A fan-out in one step is the counter writes, rejoin by rejoin, and then the atom, checked or else recorded as failed. */
  lemma FanOutInTime(lim: Limits, run: Run, claim: Claim, items: seq<Json>)
    requires HasJob(run, claim.id) && run.queue[claim.id].loop.Some?
    ensures var job := run.queue[claim.id];
            var counted := run.(remaining := SetRemaining(run.remaining, job.loop.value.rejoins, |items|));
            var after := CommitAtom(counted, FanAtom(job, claim, items));
            FanForeach(lim, run, claim, items) ==
            if after.Some? then CheckComplete(after.value) else RecordFailure(lim, counted, claim, OtherCause)
  {
    hide CommitAtom, SetRemaining, BodyJobs, ScatterAtom, CheckComplete, RecordFailure, ItemsResult;
  }

  // ----- what workers do

  /** Claim `claim` was taken at move `g`: the job read then, and the attempts counted. */
  ghost predicate ReadAt(runs: seq<Run>, moves: seq<Move>, g: nat, claim: Claim, job: NodeJob, attempts: nat) {
    && g < |moves| && g + 1 < |runs| && moves[g] == Grab(claim)
    && claim.id in runs[g].queue && runs[g].queue[claim.id] == job
    && claim.id in runs[g + 1].rows && runs[g + 1].rows[claim.id].attempts == attempts
  }

  /** Before move `i` the worker claimed this job and read it. */
  ghost predicate HasRead(runs: seq<Run>, moves: seq<Move>, i: nat, claim: Claim, job: NodeJob) {
    exists g: nat, attempts: nat {:trigger ReadAt(runs, moves, g, claim, job, attempts)} ::
      g < i && ReadAt(runs, moves, g, claim, job, attempts)
  }

  /** The continuation of a parked wait was read in state `g`. */
  ghost predicate ReadWait(runs: seq<Run>, g: nat, n: NodeId, cont: Continuation) {
    g < |runs| && runs[g].status == Waiting && n in runs[g].parked && runs[g].parked[n] == cont
  }

  /** What the kind of a job allows its worker to do. */
  ghost predicate Fitting(m: Move) {
    match m
    case Submit(claim, job, c) =>
      && c.node == job.nodeId && c.how == ByCommit && OutcomeOk(job, c)
      && (job.def.nodeType.Foreach? ==> job.skip && c == Skipping(job))
    case Recount(claim, job, rejoin, _) =>
      job.def.nodeType.Foreach? && !job.skip && job.loop.Some? && rejoin in job.loop.value.rejoins
    case Scatter(claim, job, _) => job.def.nodeType.Foreach? && !job.skip && job.loop.Some?
    case Suspend(claim, job, _, _) => job.def.nodeType.Wait? && !job.skip
    case Fault(claim, job, input, _, _) => !Assembles(job) ==> input == job.input
    case Revive(n, cont, _, _) => cont.nodeId == n
    case _ => true
  }

  /** Whether a worker or a resume may make move `i`: it uses only what it read. */
  ghost predicate Honest(runs: seq<Run>, moves: seq<Move>, i: nat)
    requires i < |moves|
  {
    && Fitting(moves[i])
    && match moves[i]
       case Submit(claim, job, _) => HasRead(runs, moves, i, claim, job)
       case Recount(claim, job, _, _) => HasRead(runs, moves, i, claim, job)
       case Scatter(claim, job, _) => HasRead(runs, moves, i, claim, job)
       case Suspend(claim, job, _, _) => HasRead(runs, moves, i, claim, job)
       case Fault(claim, job, _, attempts, _) =>
         exists g: nat {:trigger ReadAt(runs, moves, g, claim, job, attempts)} :: g < i && ReadAt(runs, moves, g, claim, job, attempts)
       case Revive(n, cont, _, _) => exists g: nat {:trigger ReadWait(runs, g, n, cont)} :: g <= i && ReadWait(runs, g, n, cont)
       case _ => true
  }

  /** `runs` is a history of fine moves of honest workers. */
  ghost predicate IsFine(lim: Limits, runs: seq<Run>, moves: seq<Move>) {
    && |runs| == |moves| + 1
    && IdsOk(runs[0])
    && forall i: nat {:trigger Honest(runs, moves, i)} :: i < |moves| ==>
         Possible(runs[i], moves[i]) && Honest(runs, moves, i) && runs[i + 1] == After(lim, runs[i], moves[i])
  }

  /** The claim and the job of the moves that read one. */
  function JobOf(m: Move): Option<(Claim, NodeJob)> {
    match m
    case Submit(claim, job, _) => Some((claim, job))
    case Recount(claim, job, _, _) => Some((claim, job))
    case Scatter(claim, job, _) => Some((claim, job))
    case Suspend(claim, job, _, _) => Some((claim, job))
    case Fault(claim, job, _, _, _) => Some((claim, job))
    case _ => None
  }

  // ----- transactions that carry the ack

  lemma {:induction false} EnqueuedUnowned(run: Run, jobs: seq<NodeJob>, claim: Claim)
    ensures ClaimValid(Enqueue(run, jobs), claim) ==> ClaimValid(run, claim)
  {
    if jobs != [] {
      EnqueuedUnowned(run, jobs[..|jobs| - 1], claim);
    }
  }

  lemma StaleAtomFails(run: Run, atom: NodeAtom)
    requires atom.ack.Some? && !ClaimValid(run, atom.ack.value)
    ensures CommitAtom(run, atom).None?
  {
    hide Decrement, ReadyJobs, Enqueue, ClaimValid;
    match Decrement(run.remaining, atom.dependents)
    case None =>
    case Some((m, ready)) =>
      var written := run.(results := run.results[atom.nodeId := atom.result], history := run.history + atom.log);
      EnqueuedUnowned(written.(remaining := m), ReadyJobs(atom.dependents, ready, atom.downstream), atom.ack.value);
      UnownedElsewhere(run, written.(remaining := m), atom.ack.value);
  }

  /** Whatever it writes, an atom takes effect only while its claim is valid. */
  lemma StaleAtomIsNothing(run: Run, atom: NodeAtom)
    requires atom.ack.Some? && !ClaimValid(run, atom.ack.value)
    ensures Committed(run, atom) == run
  {
    hide CommitAtom, ClaimValid;
    StaleAtomFails(run, atom);
  }

  lemma UnownedElsewhere(run: Run, after: Run, claim: Claim)
    requires after.queue == run.queue && after.rows == run.rows
    ensures ClaimValid(after, claim) == ClaimValid(run, claim)
  {
  }

  /** A success atom takes effect only while its claim is valid; otherwise it changes nothing at all. */
  lemma StaleSubmitIsNothing(run: Run, claim: Claim, job: NodeJob, c: Completion)
    requires !ClaimValid(run, claim)
    ensures Committed(run, AtomOf(job, claim, c, None)) == run
  {
    StaleAtomIsNothing(run, AtomOf(job, claim, c, None));
  }

  /** Jobs in the queue stay under their ids, and new ones get new ids. */
  ghost predicate QueueGrows(run: Run, after: Run, gone: set<nat>) {
    && run.nextId <= after.nextId
    && (forall k :: k in run.queue && k !in gone ==> k in after.queue && after.queue[k] == run.queue[k])
    && (forall k :: k in after.queue && k < run.nextId ==> k in run.queue && k !in gone)
  }

  lemma {:induction false} EnqueueGrows(run: Run, jobs: seq<NodeJob>)
    requires IdsOk(run)
    ensures IdsOk(Enqueue(run, jobs)) && QueueGrows(run, Enqueue(run, jobs), {})
    ensures var after := Enqueue(run, jobs);
            after == run.(queue := after.queue, rows := after.rows, nextId := after.nextId)
  {
    if jobs != [] {
      EnqueueGrows(run, jobs[..|jobs| - 1]);
    }
  }

  /** What an atom that goes through does to the queue and to what is recorded. */
  lemma AtomCommits(run: Run, atom: NodeAtom)
    requires IdsOk(run) && atom.ack.Some? && CommitAtom(run, atom).Some?
    ensures ClaimValid(run, atom.ack.value)
    ensures var after := Committed(run, atom); var id := atom.ack.value.id;
            && IdsOk(after) && QueueGrows(run, after, {id}) && id in run.queue
            && after == run.(pending := after.pending, remaining := after.remaining, queue := after.queue, rows := after.rows,
                             nextId := after.nextId, results := run.results[atom.nodeId := atom.result],
                             history := run.history + atom.log)
  {
    hide Decrement, ReadyJobs, Enqueue, IdsOk, ClaimValid, QueueGrows;
    var claim := atom.ack.value;
    if !ClaimValid(run, claim) {
      StaleAtomFails(run, atom);
    }
    ValidIsQueued(run, claim);
    var (m, ready) := Decrement(run.remaining, atom.dependents).value;
    var jobs := ReadyJobs(atom.dependents, ready, atom.downstream);
    var counted := run.(results := run.results[atom.nodeId := atom.result], history := run.history + atom.log, remaining := m);
    SameIdsOk(run, counted);
    EnqueueGrows(counted, jobs);
    SameQueue(run, counted, Enqueue(counted, jobs));
    RemoveGrows(run, Enqueue(counted, jobs), claim.id);
    var removed := Remove(Enqueue(counted, jobs), claim.id);
    SameIdsOk(removed, Committed(run, atom));
    SameQueueAfter(run, removed, Committed(run, atom), {claim.id});
  }

  lemma ValidIsQueued(run: Run, claim: Claim)
    requires ClaimValid(run, claim)
    ensures claim.id in run.queue
  {
  }

  lemma SameQueue(run: Run, same: Run, after: Run)
    requires same.queue == run.queue && same.nextId == run.nextId && QueueGrows(same, after, {})
    ensures QueueGrows(run, after, {})
  {
  }

  lemma SameQueueAfter(run: Run, after: Run, same: Run, gone: set<nat>)
    requires QueueGrows(run, after, gone) && same.queue == after.queue && same.nextId == after.nextId
    ensures QueueGrows(run, same, gone)
  {
  }

  lemma SameIdsOk(run: Run, after: Run)
    requires IdsOk(run) && after.queue == run.queue && after.rows.Keys == run.rows.Keys && after.nextId == run.nextId
    requires after.timers.Keys <= run.timers.Keys
    ensures IdsOk(after)
  {
    assert forall k :: k in after.rows <==> k in run.rows;
    assert forall k :: k in after.timers ==> k in run.timers;
  }

  lemma RemoveGrows(run: Run, grown: Run, id: nat)
    requires IdsOk(run) && IdsOk(grown) && QueueGrows(run, grown, {}) && id in run.queue
    ensures IdsOk(Remove(grown, id)) && QueueGrows(run, Remove(grown, id), {id})
  {
  }

  /** What a resume transaction that goes through does to the queue and to what is recorded. */
  lemma ReviveCommits(run: Run, n: NodeId, cont: Continuation, source: string, payload: Json)
    requires IdsOk(run)
    ensures var c := Waking(cont, source, payload); var after := Revived(run, n, cont, source, payload);
            && IdsOk(after) && QueueGrows(run, after, {})
            && (Decrement(run.remaining, cont.dependents).Some? ==>
                  after == run.(pending := after.pending, remaining := after.remaining, queue := after.queue, rows := after.rows,
                                nextId := after.nextId, results := run.results[cont.nodeId := c.result], history := run.history + [c],
                                parked := run.parked - {n}, status := if run.parked - {n} == map[] then Running else run.status))
            && (Decrement(run.remaining, cont.dependents).None? ==> after == run)
  {
    match Decrement(run.remaining, cont.dependents)
    case None =>
    case Some((m, ready)) =>
      hide Decrement, ReadyJobs, Enqueue, NextJobs, IdsOk, WakeResult;
      var c := Waking(cont, source, payload);
      var counted := run.(results := run.results[cont.nodeId := c.result], history := run.history + [c], remaining := m);
      SameIdsOk(run, counted);
      var grown := Enqueue(counted, ReadyJobs(cont.dependents, ready, NextJobs(c, cont.downstream)));
      EnqueueGrows(counted, ReadyJobs(cont.dependents, ready, NextJobs(c, cont.downstream)));
      SameIdsOk(grown, Revived(run, n, cont, source, payload));
  }

  lemma ParkShape(run: Run, claim: Claim, signal: string, runAt: int)
    requires IdsOk(run) && ClaimValid(run, claim)
    ensures var after := Park(run, claim, signal, runAt); var job := run.queue[claim.id];
            && IdsOk(after) && QueueGrows(run, after, {claim.id})
            && after.history == run.history && after.results == run.results && after.remaining == run.remaining
            && after.parked == run.parked[job.nodeId := ContinuationOf(job, signal, runAt)]
            && after.queue == run.queue - {claim.id} && after.pending == run.pending - 1
  {
  }

  // ----- failed attempts, drops and checks

  lemma ShelvesRows(run: Run, claim: Claim, place: Place)
    ensures var after := Shelve(run, claim, place);
            after == run.(rows := after.rows) && after.rows.Keys == run.rows.Keys && (!ClaimValid(run, claim) ==> after == run)
  {
  }

  lemma RetriesRows(lim: Limits, run: Run, claim: Claim)
    requires HasJob(run, claim.id)
    ensures var after := Retry(lim, run, claim); after == run.(rows := after.rows) && after.rows.Keys == run.rows.Keys
  {
  }

  /** A failed attempt, late or not, moves no job and no counter. */
  lemma FaultMovesNothing(lim: Limits, run: Run, claim: Claim, job: NodeJob, input: Input, attempts: nat, cause: Cause)
    ensures var after := Faulted(lim, run, claim, job, input, attempts, cause);
            && after == run.(rows := after.rows, results := run.results[job.nodeId := FailureResult(cause)],
                             status := after.status, saved := after.saved)
            && after.rows.Keys == run.rows.Keys
            && after.status == (if Terminal(lim, cause, attempts) then Failed else run.status)
            && (!ClaimValid(run, claim) ==> after.rows == run.rows)
  {
    var written := run.(results := run.results[job.nodeId := FailureResult(cause)]);
    ShelvesRows(written.(saved := Some(job.(input := input))), claim, Dead);
    if ClaimValid(run, claim) {
      RetriesRows(lim, written, claim);
    }
    hide FailureResult, Shelve, Retry, Terminal;
  }

  /** The moves that touch neither jobs, counters, parked waits nor what completed. */
  predicate Bookkeeping(m: Move) {
    m.Grab? || m.Lapse? || m.Fault? || m.Drop? || m.Check? || m.GrabTimer? || m.LapseTimer? || m.AckTimer?
  }

  lemma BookkeepingMovesNothing(lim: Limits, run: Run, m: Move)
    requires Possible(run, m) && Bookkeeping(m)
    ensures var after := After(lim, run, m);
            && after == run.(rows := after.rows, results := after.results, status := after.status, saved := after.saved,
                             fired := after.fired, timers := after.timers)
            && after.rows.Keys == run.rows.Keys && after.timers.Keys <= run.timers.Keys
            && (!m.Fault? ==> after.results == run.results)
  {
    hide Faulted, Shelve, FailureResult, Terminal, ClaimValid;
    match m
    case Fault(claim, job, input, attempts, cause) => FaultMovesNothing(lim, run, claim, job, input, attempts, cause);
    case Drop(claim) => ShelvesRows(run, claim, Dropped);
    case _ =>
  }

  // ----- a job, once claimed

  /** The job under `id` is still the one read, or that one's node has completed or is parked. */
  ghost predicate StillThere(run: Run, id: nat, job: NodeJob) {
    if id in run.queue then run.queue[id] == job
    else id < run.nextId && (job.nodeId in DoneSet(run.history) || job.nodeId in run.parked)
  }

  /** A move that acks with a valid claim is of the job in the queue. */
  ghost predicate OfTheJob(run: Run, m: Move) {
    && Possible(run, m) && Fitting(m)
    && (JobOf(m).Some? ==> var (claim, job) := JobOf(m).value; StillThere(run, claim.id, job))
  }

  lemma ValidJob(run: Run, m: Move)
    requires OfTheJob(run, m) && JobOf(m).Some? && ClaimValid(run, JobOf(m).value.0)
    ensures run.queue[JobOf(m).value.0.id] == JobOf(m).value.1
  {
  }

  lemma MoveKeepsIds(lim: Limits, run: Run, m: Move)
    requires IdsOk(run) && Possible(run, m)
    ensures IdsOk(After(lim, run, m))
  {
    hide CommitAtom, AtomOf, FanAtom, Revived, Park, Faulted, Shelve, LateCheck, SetRemaining, IdsOk;
    match m
    case Submit(claim, job, c) =>
      AtomAcks(job, claim, c, []);
      CommittedIds(run, AtomOf(job, claim, c, None), claim);
    case Scatter(claim, job, items) =>
      AtomAcks(job, claim, Spreads(job, items), items);
      CommittedIds(run, FanAtom(job, claim, items), claim);
    case Suspend(claim, _, signal, runAt) =>
      if ClaimValid(run, claim) {
        ParkShape(run, claim, signal, runAt);
      }
    case Revive(n, cont, source, payload) => ReviveCommits(run, n, cont, source, payload);
    case Recount(_, _, rejoin, count) => SameIdsOk(run, After(lim, run, m));
    case _ =>
      BookkeepingMovesNothing(lim, run, m);
      SameIdsOk(run, After(lim, run, m));
  }

  lemma AtomAcks(job: NodeJob, claim: Claim, c: Completion, items: seq<Json>)
    ensures AtomOf(job, claim, c, None).ack == Some(claim) && AtomOf(job, claim, c, None).log == [c]
    ensures AtomOf(job, claim, c, None).nodeId == job.nodeId && AtomOf(job, claim, c, None).result == c.result
    ensures FanAtom(job, claim, items).ack == Some(claim) && FanAtom(job, claim, items).log == [Spreads(job, items)]
    ensures FanAtom(job, claim, items).nodeId == job.nodeId && FanAtom(job, claim, items).result == ItemsResult(items)
  {
  }

  lemma CommittedIds(run: Run, atom: NodeAtom, claim: Claim)
    requires IdsOk(run)
    ensures atom.ack == Some(claim) ==> IdsOk(Committed(run, atom))
  {
    hide CommitAtom;
    if atom.ack == Some(claim) && CommitAtom(run, atom).Some? {
      AtomCommits(run, atom);
    }
  }

  /** One move leaves a job where it was, unless it completes or parks its node. */
  lemma MoveLeaves(lim: Limits, run: Run, m: Move, id: nat, job: NodeJob)
    requires IdsOk(run) && OfTheJob(run, m) && StillThere(run, id, job)
    ensures StillThere(After(lim, run, m), id, job)
  {
    hide CommitAtom, AtomOf, FanAtom, Revived, Park, Faulted, Shelve, LateCheck, SetRemaining, OutcomeOk;
    match m
    case Submit(claim, read, c) =>
      AtomAcks(read, claim, c, []);
      AtomLeaves(run, AtomOf(read, claim, c, None), claim, c, read, id, job);
    case Scatter(claim, read, items) =>
      AtomAcks(read, claim, Spreads(read, items), items);
      AtomLeaves(run, FanAtom(read, claim, items), claim, Spreads(read, items), read, id, job);
    case Suspend(claim, read, signal, runAt) =>
      if ClaimValid(run, claim) {
        ParkShape(run, claim, signal, runAt);
        hide DoneSet;
      }
    case Revive(n, cont, source, payload) =>
      ReviveCommits(run, n, cont, source, payload);
      DoneSetAppend(run.history, Waking(cont, source, payload));
      hide DoneSet, Decrement;
    case Recount(_, _, _, _) => hide DoneSet;
    case _ =>
      BookkeepingMovesNothing(lim, run, m);
      hide DoneSet, After;
  }

  lemma AtomLeaves(run: Run, atom: NodeAtom, claim: Claim, c: Completion, read: NodeJob, id: nat, job: NodeJob)
    requires IdsOk(run) && StillThere(run, id, job) && StillThere(run, claim.id, read)
    requires atom.ack == Some(claim) && atom.log == [c] && c.node == read.nodeId
    ensures StillThere(Committed(run, atom), id, job)
  {
    if CommitAtom(run, atom).Some? {
      AtomCommits(run, atom);
      hide CommitAtom;
      DoneSetAppend(run.history, c);
      hide DoneSet;
    } else {
      hide CommitAtom, DoneSet;
    }
  }

  lemma StartsThere(run: Run, id: nat)
    requires id in run.queue
    ensures StillThere(run, id, run.queue[id])
  {
  }

  // ----- every history

  lemma {:induction false} IdsKept(lim: Limits, runs: seq<Run>, moves: seq<Move>, i: nat)
    requires IsFine(lim, runs, moves) && i < |runs|
    ensures IdsOk(runs[i])
  {
    hide IdsOk, After;
    if i > 0 {
      IdsKept(lim, runs, moves, i - 1);
      assert Honest(runs, moves, i - 1);
      MoveKeepsIds(lim, runs[i - 1], moves[i - 1]);
    }
  }

  /** From when it was read on, a job stays in the queue as it is until its node completes or parks. */
  lemma {:induction false} JobStays(lim: Limits, runs: seq<Run>, moves: seq<Move>, g: nat, i: nat, id: nat)
    requires IsFine(lim, runs, moves) && g <= i < |runs| && id in runs[g].queue
    ensures StillThere(runs[i], id, runs[g].queue[id])
    decreases i, 1
  {
    hide IdsOk, After, StillThere, OfTheJob;
    if i == g {
      StartsThere(runs[g], id);
    } else {
      JobStays(lim, runs, moves, g, i - 1, id);
      IdsKept(lim, runs, moves, i - 1);
      FineStep(lim, runs, moves, i - 1);
      MoveLeaves(lim, runs[i - 1], moves[i - 1], id, runs[g].queue[id]);
    }
  }

  /** What an honest worker moves is the job it read, or that one is gone from the queue. */
  lemma {:induction false} FineStep(lim: Limits, runs: seq<Run>, moves: seq<Move>, i: nat)
    requires IsFine(lim, runs, moves) && i < |moves|
    ensures OfTheJob(runs[i], moves[i]) && runs[i + 1] == After(lim, runs[i], moves[i])
    decreases i, 2
  {
    assert Honest(runs, moves, i);
    var m := moves[i];
    hide IdsOk, After, Possible, Fitting, StillThere;
    if JobOf(m).Some? {
      var (claim, job) := JobOf(m).value;
      HonestReads(runs, moves, i);
      var g: nat, attempts: nat :| g < i && ReadAt(runs, moves, g, claim, job, attempts);
      JobStays(lim, runs, moves, g, i, claim.id);
    }
  }

  lemma HonestReads(runs: seq<Run>, moves: seq<Move>, i: nat)
    requires i < |moves| && Honest(runs, moves, i) && JobOf(moves[i]).Some?
    ensures HasRead(runs, moves, i, JobOf(moves[i]).value.0, JobOf(moves[i]).value.1)
  {
    hide Fitting;
    match moves[i]
    case Fault(claim, job, _, attempts, _) =>
      var g: nat :| g < i && ReadAt(runs, moves, g, claim, job, attempts);
    case _ =>
  }

  // ----- at most once

  /** The moves whose transaction carries the ack: a success, a fan-out, a park. */
  function AckedBy(m: Move): Option<Claim> {
    match m
    case Submit(claim, _, _) => Some(claim)
    case Scatter(claim, _, _) => Some(claim)
    case Suspend(claim, _, _, _) => Some(claim)
    case _ => None
  }

  /** The id was used and its job has left the queue. */
  predicate Gone(run: Run, id: nat) {
    id < run.nextId && id !in run.queue
  }

  /** Such a move takes its job out of the queue, or changes nothing; and without a valid claim it changes nothing. */
  lemma AckedMove(lim: Limits, run: Run, m: Move)
    requires IdsOk(run) && Possible(run, m) && AckedBy(m).Some?
    ensures var claim := AckedBy(m).value; var after := After(lim, run, m);
            && (after != run ==> ClaimValid(run, claim) && Gone(after, claim.id))
            && QueueGrows(run, after, if after == run then {} else {claim.id})
  {
    hide CommitAtom, AtomOf, FanAtom, Park, IdsOk;
    match m
    case Submit(claim, job, c) =>
      AtomAcks(job, claim, c, []);
      AckedAtom(run, AtomOf(job, claim, c, None), claim);
    case Scatter(claim, job, items) =>
      AtomAcks(job, claim, Spreads(job, items), items);
      AckedAtom(run, FanAtom(job, claim, items), claim);
    case Suspend(claim, _, signal, runAt) =>
      if ClaimValid(run, claim) {
        ParkShape(run, claim, signal, runAt);
        IdKnown(run, claim.id);
      }
  }

  lemma IdKnown(run: Run, id: nat)
    requires IdsOk(run) && id in run.queue
    ensures id < run.nextId
  {
  }

  lemma AckedAtom(run: Run, atom: NodeAtom, claim: Claim)
    requires IdsOk(run) && atom.ack == Some(claim)
    ensures var after := Committed(run, atom);
            && (after != run ==> ClaimValid(run, claim) && Gone(after, claim.id))
            && QueueGrows(run, after, if after == run then {} else {claim.id})
  {
    hide CommitAtom;
    if CommitAtom(run, atom).Some? {
      AtomCommits(run, atom);
      IdKnown(run, claim.id);
    }
  }

  lemma MoveKeepsGone(lim: Limits, run: Run, m: Move, id: nat)
    requires IdsOk(run) && Possible(run, m) && Gone(run, id)
    ensures Gone(After(lim, run, m), id)
  {
    hide After, IdsOk;
    if AckedBy(m).Some? {
      AckedMove(lim, run, m);
    } else if m.Revive? {
      ReviveGrows(lim, run, m);
    } else if m.Recount? {
      RecountOnly(lim, run, m);
    } else {
      BookkeepingMovesNothing(lim, run, m);
    }
  }

  lemma ReviveGrows(lim: Limits, run: Run, m: Move)
    requires IdsOk(run) && m.Revive?
    ensures QueueGrows(run, After(lim, run, m), {})
  {
    hide Revived, IdsOk;
    ReviveCommits(run, m.node, m.cont, m.source, m.payload);
  }

  lemma RecountOnly(lim: Limits, run: Run, m: Move)
    requires m.Recount?
    ensures After(lim, run, m) == run.(remaining := SetRemaining(run.remaining, [m.rejoin], m.count))
  {
    hide SetRemaining;
  }

  /** Ids are never reused: a job that left the queue never comes back. */
  lemma {:induction false} GoneForGood(lim: Limits, runs: seq<Run>, moves: seq<Move>, id: nat, i: nat, j: nat)
    requires IsFine(lim, runs, moves) && i <= j < |runs| && Gone(runs[i], id)
    ensures Gone(runs[j], id)
  {
    hide After, Gone, IdsOk;
    if i < j {
      GoneForGood(lim, runs, moves, id, i, j - 1);
      IdsKept(lim, runs, moves, j - 1);
      assert Honest(runs, moves, j - 1);
      MoveKeepsGone(lim, runs[j - 1], moves[j - 1], id);
    }
  }

  /**
   Of all successes, fan-out transactions and parks submitted for one queued job, by whomever and however
   often, at most one takes effect: after it every other one leaves the run exactly as it was.
   */
  lemma EffectOnce(lim: Limits, runs: seq<Run>, moves: seq<Move>, i: nat, j: nat)
    requires IsFine(lim, runs, moves) && i < j < |moves|
    requires AckedBy(moves[i]).Some? && AckedBy(moves[j]).Some?
    requires AckedBy(moves[i]).value.id == AckedBy(moves[j]).value.id
    requires runs[i + 1] != runs[i]
    ensures runs[j + 1] == runs[j]
  {
    hide After, IdsOk, Gone;
    IdsKept(lim, runs, moves, i);
    IdsKept(lim, runs, moves, j);
    assert Honest(runs, moves, i) && Honest(runs, moves, j);
    AckedMove(lim, runs[i], moves[i]);
    AckedMove(lim, runs[j], moves[j]);
    var id := AckedBy(moves[i]).value.id;
    GoneForGood(lim, runs, moves, id, i + 1, j);
    GoneIsInvalid(runs[j], AckedBy(moves[j]).value);
  }

  lemma GoneIsInvalid(run: Run, claim: Claim)
    requires Gone(run, claim.id)
    ensures !ClaimValid(run, claim)
  {
  }

  // ----- one failed attempt

  /** A run is failed only with a dead-lettered job. */
  ghost predicate FailedRightly(run: Run) {
    run.status == Failed ==> exists k :: k in run.rows && run.rows[k].place == Dead
  }

  /** One failed attempt against the stored results: kept exactly if the node had not completed, or with this very result. */
  lemma FaultOnResults(lim: Limits, run: Run, claim: Claim, job: NodeJob, input: Input, attempts: nat, cause: Cause)
    requires ResultsOk(run.history, run.results)
    ensures var after := Faulted(lim, run, claim, job, input, attempts, cause);
            ResultsOk(after.history, after.results) <==>
            job.nodeId !in DoneSet(run.history) || run.results[job.nodeId] == FailureResult(cause)
  {
    FaultMovesNothing(lim, run, claim, job, input, attempts, cause);
    hide Faulted, FailureResult;
    var n := job.nodeId;
    if n !in DoneSet(run.history) {
      FailureKeepsResults(run.history, run.results, n, FailureResult(cause));
    } else {
      var i :| 0 <= i < |run.history| && run.history[i].node == n;
      if run.results[n] == FailureResult(cause) {
        assert run.results[n := FailureResult(cause)] == run.results;
      }
    }
  }

  /** One failed attempt against the run's status: rightly failed exactly if it retries, holds its claim, or something is dead. */
  lemma FaultOnStatus(lim: Limits, run: Run, claim: Claim, job: NodeJob, input: Input, attempts: nat, cause: Cause)
    requires FailedRightly(run)
    ensures var after := Faulted(lim, run, claim, job, input, attempts, cause);
            FailedRightly(after) <==>
            !Terminal(lim, cause, attempts) || ClaimValid(run, claim) || exists k :: k in run.rows && run.rows[k].place == Dead
  {
    FaultMovesNothing(lim, run, claim, job, input, attempts, cause);
    if ClaimValid(run, claim) && Terminal(lim, cause, attempts) {
      DeadNow(lim, run, claim, job, input, attempts, cause);
    }
    hide FailureResult;
    if exists k :: k in run.rows && run.rows[k].place == Dead {
      var k :| k in run.rows && run.rows[k].place == Dead;
      assert Faulted(lim, run, claim, job, input, attempts, cause).rows[k].place == Dead;
    }
  }

  lemma DeadNow(lim: Limits, run: Run, claim: Claim, job: NodeJob, input: Input, attempts: nat, cause: Cause)
    requires ClaimValid(run, claim) && Terminal(lim, cause, attempts)
    ensures var after := Faulted(lim, run, claim, job, input, attempts, cause);
            claim.id in after.rows && after.rows[claim.id].place == Dead
  {
    hide FailureResult;
  }
}
