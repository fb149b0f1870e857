/**
 Failing and giving up: what one failed attempt does to a run, and after how many of them, over every history, a
 job is dead-lettered and its run failed.
 */
module Attempts {
  import opened Values
  import opened Jobs
  import opened Runs
  import opened Invariant
  import opened Handlers
  import opened Steps
  import opened Restarts

  predicate Open(run: Run) {
    run.status == Running || run.status == Waiting
  }

  /** The step works on the job under `id`. */
  predicate Tries(a: Action, id: nat) {
    a.Work? && a.claim.id == id
  }

  /** How often the job under `id` was claimed. */
  function Tried(acts: seq<Action>, id: nat): nat {
    if acts == [] then 0
    else Tried(acts[..|acts| - 1], id) + (if Tries(acts[|acts| - 1], id) then 1 else 0)
  }

  /** How a job fails for a cause: its work broke, a switch chose no branch, or a foreach got no list. */
  function Failure(job: NodeJob, out: Outcome): Option<Cause> {
    match out
    case Broke(cause) => Some(cause)
    case WaitFor(_, _, _) => None
    case Output(value) =>
      if job.def.nodeType.Switch? && (!value.JStr? || value.s == "") then Some(OtherCause)
      else if job.def.nodeType.Foreach? && !value.JArr? then Some(OtherCause)
      else None
  }

  /** The result row of a failed attempt says that it failed, and names the cause unless it is an ordinary one. */
  predicate Tells(result: Json, cause: Cause) {
    && result.JObj? && "ok" in result.fields && result.fields["ok"] == JBool(false)
    && match cause
       case SecretMissing => "code" in result.fields && result.fields["code"] == JStr("missing_secret")
       case SourceUnreachable => "code" in result.fields && result.fields["code"] == JStr("secret_source_unreachable")
       case SecretStale => "code" in result.fields && result.fields["code"] == JStr("secret_auth_failed")
       case OtherCause => "code" !in result.fields
  }

  lemma FailureTells(cause: Cause)
    ensures Tells(FailureResult(cause), cause)
  {
    assert "ok" != "code";
  }

  // ----- one attempt

  /**
   One failed attempt, the `n`-th claim of its job: the failed result is stored, the claim is given back, and the
   attempt counted. The worker gives up exactly at the cause's last claim: then the job is dead-lettered, the run
   failed, and the job saved as it ran. The queue dead-letters the job at its own limit, silently. Nothing else changes.
   */
  lemma AttemptExactly(lim: Limits, run: Run, claim: Claim, out: Outcome, cause: Cause)
    requires Open(run) && Enabled(run, Work(claim, out))
    requires !run.queue[claim.id].skip && Failure(run.queue[claim.id], out) == Some(cause)
    ensures var after := Next(lim, run, Work(claim, out)); var job := run.queue[claim.id];
            var n := run.rows[claim.id].attempts + 1; var giveUp := n >= ClaimsFor(lim, cause);
            && job.nodeId in after.results && Tells(after.results[job.nodeId], cause)
            && after == run.(
                 results := run.results[job.nodeId := after.results[job.nodeId]],
                 rows := run.rows[claim.id := Row(if giveUp || n >= lim.queueMax then Dead else Live, n, None)],
                 status := if giveUp then Failed else run.status,
                 saved := if giveUp then Some(job.(input := EffectiveInput(run.results, job))) else run.saved)
  {
    hide FailureResult, EffectiveInput, Handle, RecordFailure, Tells, Failure;
    FailureTells(cause);
    var taken := Take(run, claim);
    FailureIs(lim, taken, claim, out, cause);
    RecordedExactly(lim, taken, claim, cause);
    var n := run.rows[claim.id].attempts + 1;
    var row := Row(if n >= ClaimsFor(lim, cause) || n >= lim.queueMax then Dead else Live, n, None);
    assert taken.rows[claim.id := row] == run.rows[claim.id := row];
  }

  lemma FailureIs(lim: Limits, run: Run, claim: Claim, out: Outcome, cause: Cause)
    requires Open(run) && HasJob(run, claim.id) && Fits(run.queue[claim.id], out)
    requires !run.queue[claim.id].skip && Failure(run.queue[claim.id], out) == Some(cause)
    ensures Handle(lim, run, claim, out) == RecordFailure(lim, run, claim, cause)
  {
    hide RecordFailure, EffectiveInput, Finish, FinishOrFail, FanForeach, Park, CheckComplete;
  }

  /** A failed attempt of a validly claimed job, as recorded. */
  lemma RecordedExactly(lim: Limits, run: Run, claim: Claim, cause: Cause)
    requires ClaimValid(run, claim) && run.rows[claim.id].attempts > 0
    ensures var after := RecordFailure(lim, run, claim, cause); var job := run.queue[claim.id];
            var n := run.rows[claim.id].attempts; var giveUp := n >= ClaimsFor(lim, cause);
            after == run.(
              results := run.results[job.nodeId := FailureResult(cause)],
              rows := run.rows[claim.id := Row(if giveUp || n >= lim.queueMax then Dead else Live, n, None)],
              status := if giveUp then Failed else run.status,
              saved := if giveUp then Some(job.(input := EffectiveInput(run.results, job))) else run.saved)
  {
    hide FailureResult, EffectiveInput;
  }

  // ----- other steps

  /** The job under `id` is in the queue as it was, and its row is the same. */
  ghost predicate Kept(run: Run, after: Run, id: nat) {
    && HasJob(run, id) && HasJob(after, id) && id < run.nextId <= after.nextId
    && after.queue[id] == run.queue[id] && after.rows[id] == run.rows[id]
  }

  lemma {:induction false} EnqueueLeaves(run: Run, jobs: seq<NodeJob>, id: nat)
    requires HasJob(run, id) && id < run.nextId
    ensures Kept(run, Enqueue(run, jobs), id)
  {
    if jobs != [] {
      EnqueueLeaves(run, jobs[..|jobs| - 1], id);
    }
  }

  lemma CommitLeaves(run: Run, atom: NodeAtom, id: nat)
    requires HasJob(run, id) && id < run.nextId && (atom.ack.Some? ==> atom.ack.value.id != id)
    ensures CommitAtom(run, atom).Some? ==> Kept(run, CommitAtom(run, atom).value, id)
  {
    hide Decrement, ReadyJobs, Enqueue;
    match Decrement(run.remaining, atom.dependents)
    case None =>
    case Some((m, ready)) =>
      var written := run.(results := run.results[atom.nodeId := atom.result], history := run.history + atom.log);
      EnqueueLeaves(written.(remaining := m), ReadyJobs(atom.dependents, ready, atom.downstream), id);
  }

  lemma FailureLeaves(lim: Limits, run: Run, claim: Claim, cause: Cause, id: nat)
    requires HasJob(run, claim.id) && HasJob(run, id) && id < run.nextId && claim.id != id
    ensures Kept(run, RecordFailure(lim, run, claim, cause), id)
  {
    hide FailureResult, EffectiveInput;
  }

  lemma FinishLeaves(lim: Limits, run: Run, claim: Claim, c: Completion, id: nat)
    requires HasJob(run, claim.id) && HasJob(run, id) && id < run.nextId && claim.id != id
    ensures Kept(run, Finish(run, claim, c), id) && Kept(run, FinishOrFail(lim, run, claim, c), id)
  {
    CommitLeaves(run, AtomOf(run.queue[claim.id], claim, c, None), id);
    FailureLeaves(lim, run, claim, OtherCause, id);
    hide CommitAtom, RecordFailure, NextJobs;
  }

  lemma FanLeaves(lim: Limits, run: Run, claim: Claim, items: seq<Json>, id: nat)
    requires HasJob(run, claim.id) && HasJob(run, id) && id < run.nextId && claim.id != id
    ensures Kept(run, FanForeach(lim, run, claim, items), id)
  {
    hide CommitAtom, RecordFailure, BodyJobs, SetRemaining, ItemsResult, ScatterAtom, Kept, CheckComplete;
    var job := run.queue[claim.id];
    if job.loop.Some? {
      var loop := job.loop.value;
      var counted := run.(remaining := SetRemaining(run.remaining, loop.rejoins, |items|));
      var atom := ScatterAtom(claim, Completing(job, None, job.input, ItemsResult(items)), BodyJobs(job, loop, items));
      ScatterAcks(claim, Completing(job, None, job.input, ItemsResult(items)), BodyJobs(job, loop, items));
      CommitLeaves(counted, atom, id);
      FailureLeaves(lim, counted, claim, OtherCause, id);
      CountedLeaves(run, loop.rejoins, |items|, id);
      KeptOn(run, counted, RecordFailure(lim, counted, claim, OtherCause), id);
      if CommitAtom(counted, atom).Some? {
        KeptOn(run, counted, CommitAtom(counted, atom).value, id);
        CheckLeaves(run, CommitAtom(counted, atom).value, id);
      }
    } else {
      Unmoved(run, id);
    }
  }

  lemma Unmoved(run: Run, id: nat)
    requires HasJob(run, id) && id < run.nextId
    ensures Kept(run, run, id)
  {
  }

  lemma KeptOn(run: Run, mid: Run, after: Run, id: nat)
    requires Kept(run, mid, id) && Kept(mid, after, id)
    ensures Kept(run, after, id)
  {
  }

  lemma CheckLeaves(run: Run, after: Run, id: nat)
    requires Kept(run, after, id)
    ensures Kept(run, CheckComplete(after), id)
  {
  }

  lemma CountedLeaves(run: Run, rejoins: seq<NodeId>, n: int, id: nat)
    requires HasJob(run, id) && id < run.nextId
    ensures Kept(run, run.(remaining := SetRemaining(run.remaining, rejoins, n)), id)
  {
    hide SetRemaining;
  }

  lemma ScatterAcks(claim: Claim, c: Completion, bodies: seq<NodeJob>)
    ensures ScatterAtom(claim, c, bodies).ack == Some(claim)
  {
  }

  lemma ParkLeaves(run: Run, claim: Claim, signal: string, runAt: int, id: nat)
    requires ClaimValid(run, claim) && HasJob(run, id) && id < run.nextId && claim.id != id
    ensures Kept(run, CheckComplete(Park(run, claim, signal, runAt)), id)
  {
  }

  lemma ResumeLeaves(run: Run, n: NodeId, source: string, payload: Json, id: nat)
    requires HasJob(run, id) && id < run.nextId
    ensures Kept(run, Resume(run, n, source, payload), id)
  {
    if run.status == Waiting && n in run.parked {
      hide Decrement, ReadyJobs, Enqueue, NextJobs, WakeResult;
      var cont := run.parked[n];
      var c := Waking(cont, source, payload);
      match Decrement(run.remaining, cont.dependents)
      case None =>
      case Some((m, ready)) =>
        var written := run.(results := run.results[cont.nodeId := c.result], history := run.history + [c]);
        EnqueueLeaves(written.(remaining := m), ReadyJobs(cont.dependents, ready, NextJobs(c, cont.downstream)), id);
    }
  }

  /** Handling one job leaves every other one, and its row, as it was. */
  lemma HandleLeaves(lim: Limits, run: Run, claim: Claim, out: Outcome, id: nat)
    requires HasJob(run, claim.id) && Fits(run.queue[claim.id], out)
    requires HasJob(run, id) && id < run.nextId && claim.id != id
    ensures Kept(run, Handle(lim, run, claim, out), id)
  {
    hide Finish, FinishOrFail, FanForeach, Park, RecordFailure, CheckComplete, EffectiveInput, Kept;
    var job := run.queue[claim.id];
    FailureLeaves(lim, run, claim, OtherCause, id);
    if !Open(run) {
      ShelveLeaves(run, claim, id);
    } else if job.skip {
      FinishLeaves(lim, run, claim, Completing(job, None, job.input, SKIPPED), id);
    } else {
      match out
      case Broke(cause) => FailureLeaves(lim, run, claim, cause, id);
      case WaitFor(signal, runAt, buffered) =>
        if buffered.Some? && signal != "" {
          FinishLeaves(lim, run, claim, Completing(job, None, job.input, WakeResult("signal", buffered.value)), id);
        } else if ClaimValid(run, claim) {
          ParkLeaves(run, claim, signal, runAt, id);
        }
      case Output(value) =>
        if value.JStr? {
          FinishLeaves(lim, run, claim, Completing(job, Some(value.s), job.input, BranchResult(value.s)), id);
        }
        if value.JArr? {
          FanLeaves(lim, run, claim, value.items, id);
        }
        FinishLeaves(lim, run, claim, Completing(job, None, job.input, value), id);
        FinishLeaves(lim, run, claim, Completing(job, None, EffectiveInput(run.results, job), value), id);
    }
  }

  lemma ShelveLeaves(run: Run, claim: Claim, id: nat)
    requires HasJob(run, id) && id < run.nextId && claim.id != id
    ensures Kept(run, Shelve(run, claim, Dropped), id)
  {
  }

  /** So does every step but a cancel; and a cancel leaves what is dead or dropped. */
  lemma StepLeaves(lim: Limits, run: Run, a: Action, id: nat)
    requires Enabled(run, a) && HasJob(run, id) && id < run.nextId && !Tries(a, id)
    requires a.Stop? ==> run.rows[id].place != Live
    ensures Kept(run, Next(lim, run, a), id)
  {
    match a
    case Work(claim, out) =>
      TakeLeaves(run, claim, id);
      HandleLeaves(lim, Take(run, claim), claim, out, id);
      hide Handle;
    case Tick(claim) =>
      ResumeLeaves(TakeTimer(run, claim), run.timers[claim.id].node, "timer", JNull, id);
      hide Resume;
    case Wake(n, payload) => ResumeLeaves(run, n, "signal", payload, id);
    case Stop =>
  }

  lemma TakeLeaves(run: Run, claim: Claim, id: nat)
    requires HasJob(run, claim.id) && HasJob(run, id) && id < run.nextId && claim.id != id
    ensures Kept(run, Take(run, claim), id)
  {
  }

  // ----- every history

  /** A job nobody has claimed yet, in an open run. */
  predicate FreshJob(run: Run, id: nat) {
    Open(run) && HasJob(run, id) && id < run.nextId && run.rows[id] == FRESH_ROW && !run.queue[id].skip
  }

  /** Every attempt on the job before step `i` fails. */
  predicate AllFail(job: NodeJob, acts: seq<Action>, id: nat, i: nat) {
    forall k :: 0 <= k < i && k < |acts| && Tries(acts[k], id) ==> Failure(job, acts[k].out).Some?
  }

  lemma TriedNext(acts: seq<Action>, id: nat, i: nat)
    requires i < |acts|
    ensures Tried(acts[..i + 1], id) == Tried(acts[..i], id) + (if Tries(acts[i], id) then 1 else 0)
  {
    assert acts[..i + 1][..i] == acts[..i];
  }

  /** A step of a run that stays open is no cancel. */
  lemma StaysOpen(lim: Limits, run: Run, a: Action)
    requires Enabled(run, a) && Open(Next(lim, run, a))
    ensures !a.Stop?
  {
  }

  /**
   For as long as the run stays open, a job whose attempts all failed, for whatever causes, has been claimed that often,
   none of these claims was the last one its cause allows, and it is claimable until the queue's own limit is reached.
   */
  lemma {:induction false} JobTried(lim: Limits, runs: seq<Run>, acts: seq<Action>, id: nat, i: nat)
    requires IsHistory(lim, runs, acts) && i <= |acts| && FreshJob(runs[0], id) && AllFail(runs[0].queue[id], acts, id, i)
    requires forall k :: 0 <= k <= i ==> Open(runs[k])
    ensures HasJob(runs[i], id) && id < runs[i].nextId && runs[i].queue[id] == runs[0].queue[id]
    ensures var n := Tried(acts[..i], id); runs[i].rows[id] == Row(if 0 < n && lim.queueMax <= n then Dead else Live, n, None)
    ensures forall k :: 0 <= k < i && Tries(acts[k], id) ==>
              Tried(acts[..k + 1], id) < ClaimsFor(lim, Failure(runs[0].queue[id], acts[k].out).value)
  {
    hide Next, Enabled, Failure, ClaimsFor, Tried;
    if i > 0 {
      var a := acts[i - 1];
      JobTried(lim, runs, acts, id, i - 1);
      assert Enabled(runs[i - 1], a) && runs[i] == Next(lim, runs[i - 1], a);
      TriedNext(acts, id, i - 1);
      if Tries(a, id) {
        LiveToTry(runs[i - 1], a);
        AttemptExactly(lim, runs[i - 1], a.claim, a.out, Failure(runs[0].queue[id], a.out).value);
      } else {
        StaysOpen(lim, runs[i - 1], a);
        StepLeaves(lim, runs[i - 1], a, id);
      }
    } else {
      NeverTried(acts, id);
    }
  }

  lemma NeverTried(acts: seq<Action>, id: nat)
    ensures Tried(acts[..0], id) == 0
  {
  }

  lemma LiveToTry(run: Run, a: Action)
    requires a.Work? && Enabled(run, a)
    ensures HasJob(run, a.claim.id) && run.rows[a.claim.id].place == Live
  {
  }

  /** Every attempt on the job before step `i` fails for this cause. */
  predicate AllFailFor(job: NodeJob, cause: Cause, acts: seq<Action>, id: nat, i: nat) {
    forall k :: 0 <= k < i && k < |acts| && Tries(acts[k], id) ==> Failure(job, acts[k].out) == Some(cause)
  }

  /** No other job's step and no cancel closes the run while it is open. */
  predicate OthersLeaveOpen(runs: seq<Run>, acts: seq<Action>, id: nat, i: nat) {
    forall k :: 0 <= k < i && k < |acts| && k + 1 < |runs| && !Tries(acts[k], id) && Open(runs[k]) ==> Open(runs[k + 1])
  }

  /** What became of a job after `n` claims that failed for one cause. */
  ghost predicate GivenUpAt(lim: Limits, run: Run, cause: Cause, id: nat, n: nat, stopped: bool) {
    && n <= ClaimsFor(lim, cause) && HasJob(run, id) && id < run.nextId
    && (n < ClaimsFor(lim, cause) ==> Open(run) && run.rows[id] == Row(Live, n, None))
    && (n == ClaimsFor(lim, cause) ==> run.rows[id] == Row(Dead, n, None) && (run.status == Failed || (stopped && run.status == Cancelled)))
  }

  predicate Stopped(acts: seq<Action>, i: nat) {
    exists j :: 0 <= j < i && j < |acts| && acts[j].Stop?
  }

  /**
   A job that fails for one cause each time, in a run that nothing else closes: before the last claim that the cause
   allows the job is claimable and the run open; from that claim on the job is dead-lettered and the run failed.
   */
  lemma {:induction false} GivesUpAtLast(lim: Limits, runs: seq<Run>, acts: seq<Action>, id: nat, cause: Cause, i: nat)
    requires Bounded(lim) && IsHistory(lim, runs, acts) && i <= |acts| && FreshJob(runs[0], id)
    requires AllFailFor(runs[0].queue[id], cause, acts, id, i) && OthersLeaveOpen(runs, acts, id, i)
    ensures GivenUpAt(lim, runs[i], cause, id, Tried(acts[..i], id), Stopped(acts, i))
    ensures HasJob(runs[i], id) && runs[i].queue[id] == runs[0].queue[id]
  {
    hide Next, Enabled, Failure, ClaimsFor, Tried, Bounded;
    if i > 0 {
      var a, n := acts[i - 1], Tried(acts[..i - 1], id);
      GivesUpAtLast(lim, runs, acts, id, cause, i - 1);
      assert Enabled(runs[i - 1], a) && runs[i] == Next(lim, runs[i - 1], a);
      TriedNext(acts, id, i - 1);
      if Tries(a, id) {
        LiveToTry(runs[i - 1], a);
        AttemptExactly(lim, runs[i - 1], a.claim, a.out, cause);
        NotTheQueue(lim, cause, n + 1);
      } else {
        if n < ClaimsFor(lim, cause) {
          StaysOpen(lim, runs[i - 1], a);
        } else {
          ClosedStays(lim, runs[i - 1], a);
        }
        StepLeaves(lim, runs[i - 1], a, id);
      }
    } else {
      NeverTried(acts, id);
      NotTheQueue(lim, cause, 1);
    }
  }

  lemma NotTheQueue(lim: Limits, cause: Cause, n: nat)
    requires Bounded(lim) && n > 0
    ensures n < ClaimsFor(lim, cause) ==> n < lim.queueMax
    ensures ClaimsFor(lim, cause) > 0
  {
  }
}
