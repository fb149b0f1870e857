/** What each kind of job records when it is handled, and what becomes of a completion that cannot commit. */
module Completions {
  import opened Values
  import opened Jobs
  import opened Runs
  import opened Plans
  import opened Invariant
  import opened Handlers
  import opened Preservation
  import opened Steps
  import opened Outcomes
  import opened ForeachRuns
  import opened Unfolding
  import opened Attempts
  import Checks
  import Redelivery

  /** `c` is what completing the job with this outcome records: kind by kind, the result that is stored and the branch taken. */
  predicate RecordsFor(results: map<NodeId, Json>, job: NodeJob, out: Outcome, c: Completion) {
    && c.node == job.nodeId && c.name == job.def.nodeName && c.skipped == job.skip && c.how == ByCommit
    && if job.skip then
         c.routed.None? && c.input == job.input && c.result == JObj(map["skipped" := JBool(true)])
       else
         match job.def.nodeType
         case Wait =>
           && out.WaitFor? && out.buffered.Some? && out.signal != "" && c.routed.None? && c.input == job.input
           && c.result == JObj(map["source" := JStr("signal"), "payload" := out.buffered.value])
         case Switch =>
           && out.Output? && out.value.JStr? && out.value.s != "" && c.routed == Some(out.value.s) && c.input == job.input
           && c.result == JObj(map["branch" := out.value])
         case Foreach =>
           && out.Output? && out.value.JArr? && c.routed.None? && c.input == job.input
           && c.result == JObj(map["items" := out.value])
         case Plain(_) => out.Output? && c.routed.None? && c.input == EffectiveInput(results, job) && c.result == out.value
         case _ => out.Output? && c.routed.None? && c.input == job.input && c.result == out.value
  }

  /** A wait that finds no signal parks. */
  predicate Parks(job: NodeJob, out: Outcome) {
    !job.skip && out.WaitFor? && (out.buffered.None? || out.signal == "")
  }

  /** A job that is not skipped completes, fails or parks: one of the three. */
  lemma OneOfThree(results: map<NodeId, Json>, job: NodeJob, out: Outcome)
    requires Fits(job, out)
    ensures (exists c :: RecordsFor(results, job, out, c)) <==> job.skip || (Failure(job, out).None? && !Parks(job, out))
    ensures Failure(job, out).None? || !Parks(job, out)
  {
    if job.skip || (Failure(job, out).None? && !Parks(job, out)) {
      var result :=
        if job.skip then JObj(map["skipped" := JBool(true)])
        else if out.WaitFor? then JObj(map["source" := JStr("signal"), "payload" := out.buffered.value])
        else if job.def.nodeType.Switch? then JObj(map["branch" := out.value])
        else if job.def.nodeType.Foreach? then JObj(map["items" := out.value])
        else out.value;
      var routed := if !job.skip && job.def.nodeType.Switch? then Some(out.value.s) else None;
      var input := if !job.skip && job.def.nodeType.Plain? then EffectiveInput(results, job) else job.input;
      assert RecordsFor(results, job, out, Completion(job.nodeId, job.def.nodeName, job.skip, routed, input, result, ByCommit));
    }
  }

  /** A claimed scheduler commits whatever it completes with: it has no dependents to count down. */
  lemma SchedulerCommits(p0: Plan, p: Plan, run: Run, claim: Claim)
    requires Tracks(p0, p, run) && ClaimValid(run, claim) && run.queue[claim.id].def.nodeType.Foreach?
    ensures run.queue[claim.id].loop.Some? && run.queue[claim.id].dependents == [] && IdsOk(run)
  {
    hide RunInv, Unfolds, WfPlan, HistoryOk, JobFor;
    var b := TrackedScheduler(p0, p, run, claim);
    SchedulerParts(p, run, claim.id);
    JobShape(p, run.history, run.queue[claim.id].nodeId);
    Books(p, run);
    hide IdsOk;
    ShapeDependents(p, run.queue[claim.id].nodeId, b);
  }

  lemma ShapeDependents(p: Plan, f: NodeId, b: NodeId)
    requires ForeachShape(p, f, b)
    ensures f in p.jobs && p.jobs[f].dependents == []
  {
  }

  /** An atom without dependents, with a valid claim, commits. */
  lemma CommitsFreely(run: Run, atom: NodeAtom)
    requires IdsOk(run) && atom.dependents == [] && atom.ack.Some? && ClaimValid(run, atom.ack.value)
    ensures CommitAtom(run, atom).Some?
    ensures var after := CommitAtom(run, atom).value;
            after.history == run.history + atom.log && after.results == run.results[atom.nodeId := atom.result]
  {
    hide ReadyJobs, Enqueue, IdsOk;
    CommitFailsExactly(run, atom);
    Redelivery.AtomCommits(run, atom);
  }

  // ----- when a commit fails

  lemma {:induction false} DecrementFails(remaining: map<NodeId, int>, dependents: seq<NodeId>)
    ensures Decrement(remaining, dependents).None? <==> exists d :: d in dependents && d !in remaining
    ensures Decrement(remaining, dependents).Some? ==> Decrement(remaining, dependents).value.0.Keys == remaining.Keys
  {
    if dependents != [] {
      var rest, last := dependents[..|dependents| - 1], dependents[|dependents| - 1];
      assert dependents == rest + [last];
      DecrementFails(remaining, rest);
    }
  }

  /** A transaction fails exactly if a dependent has no counter or the claim it acks is no longer valid. */
  lemma CommitFailsExactly(run: Run, atom: NodeAtom)
    requires IdsOk(run)
    ensures CommitAtom(run, atom).None? <==>
            (exists d :: d in atom.dependents && d !in run.remaining) || (atom.ack.Some? && !ClaimValid(run, atom.ack.value))
  {
    hide Decrement, ReadyJobs, Enqueue, IdsOk, ClaimValid;
    DecrementFails(run.remaining, atom.dependents);
    match Decrement(run.remaining, atom.dependents)
    case None =>
    case Some((m, ready)) =>
      var counted := run.(results := run.results[atom.nodeId := atom.result], history := run.history + atom.log, remaining := m);
      var jobs := ReadyJobs(atom.dependents, ready, atom.downstream);
      if atom.ack.Some? {
        Redelivery.EnqueuedUnowned(counted, jobs, atom.ack.value);
        Redelivery.UnownedElsewhere(run, counted, atom.ack.value);
        if ClaimValid(run, atom.ack.value) {
          ValidBelow(run, atom.ack.value);
          EnqueueLeaves(counted, jobs, atom.ack.value.id);
          KeptValid(counted, Enqueue(counted, jobs), atom.ack.value);
        }
      }
  }

  lemma ValidBelow(run: Run, claim: Claim)
    requires IdsOk(run) && ClaimValid(run, claim)
    ensures HasJob(run, claim.id) && claim.id < run.nextId
  {
  }

  lemma KeptValid(run: Run, after: Run, claim: Claim)
    requires Kept(run, after, claim.id) && ClaimValid(run, claim)
    ensures ClaimValid(after, claim)
  {
  }

  // ----- what is recorded

  /** A commit stores the completion's result and records the completion. */
  lemma FinishRecords(run: Run, claim: Claim, c: Completion)
    requires IdsOk(run) && HasJob(run, claim.id) && c.node == run.queue[claim.id].nodeId
    requires CommitAtom(run, AtomOf(run.queue[claim.id], claim, c, None)).Some?
    ensures var after := Finish(run, claim, c); after.history == run.history + [c] && after.results == run.results[c.node := c.result]
  {
    hide CommitAtom, NextJobs, IdsOk;
    Redelivery.AtomCommits(run, AtomOf(run.queue[claim.id], claim, c, None));
  }

  lemma OrdinaryCommits(lim: Limits, p: Plan, run: Run, claim: Claim, out: Outcome, c: Completion)
    requires RunInv(p, run) && Open(run) && ClaimValid(run, claim) && Fits(run.queue[claim.id], out)
    requires !run.queue[claim.id].def.nodeType.Foreach? && CompletionOf(run, run.queue[claim.id], out) == Some(c)
    ensures var after := Handle(lim, run, claim, out);
            after.history == run.history + [c] && after.results == run.results[c.node := c.result]
  {
    hide RunInv, Finish, FinishOrFail, Handle, CompletionOf, MayFinish, CommitAtom, NextJobs;
    CompletionFits(run, claim, out);
    HandleIs(lim, run, claim, out);
    FinishedKeeps(lim, p, run, claim, c);
    Books(p, run);
    SameNode(run, claim, c);
    ShownCommit(run, claim, c);
    FinishRecords(run, claim, c);
  }

  lemma SameNode(run: Run, claim: Claim, c: Completion)
    requires MayFinish(run, claim, c)
    ensures HasJob(run, claim.id) && c.node == run.queue[claim.id].nodeId
  {
  }

  lemma ShownCommit(run: Run, claim: Claim, c: Completion)
    requires HasJob(run, claim.id) && Finish(run, claim, c).history == run.history + [c]
    ensures CommitAtom(run, AtomOf(run.queue[claim.id], claim, c, None)).Some?
  {
    hide CommitAtom, AtomOf;
    assert |run.history + [c]| != |run.history|;
  }

  /** The kinds' records are those of the step. */
  lemma RecordsAre(run: Run, job: NodeJob, out: Outcome, c: Completion)
    requires RecordsFor(run.results, job, out, c) && Fits(job, out) && (job.def.nodeType.Foreach? ==> job.skip)
    ensures CompletionOf(run, job, out) == Some(c)
  {
    hide EffectiveInput;
    NotCollecting(run.results, job);
  }

  lemma NotCollecting(results: map<NodeId, Json>, job: NodeJob)
    ensures !job.def.nodeType.Plain? ==> EffectiveInput(results, job) == job.input
  {
  }

  lemma SkippedSchedulerCommits(lim: Limits, p0: Plan, p: Plan, run: Run, claim: Claim, out: Outcome, c: Completion)
    requires Tracks(p0, p, run) && Open(run) && ClaimValid(run, claim) && Fits(run.queue[claim.id], out)
    requires run.queue[claim.id].def.nodeType.Foreach? && run.queue[claim.id].skip && RecordsFor(run.results, run.queue[claim.id], out, c)
    ensures var after := Handle(lim, run, claim, out);
            after.history == run.history + [c] && after.results == run.results[c.node := c.result]
  {
    hide Tracks, CommitAtom, NextJobs, Finish, FinishOrFail, RecordFailure, FanForeach, Park, IdsOk;
    SchedulerCommits(p0, p, run, claim);
    var job := run.queue[claim.id];
    assert c == Completing(job, None, job.input, SKIPPED);
    CommitsFreely(run, AtomOf(job, claim, c, None));
    FinishRecords(run, claim, c);
  }

  lemma FanCommits(lim: Limits, p0: Plan, p: Plan, run: Run, claim: Claim, items: seq<Json>)
    requires Tracks(p0, p, run) && ClaimValid(run, claim) && run.queue[claim.id].def.nodeType.Foreach?
    ensures var job := run.queue[claim.id]; var c := Completing(job, None, job.input, ItemsResult(items));
            var after := FanForeach(lim, run, claim, items);
            after.history == run.history + [c] && after.results == run.results[c.node := c.result]
  {
    hide Tracks, CommitAtom, BodyJobs, SetRemaining, ItemsResult, IdsOk, RecordFailure;
    SchedulerCommits(p0, p, run, claim);
    var job := run.queue[claim.id];
    var counted := run.(remaining := SetRemaining(run.remaining, job.loop.value.rejoins, |items|));
    Redelivery.SameIdsOk(run, counted);
    CommitsFreely(counted, ScatterAtom(claim, Completing(job, None, job.input, ItemsResult(items)), BodyJobs(job, job.loop.value, items)));
  }

  /**
   Every kind of job, claimed in an open run that keeps its invariant: with an outcome that completes it, exactly its
   completion is recorded and its result stored.
   */
  lemma CompletesExactly(lim: Limits, p0: Plan, p: Plan, run: Run, claim: Claim, out: Outcome, c: Completion)
    requires Tracks(p0, p, run) && Open(run) && ClaimValid(run, claim) && Fits(run.queue[claim.id], out)
    requires RecordsFor(run.results, run.queue[claim.id], out, c)
    ensures var after := Handle(lim, run, claim, out);
            after.history == run.history + [c] && after.results == run.results[c.node := c.result]
  {
    var job := run.queue[claim.id];
    if !job.def.nodeType.Foreach? {
      RecordsAre(run, job, out, c);
      hide RecordsFor, Handle, CompletionOf, RunInv, Unfolds;
      OrdinaryCommits(lim, p, run, claim, out, c);
    } else if job.skip {
      hide Handle, Tracks;
      SkippedSchedulerCommits(lim, p0, p, run, claim, out, c);
    } else {
      hide Tracks, FanForeach;
      FanCommits(lim, p0, p, run, claim, out.value.items);
      assert c == Completing(job, None, job.input, ItemsResult(out.value.items));
    }
  }

  /**
   When such a completion cannot commit, an ordinary node, a switch and a skip leave the run as it was, to be claimed
   again; a control node's attempt is recorded as failed.
   */
  lemma UncommittedExactly(lim: Limits, run: Run, claim: Claim, out: Outcome, c: Completion)
    requires IdsOk(run) && Open(run) && HasJob(run, claim.id) && Fits(run.queue[claim.id], out)
    requires !run.queue[claim.id].def.nodeType.Foreach? && RecordsFor(run.results, run.queue[claim.id], out, c)
    requires !ClaimValid(run, claim) || exists d :: d in run.queue[claim.id].dependents && d !in run.remaining
    ensures var job := run.queue[claim.id]; var after := Handle(lim, run, claim, out);
            if job.skip || job.def.nodeType.Plain? || job.def.nodeType.Switch? then after == run
            else after.history == run.history && job.nodeId in after.results && Tells(after.results[job.nodeId], OtherCause)
  {
    var job := run.queue[claim.id];
    RecordsAre(run, job, out, c);
    hide RecordsFor, EffectiveInput, CommitAtom, NextJobs, FailureResult, Tells, IdsOk, ClaimValid, Park;
    CommitFailsExactly(run, AtomOf(job, claim, c, None));
    NotCollecting(run.results, job);
    FailureTells(OtherCause);
    RecordedRow(lim, run, claim);
    hide RecordFailure;
  }

  lemma RecordedRow(lim: Limits, run: Run, claim: Claim)
    requires HasJob(run, claim.id)
    ensures var after := RecordFailure(lim, run, claim, OtherCause);
            after.history == run.history && after.results == run.results[run.queue[claim.id].nodeId := FailureResult(OtherCause)]
  {
    hide FailureResult, EffectiveInput;
  }
}
