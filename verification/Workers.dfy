/**
 The worker as an object over the store: each handler runs step by step and is proved to do to the store
 exactly what its specification function says.
 */
module Workers {
  import opened Values
  import opened Jobs
  import opened Runs
  import opened Handlers
  import opened Databases
  import opened Stores
  import opened Dedupe
  import opened Invariant
  import opened Steps
  import Attempts
  import Deliveries
  import ForeachRuns
  import Signals

  lemma SameRun(runs: map<string, Run>, r: string)
    requires r in runs
    ensures runs[r := runs[r]] == runs
  {
  }

  // ----- what the transactions of the handlers amount to

  /** A commit lengthens the history, so it shows. */
  lemma CommitShows(run: Run, atom: NodeAtom)
    ensures CommitAtom(run, atom).Some? ==> CommitAtom(run, atom).value.history == run.history + atom.log
  {
    hide Decrement, ReadyJobs, Enqueue;
    match Decrement(run.remaining, atom.dependents)
    case None =>
    case Some((m, ready)) =>
      var written := run.(results := run.results[atom.nodeId := atom.result], history := run.history + atom.log);
      EnqueueSpec(written.(remaining := m), ReadyJobs(atom.dependents, ready, atom.downstream));
  }

  /** The atom of a failed attempt writes its result row and nothing else. */
  function FailedAtom(n: NodeId, result: Json, record: Option<DedupeRecord>): NodeAtom {
    NodeAtom(n, result, record, [], [], None, [])
  }

  lemma FailedAtomIs(run: Run, n: NodeId, result: Json, record: Option<DedupeRecord>)
    ensures CommitAtom(run, FailedAtom(n, result, record)) == Some(run.(results := run.results[n := result]))
  {
    assert run.history + [] == run.history;
  }

  /** A success atom changes a run the same way whatever dedupe record it carries. */
  lemma AtomRecord(run: Run, job: NodeJob, claim: Claim, c: Completion, record: Option<DedupeRecord>)
    ensures CommitAtom(run, AtomOf(job, claim, c, record)) == CommitAtom(run, AtomOf(job, claim, c, None))
  {
    hide Runs.FanOut;
  }

  /** Parking's own steps, the timer job aside. */
  function Shelved(run: Run, claim: Claim, cont: Continuation): Run {
    Remove(run.(parked := run.parked[cont.nodeId := cont], status := Waiting, pending := run.pending - 1), claim.id)
  }

  function ContinuationFor(job: NodeJob, signal: string, runAt: int): Continuation {
    Continuation(job.nodeId, job.def.nodeName, job.input, job.dependents, job.downstream, signal, runAt)
  }

  lemma ShelvedIsPark(run: Run, claim: Claim, signal: string, runAt: int)
    requires ClaimValid(run, claim)
    ensures var job := run.queue[claim.id]; var after := Shelved(run, claim, ContinuationFor(job, signal, runAt));
            Park(run, claim, signal, runAt) ==
            if runAt != 0
            then after.(timers := after.timers[after.nextId := Timer(job.nodeId, None)], nextId := after.nextId + 1)
            else after
  {
  }

  // ----- prefixes of the loops of a foreach

  lemma SetRemainingNext(remaining: map<NodeId, int>, ids: seq<NodeId>, n: int, i: nat)
    requires i < |ids|
    ensures var before := SetRemaining(remaining, ids[..i], n);
            SetRemaining(remaining, ids[..i + 1], n) == if ids[i] in before then before[ids[i] := n] else before
  {
    assert ids[..i + 1][..i] == ids[..i];
  }

  lemma NothingMarked(remaining: map<NodeId, int>, ds: seq<NodeJob>, loop: Loop, n: nat)
    ensures SetRemaining(remaining, loop.rejoins[..0], n) == remaining && MarkRejoins(ds, loop.rejoins[..0], loop, n) == ds
  {
  }

  lemma MarkNext(ds: seq<NodeJob>, rejoins: seq<NodeId>, loop: Loop, count: nat, i: nat)
    requires i < |rejoins|
    ensures var before := MarkRejoins(ds, rejoins[..i], loop, count);
            MarkRejoins(ds, rejoins[..i + 1], loop, count) ==
            match FindJob(before, rejoins[i])
            case None => before
            case Some(k) => before[k := Marked(before[k], loop, count)]
  {
    assert rejoins[..i + 1][..i] == rejoins[..i];
  }

  lemma RejoinNext(ds: seq<NodeJob>, rejoins: seq<NodeId>, i: nat)
    requires i < |rejoins|
    ensures RejoinJobs(ds, rejoins[..i + 1]) ==
            match FindJob(ds, rejoins[i])
            case None => RejoinJobs(ds, rejoins[..i])
            case Some(k) => RejoinJobs(ds, rejoins[..i]) + [ds[k]]
  {
    assert rejoins[..i + 1][..i] == rejoins[..i];
  }

  /** The end of a resume that enqueued `count` jobs. */
  function Unparked(run: Run, n: NodeId, count: nat): Run {
    run.(pending := run.pending + count,
         parked := run.parked - {n},
         status := if run.parked - {n} == map[] then Running else run.status)
  }

  class Worker {
    const store: Store
    const lim: Limits

    constructor (store: Store, lim: Limits)
      ensures this.store == store && this.lim == lim
    {
      this.store, this.lim := store, lim;
    }

    // ----- finishing

    /** Mark the run completed once nothing is pending, unless it is parked. */
    method CheckRunComplete(r: string)
      requires r in store.runs
      modifies store`runs
      ensures store.runs == old(store.runs)[r := CheckComplete(old(store.runs[r]))]
    {
      var run := store.runs[r];
      SameRun(store.runs, r);
      if run.pending == 0 {
        if run.status == Waiting {
          return;
        }
        store.SetRunStatus(r, Completed);
        store.runs := store.runs[r := store.runs[r].(fired := run.fired + 1)];
      }
    }

    /** Thread a completion into each successor's job; a successor off the chosen branch becomes a skip-job. */
    method Thread(c: Completion, downstream: seq<NodeJob>) returns (jobs: seq<NodeJob>)
      ensures jobs == NextJobs(c, downstream)
    {
      jobs := [];
      var i := 0;
      while i < |downstream|
        invariant 0 <= i <= |downstream| && |jobs| == i
        invariant forall j :: 0 <= j < i ==> jobs[j] == NextJob(c, downstream[j])
      {
        var d := downstream[i];
        d := d.(input := ThreadInput(c.input, c.name, c.result));
        if c.skipped || (c.routed.Some? && d.nodeId != c.routed.value) {
          d := d.(skip := true);
        }
        jobs := jobs + [d];
        i := i + 1;
      }
    }

    /** Commit a node's success atom and, if it went through, check for completion. */
    method Complete(r: string, claim: Claim, c: Completion, record: Option<DedupeRecord>) returns (ok: bool)
      requires r in store.runs && HasJob(store.runs[r], claim.id)
      modifies store`runs, store`dedupe
      ensures var run := old(store.runs[r]); var atom := AtomOf(run.queue[claim.id], claim, c, None);
              && (ok <==> CommitAtom(run, atom).Some?)
              && store.runs == (if ok then old(store.runs)[r := CheckComplete(CommitAtom(run, atom).value)] else old(store.runs))
              && store.dedupe == (if ok then WithRecord(old(store.dedupe), record) else old(store.dedupe))
    {
      hide CommitAtom, CheckComplete;
      var job := store.runs[r].queue[claim.id];
      AtomRecord(store.runs[r], job, claim, c, record);
      var jobs := Thread(c, job.downstream);
      ok := store.CommitNodeAtom(r, NodeAtom(job.nodeId, c.result, record, job.dependents, jobs, Some(claim), [c]));
      if ok {
        CheckRunComplete(r);
      }
    }

    // ----- failing

    /** The failed result row of an attempt and, under a dedupe key, the failed record. */
    method CommitFailed(r: string, job: NodeJob, key: string, cause: Cause)
      requires r in store.runs
      modifies store`runs, store`dedupe
      ensures var run := old(store.runs[r]);
              store.runs == old(store.runs)[r := run.(results := run.results[job.nodeId := FailureResult(cause)])]
      ensures store.dedupe == WithFailure(old(store.dedupe), job, key, Some(cause))
      ensures store.dedupe == if key == "" then old(store.dedupe)
                              else old(store.dedupe)[DedupeKey(job.def.workflowId, job.def.nodeName, key) := DedupeOutcome(false, FailureResult(cause))]
    {
      hide CommitAtom, FailureResult;
      var record := None;
      if key != "" {
        record := Some(DedupeRecord(job.def.workflowId, job.def.nodeName, key, false, FailureResult(cause)));
      }
      FailedAtomIs(store.runs[r], job.nodeId, FailureResult(cause), record);
      var ok := store.CommitNodeAtom(r, FailedAtom(job.nodeId, FailureResult(cause), record));
    }

    /** Record a failed attempt of `job`, whose input is the one the node ran with: retried, or given up at the cause's last claim. */
    method Fail(r: string, claim: Claim, job: NodeJob, key: string, cause: Cause)
      requires r in store.runs && HasJob(store.runs[r], claim.id)
      requires var run := store.runs[r]; job == run.queue[claim.id].(input := EffectiveInput(run.results, run.queue[claim.id]))
      modifies store`runs, store`dedupe
      ensures store.runs == old(store.runs)[r := RecordFailure(lim, old(store.runs[r]), claim, cause)]
      ensures store.dedupe == WithFailure(old(store.dedupe), old(store.runs[r].queue[claim.id]), key, Some(cause))
      ensures r in store.runs && HasJob(store.runs[r], claim.id)
      ensures var was, n := old(store.runs[r]), old(store.runs[r]).rows[claim.id].attempts;
              ClaimValid(was, claim) && n > 0 ==>
                && store.runs[r].status == (if n >= ClaimsFor(lim, cause) then Failed else was.status)
                && store.runs[r].rows[claim.id] == Row(if n >= ClaimsFor(lim, cause) || n >= lim.queueMax then Dead else Live, n, None)
    {
      hide FailureResult, EffectiveInput, ClaimsFor, RecordFailure, Shelve, Retry;
      if ClaimValid(store.runs[r], claim) && store.runs[r].rows[claim.id].attempts > 0 {
        Attempts.RecordedExactly(lim, store.runs[r], claim, cause);
      }
      RecordFailureIs(lim, store.runs[r], claim, job, cause);
      var attempts := store.runs[r].rows[claim.id].attempts;
      CommitFailed(r, job, key, cause);
      var giveUp;
      match cause {
        case SecretMissing => giveUp := true;
        case OtherCause => giveUp := attempts >= lim.maxAttempts;
        case _ => giveUp := attempts >= lim.secretRetries;
      }
      if giveUp {
        store.runs := store.runs[r := store.runs[r].(saved := Some(job))];
        store.FailClaim(r, claim);
        store.SetRunStatus(r, Failed);
      } else {
        store.RetryClaim(lim, r, claim);
      }
    }

    // ----- the kinds of node

    /** A skip-job records skipped and cascades. */
    method HandleSkip(r: string, claim: Claim)
      requires r in store.runs && HasJob(store.runs[r], claim.id)
      modifies store`runs, store`dedupe
      ensures var run := old(store.runs[r]); var job := run.queue[claim.id];
              store.runs == old(store.runs)[r := Finish(run, claim, Completing(job, None, job.input, SKIPPED))]
      ensures store.dedupe == old(store.dedupe)
    {
      hide CommitAtom, CheckComplete, AtomOf;
      SameRun(store.runs, r);
      var job := store.runs[r].queue[claim.id];
      var ok := Complete(r, claim, Completing(job, None, job.input, SKIPPED), None);
    }

    /** A switch routes to the branch it chose; the other branches get skip-jobs. */
    method HandleSwitch(r: string, claim: Claim, key: string, chosen: Json)
      requires r in store.runs && HasJob(store.runs[r], claim.id) && store.runs[r].queue[claim.id].def.nodeType.Switch?
      modifies store`runs, store`dedupe
      ensures var run := old(store.runs[r]); var job := run.queue[claim.id];
              if chosen.JStr? && chosen.s != ""
              then store.runs == old(store.runs)[r := Finish(run, claim, Completing(job, Some(chosen.s), job.input, BranchResult(chosen.s)))]
                   && store.dedupe == old(store.dedupe)
              else store.runs == old(store.runs)[r := RecordFailure(lim, run, claim, OtherCause)]
                   && store.dedupe == WithFailure(old(store.dedupe), job, key, Some(OtherCause))
    {
      hide CommitAtom, CheckComplete, AtomOf, RecordFailure, BranchResult;
      SameRun(store.runs, r);
      var job := store.runs[r].queue[claim.id];
      if !chosen.JStr? || chosen.s == "" {
        Fail(r, claim, job, key, OtherCause);
        return;
      }
      var ok := Complete(r, claim, Completing(job, Some(chosen.s), job.input, BranchResult(chosen.s)), None);
    }

    /** The array a rejoin collects, read result by result in iteration order, put into its input. */
    method AssembleForeachInput(r: string, job: NodeJob) returns (input: Input)
      requires r in store.runs && Assembles(job)
      ensures input == EffectiveInput(store.runs[r].results, job)
    {
      var c := job.collect.value;
      var results := store.runs[r].results;
      var collected: seq<Json> := [];
      var i := 0;
      while i < c.count
        invariant 0 <= i <= c.count && |collected| == i
        invariant forall j :: 0 <= j < i ==> collected[j] == Collected(results, c.from, c.count)[j]
      {
        var id := IterId(c.from, i);
        collected := collected + [if id in results then results[id] else JNull];
        i := i + 1;
      }
      assert collected == Collected(results, c.from, c.count);
      input := job.input[STEPS := JObj(StepsOf(job.input)[c.name := JArr(collected)])];
    }

    /** An ordinary node: skipped by a prior success under its dedupe key, else run, committed and cascaded. */
    method HandleNode(r: string, claim: Claim, key: string, out: Outcome)
      requires r in store.runs && HasJob(store.runs[r], claim.id) && store.runs[r].queue[claim.id].def.nodeType.Plain?
      requires Fits(store.runs[r].queue[claim.id], out) && !store.runs[r].queue[claim.id].skip
      requires store.runs[r].status == Running || store.runs[r].status == Waiting
      modifies store`runs, store`dedupe, store`uses
      ensures store.Contents() == HandleKeyed(lim, old(store.Contents()), r, claim, key, out)
    {
      hide CommitAtom, CheckComplete, AtomOf, RecordFailure, EffectiveInput, FailureResult;
      ghost var run := store.runs[r];
      SameRun(store.runs, r);
      var job := store.runs[r].queue[claim.id];
      var sj := job;
      if job.collect.Some? {
        var input := AssembleForeachInput(r, job);
        sj := job.(input := input);
      }
      assert sj == job.(input := EffectiveInput(run.results, job)) by { Uncollected(run.results, job); }
      var k := KeyOf(job, key);
      var result, ran := JNull, true;
      if key != "" && k in store.dedupe && store.dedupe[k].succeeded {
        result, ran := store.dedupe[k].result, false;
      } else {
        match out {
          case Broke(cause) =>
            RecordFailureQuiet(lim, run, claim, cause);
            Fail(r, claim, sj, key, cause);
            return;
          case Output(value) => result := value;
        }
      }
      var record := None;
      if key != "" && ran {
        record := Some(DedupeRecord(job.def.workflowId, job.def.nodeName, key, true, result));
      }
      var c := Completing(job, None, sj.input, result);
      FinishShows(run, claim, c);
      PlainHandling(lim, run, claim, result);
      var ok := Complete(r, claim, c, record);
      if ok && key != "" {
        store.uses := store.uses + [KeyedUse(job.def.workflowId, job.def.nodeName, key, ran, result)];
      }
    }

    /** A control node that did its work: committed and cascaded, a failed commit being a failed attempt. */
    method HandleControl(r: string, claim: Claim, key: string, value: Json)
      requires r in store.runs && HasJob(store.runs[r], claim.id) && !store.runs[r].queue[claim.id].def.nodeType.Plain?
      modifies store`runs, store`dedupe
      ensures var run := old(store.runs[r]); var job := run.queue[claim.id]; var c := Completing(job, None, job.input, value);
              && store.runs == old(store.runs)[r := FinishOrFail(lim, run, claim, c)]
              && store.dedupe == WithFailure(old(store.dedupe), job, key, OnFailedCommit(run, AtomOf(job, claim, c, None)))
    {
      hide CommitAtom, CheckComplete, AtomOf, RecordFailure;
      var job := store.runs[r].queue[claim.id];
      var ok := Complete(r, claim, Completing(job, None, job.input, value), None);
      if !ok {
        Fail(r, claim, job, key, OtherCause);
      }
    }

    method FindDownstreamJob(ds: seq<NodeJob>, id: NodeId) returns (at: Option<nat>)
      ensures at == FindJob(ds, id)
    {
      var i := 0;
      while i < |ds|
        invariant 0 <= i <= |ds|
        invariant forall j :: 0 <= j < i ==> ds[j].nodeId != id
      {
        if ds[i].nodeId == id {
          ForeachRuns.FindFirst(ds, id, i);
          return Some(i);
        }
        i := i + 1;
      }
      at := None;
    }

    /** The rejoin jobs found downstream of a foreach, in rejoin order. */
    method FindRejoins(ds: seq<NodeJob>, rejoins: seq<NodeId>) returns (jobs: seq<NodeJob>)
      ensures jobs == RejoinJobs(ds, rejoins)
    {
      jobs := [];
      var i := 0;
      while i < |rejoins|
        invariant 0 <= i <= |rejoins| && jobs == RejoinJobs(ds, rejoins[..i])
      {
        RejoinNext(ds, rejoins, i);
        var at := FindDownstreamJob(ds, rejoins[i]);
        if at.Some? {
          jobs := jobs + [ds[at.value]];
        }
        i := i + 1;
      }
      assert rejoins[..i] == rejoins;
    }

    /** One body job per element, each leading to the rejoins. */
    method ScatterBodies(job: NodeJob, loop: Loop, marked: seq<NodeJob>, items: seq<Json>) returns (bodies: seq<NodeJob>)
      requires marked == MarkRejoins(job.downstream, loop.rejoins, loop, |items|)
      ensures bodies == BodyJobs(job, loop, items)
    {
      hide RejoinJobs, MarkRejoins;
      bodies := [];
      var i := 0;
      while i < |items|
        invariant 0 <= i <= |items| && |bodies| == i
        invariant forall j :: 0 <= j < i ==> bodies[j] == BodyJob(job, loop, marked, items, j)
      {
        var rejoins := FindRejoins(marked, loop.rejoins);
        bodies := bodies + [loop.body.(
          runId := job.runId,
          nodeId := IterId(loop.body.nodeId, i),
          input := ItemInput(job.input, loop.bodyAs, items[i]),
          dependents := loop.rejoins,
          downstream := rejoins,
          collect := None)];
        i := i + 1;
      }
    }

    /** Every rejoin waits for `n` iterations and is marked to collect them. */
    method PrepareRejoins(r: string, job: NodeJob, loop: Loop, n: nat) returns (marked: seq<NodeJob>)
      requires r in store.runs
      modifies store`runs
      ensures marked == MarkRejoins(job.downstream, loop.rejoins, loop, n)
      ensures var run := old(store.runs[r]); store.runs == old(store.runs)[r := run.(remaining := SetRemaining(run.remaining, loop.rejoins, n))]
    {
      hide SetRemaining, MarkRejoins, Marked;
      marked := job.downstream;
      var i := 0;
      SameRun(store.runs, r);
      NothingMarked(store.runs[r].remaining, job.downstream, loop, n);
      while i < |loop.rejoins|
        invariant 0 <= i <= |loop.rejoins| && r in store.runs
        invariant marked == MarkRejoins(job.downstream, loop.rejoins[..i], loop, n)
        invariant var run := old(store.runs[r]);
                  store.runs == old(store.runs)[r := run.(remaining := SetRemaining(run.remaining, loop.rejoins[..i], n))]
      {
        SetRemainingNext(old(store.runs[r]).remaining, loop.rejoins, n, i);
        MarkNext(job.downstream, loop.rejoins, loop, n, i);
        store.SetRunDepsRemaining(r, loop.rejoins[i], n);
        var at := FindDownstreamJob(marked, loop.rejoins[i]);
        if at.Some? {
          var rejoin := marked[at.value];
          marked := marked[at.value := Marked(rejoin, loop, n)];
        }
        i := i + 1;
      }
      assert loop.rejoins[..i] == loop.rejoins;
    }

    /** A foreach: every rejoin waits for N iterations and is marked to collect them; N body jobs are enqueued. */
    method HandleForeach(r: string, claim: Claim, key: string, items: seq<Json>)
      requires r in store.runs && HasJob(store.runs[r], claim.id) && store.runs[r].queue[claim.id].def.nodeType.Foreach?
      requires store.runs[r].status == Running || store.runs[r].status == Waiting
      requires !store.runs[r].queue[claim.id].skip
      modifies store`runs, store`dedupe
      ensures var run := old(store.runs[r]); var job := run.queue[claim.id];
              && store.runs == old(store.runs)[r := FanForeach(lim, run, claim, items)]
              && store.dedupe == WithFailure(old(store.dedupe), job, key, FailureOf(run, claim, Output(JArr(items))))
    {
      hide CommitAtom, CheckComplete, RecordFailure, SetRemaining, MarkRejoins, RejoinJobs, BodyJobs, ItemsResult;
      SameRun(store.runs, r);
      var job := store.runs[r].queue[claim.id];
      if job.loop.None? {
        return;
      }
      var loop := job.loop.value;
      var marked := PrepareRejoins(r, job, loop, |items|);
      var bodies := ScatterBodies(job, loop, marked, items);
      ghost var counted := store.runs[r];
      var c := Completing(job, None, job.input, ItemsResult(items));
      var ok := store.CommitNodeAtom(r, NodeAtom(job.nodeId, c.result, None, [], bodies, Some(claim), [c]));
      assert ScatterAtom(claim, c, bodies) == NodeAtom(job.nodeId, c.result, None, [], bodies, Some(claim), [c]);
      if ok {
        CheckRunComplete(r);
      } else {
        Fail(r, claim, job, key, OtherCause);
      }
    }

    // ----- waits, timers and signals

    /** The wait's own transaction when its signal is already there: result, fan-out, ack and pending. */
    method CompleteWait(r: string, claim: Claim, payload: Json) returns (ok: bool)
      requires r in store.runs && HasJob(store.runs[r], claim.id)
      modifies store`runs
      ensures var run := old(store.runs[r]); var job := run.queue[claim.id];
              var atom := AtomOf(job, claim, Completing(job, None, job.input, WakeResult("signal", payload)), None);
              && (ok <==> CommitAtom(run, atom).Some?)
              && (ok ==> store.runs == old(store.runs)[r := CommitAtom(run, atom).value])
    {
      hide Runs.FanOut, CommitAtom, Acked, WakeResult;
      var job := store.runs[r].queue[claim.id];
      var c := Completing(job, None, job.input, WakeResult("signal", payload));
      CommitAtomIs(store.runs[r], AtomOf(job, claim, c, None));
      store.WriteResult(r, job.nodeId, c.result);
      store.runs := store.runs[r := store.runs[r].(history := store.runs[r].history + [c])];
      var jobs := Thread(c, job.downstream);
      var enqueued;
      ok, enqueued := store.FanOut(r, job.dependents, jobs);
      if ok {
        ok := store.CountAndAck(r, enqueued, Some(claim));
      }
    }

    /** The wait's own transaction when it parks. */
    method ParkWait(r: string, claim: Claim, signal: string, runAt: int) returns (ok: bool)
      requires r in store.runs && HasJob(store.runs[r], claim.id)
      modifies store`runs
      ensures ok <==> ClaimValid(old(store.runs[r]), claim)
      ensures ok ==> store.runs == old(store.runs)[r := Park(old(store.runs[r]), claim, signal, runAt)]
    {
      hide Park;
      ghost var run := store.runs[r];
      var job := store.runs[r].queue[claim.id];
      store.WriteContinuation(r, job.nodeId, ContinuationFor(job, signal, runAt));
      store.SetRunStatus(r, Waiting);
      ok := store.Ack(r, claim);
      if ok {
        store.AdjustPending(r, -1);
        assert store.runs == old(store.runs)[r := Shelved(run, claim, ContinuationFor(job, signal, runAt))];
        ShelvedIsPark(run, claim, signal, runAt);
        hide Shelved;
        if runAt != 0 {
          store.EnqueueTimer(r, job.nodeId);
        }
      }
    }

    /** A wait's transaction: its signal is taken from the buffer and completes it, or it parks; on an error nothing changed. */
    method WaitTx(r: string, claim: Claim, signal: string, runAt: int) returns (ok: bool)
      requires r in store.runs && HasJob(store.runs[r], claim.id)
      modifies store`runs, store`buffered
      ensures var run := old(store.runs[r]); var job := run.queue[claim.id]; var woken := OldestPayload(old(store.buffered), signal);
              if woken.Some? && signal != ""
              then
                var committed := CommitAtom(run, AtomOf(job, claim, Completing(job, None, job.input, WakeResult("signal", woken.value)), None));
                && (ok <==> committed.Some?)
                && store.runs == (if ok then old(store.runs)[r := committed.value] else old(store.runs))
                && store.buffered == (if ok then Without(old(store.buffered), Buffered(signal, woken.value)) else old(store.buffered))
              else
                && (ok <==> ClaimValid(run, claim))
                && store.runs == (if ok then old(store.runs)[r := Park(run, claim, signal, runAt)] else old(store.runs))
                && store.buffered == old(store.buffered)
    {
      hide CommitAtom, AtomOf, Park, ClaimValid, WakeResult;
      var savedRuns, savedBuffered := store.runs, store.buffered;
      var woken := None;
      if signal != "" {
        woken := store.TakeBufferedSignal(signal);
      }
      if woken.Some? {
        ok := CompleteWait(r, claim, woken.value);
      } else {
        ok := ParkWait(r, claim, signal, runAt);
      }
      if !ok {
        store.runs, store.buffered := savedRuns, savedBuffered;
      }
    }

    /** A claimed wait: consume an already buffered signal, or park. */
    method HandleWait(r: string, claim: Claim, key: string, signal: string, runAt: int)
      requires r in store.runs && HasJob(store.runs[r], claim.id) && store.runs[r].queue[claim.id].def.nodeType.Wait?
      requires !store.runs[r].queue[claim.id].skip
      requires store.runs[r].status == Running || store.runs[r].status == Waiting
      modifies store`runs, store`dedupe, store`buffered
      ensures store.Contents() == HandleJob(lim, old(store.Contents()), r, claim, key, WaitFor(signal, runAt, None))
    {
      hide CommitAtom, CheckComplete, AtomOf, RecordFailure, Park, FailureResult, ClaimValid, WakeResult;
      WaitHandling(lim, store.runs[r], claim, signal, runAt, OldestPayload(store.buffered, signal));
      WaitJob(lim, store.Contents(), r, claim, key, signal, runAt);
      hide Handle, FailureOf, HandleJob, WithFailure, Without, OldestPayload;
      var job := store.runs[r].queue[claim.id];
      var ok := WaitTx(r, claim, signal, runAt);
      if ok {
        CheckRunComplete(r);
      } else {
        Fail(r, claim, job, key, OtherCause);
      }
    }

    /** The end of a resume: pending, the continuation's row and, if it was the last one, the status. */
    method Unpark(r: string, n: NodeId, enqueued: nat)
      requires r in store.runs
      modifies store`runs
      ensures store.runs == old(store.runs)[r := Unparked(old(store.runs[r]), n, enqueued)]
    {
      store.AdjustPending(r, enqueued);
      store.DeleteContinuation(r, n);
      var left := store.ContinuationCount(r);
      if left == 0 {
        store.SetRunStatus(r, Running);
      }
    }

    /** Resume one parked wait; nothing happens if it is not parked. */
    method ResumeInstance(r: string, n: NodeId, source: string, payload: Json)
      modifies store`runs
      ensures store.runs == if r in old(store.runs) then old(store.runs)[r := Resume(old(store.runs)[r], n, source, payload)] else old(store.runs)
    {
      if r !in store.runs {
        return;
      }
      hide Runs.FanOut, NextJobs, WakeResult, Unparked;
      SameRun(store.runs, r);
      var saved := store.runs;
      var run := store.runs[r];
      if run.status != Waiting || n !in run.parked {
        return;
      }
      var cont := run.parked[n];
      var c := Waking(cont, source, payload);
      ResumeUnparks(run, n, source, payload);
      hide Resume;
      store.WriteResult(r, cont.nodeId, c.result);
      store.runs := store.runs[r := store.runs[r].(history := run.history + [c])];
      var jobs := Thread(c, cont.downstream);
      var ok, enqueued := store.FanOut(r, cont.dependents, jobs);
      if ok {
        Unpark(r, n, enqueued);
      } else {
        store.runs := saved;
      }
    }

    /** A claimed timer job: resume its wait if it is still parked, and ack the timer in any case. */
    method HandleTimer(r: string, claim: Claim)
      requires r in store.runs && claim.id in store.runs[r].timers
      modifies store`runs
      ensures store.runs == old(store.runs)[r := FireTimer(old(store.runs[r]), claim)]
    {
      hide Resume;
      var timer := store.runs[r].timers[claim.id];
      ResumeInstance(r, timer.node, "timer", JNull);
      if timer.owner == Some(claim.worker) {
        store.runs := store.runs[r := store.runs[r].(timers := store.runs[r].timers - {claim.id})];
      }
    }

    /** Deliver a named signal: resume the one wait parked on it, else buffer it, else reject it as ambiguous. */
    method ResumeBySignal(name: string, payload: Json) returns (ok: bool)
      modifies store`runs, store`buffered
      ensures store.Contents() == Deliver(old(store.Contents()), name, payload).0
      ensures ok <==> !Deliver(old(store.Contents()), name, payload).1.Ambiguous?
      ensures ok <==> !Deliveries.Contested(old(store.runs), name)
      ensures !ok ==> store.Contents() == old(store.Contents())
    {
      hide Resume, Deliveries.Contested;
      Deliveries.RejectedExactly(store.Contents(), name, payload);
      var waits := ParkedOn(store.runs, name);
      if waits == {} {
        store.BufferSignal(name, payload);
        return true;
      }
      if |waits| == 1 {
        var w :| w in waits;
        OnlyOne(waits, w);
        ResumeInstance(w.runId, w.node, "signal", payload);
        return true;
      }
      ok := false;
    }

    // ----- one claimed job

    /** Dispatch a claimed job by its run's status, its skip flag and its kind. */
    method HandleClaimed(r: string, claim: Claim, key: string, out: Outcome)
      requires r in store.runs && HasJob(store.runs[r], claim.id) && Fits(store.runs[r].queue[claim.id], out)
      modifies store
      ensures store.Contents() == HandleJob(lim, old(store.Contents()), r, claim, key, out)
    {
      hide CommitAtom, AtomOf, RecordFailure, FinishOrFail, Finish, FanForeach, FailureResult, EffectiveInput, BranchResult;
      var run := store.runs[r];
      var job := run.queue[claim.id];
      NotAssembling(run.results, job);
      if run.status != Running && run.status != Waiting {
        store.DropClaim(r, claim);
      } else if job.skip {
        HandleSkip(r, claim);
      } else if out.Broke? && !job.def.nodeType.Plain? {
        Fail(r, claim, job, key, out.cause);
      } else {
        match job.def.nodeType {
          case Wait => HandleWait(r, claim, key, out.signal, out.runAt);
          case Switch => HandleSwitch(r, claim, key, out.value);
          case Foreach =>
            if out.value.JArr? {
              HandleForeach(r, claim, key, out.value.items);
            } else {
              Fail(r, claim, job, key, OtherCause);
            }
          case Plain(_) => HandleNode(r, claim, key, out);
          case _ => HandleControl(r, claim, key, out.value);
        }
      }
    }

    /** A send-signal node delivers its signal, which may touch its own run, and then completes, or fails if the name is ambiguous. */
    method HandleSendSignal(r: string, claim: Claim, key: string, name: string, payload: Json, value: Json)
      requires r in store.runs && HasJob(store.runs[r], claim.id) && claim.id < store.runs[r].nextId
      requires store.runs[r].queue[claim.id].def.nodeType.SendSignal?
      modifies store
      ensures var (delivered, how) := Deliver(old(store.Contents()), name, payload);
              && r in delivered.runs && HasJob(delivered.runs[r], claim.id)
              && delivered.runs[r].queue[claim.id] == old(store.runs[r].queue[claim.id])
              && store.Contents() == HandleJob(lim, delivered, r, claim, key, if how.Ambiguous? then Broke(OtherCause) else Output(value))
              && (how.Ambiguous? <==> Deliveries.Contested(old(store.runs), name))
    {
      hide Resume, HandleJob, Deliver, Deliveries.Contested;
      DeliverKeepsJob(store.Contents(), name, payload, r, claim.id);
      var ok := ResumeBySignal(name, payload);
      assert store.Contents().runs == store.runs;
      HandleClaimed(r, claim, key, if ok then Output(value) else Broke(OtherCause));
    }

    // ----- the entry points keep the store's invariants

    /**
     Claim a job and handle it. The one step that can break a run's invariant is a scheduler that a switch
     skipped, or that was given no items while rejoins wait for them.
     */
    method Work(ghost kinds: Kinds, ghost origins: Signals.Origins, r: string, claim: Claim, key: string, out: Outcome)
      requires r in store.runs && Enabled(store.runs[r], Steps.Work(claim, out))
      requires Bounded(lim) && Signals.ParkInv(origins, store.Contents()) && UsesOk(kinds, store.Contents())
      requires OfKind(kinds, store.runs[r].queue[claim.id])
      modifies store
      ensures var taken := old(store.Contents()).(runs := old(store.runs)[r := Take(old(store.runs[r]), claim)]);
              store.Contents() == HandleJob(lim, taken, r, claim, key, out)
      ensures UsesOk(kinds, store.Contents())
      ensures ForeachRuns.Supported(old(store.runs[r]), Steps.Work(claim, out)) ==> Signals.ParkInv(origins, store.Contents())
    {
      hide HandleJob, Signals.ParkInv, UsesOk, Signals.NextDb, Do, Take, Signals.Happens, Can, ForeachRuns.Supported;
      ghost var db := store.Contents();
      ghost var supported := ForeachRuns.Supported(store.runs[r], Steps.Work(claim, out));
      ghost var d := JobIsDeed(lim, kinds, db, r, claim, key, out);
      DedupeKeeps(lim, kinds, db, d);
      TakeKeepsJob(store.runs[r], claim);
      store.Claim(r, claim);
      HandleClaimed(r, claim, key, out);
      if supported {
        ghost var e := Signals.JobIsEvent(lim, db, r, claim, key, out);
        Signals.EventKeeps(lim, origins, db, e);
        Signals.ParkInvOf(origins, Signals.NextDb(lim, db, e), store.Contents());
      }
    }

    /** Claim a timer job and fire it. */
    method Tick(ghost origins: Signals.Origins, r: string, claim: Claim)
      requires r in store.runs && claim.id in store.runs[r].timers
      requires Bounded(lim) && Signals.ParkInv(origins, store.Contents())
      modifies store`runs
      ensures store.runs == old(store.runs)[r := FireTimer(TakeTimer(old(store.runs[r]), claim), claim)]
      ensures Signals.ParkInv(origins, store.Contents())
    {
      hide Signals.ParkInv, FireTimer;
      Signals.EventKeeps(lim, origins, store.Contents(), Signals.OnRun(r, Steps.Tick(claim)));
      store.ClaimTimer(r, claim);
      HandleTimer(r, claim);
    }

    /** Deliver a signal from the control plane. */
    method Signal(ghost origins: Signals.Origins, name: string, payload: Json) returns (ok: bool)
      requires Bounded(lim) && Signals.ParkInv(origins, store.Contents())
      modifies store`runs, store`buffered
      ensures store.Contents() == Deliver(old(store.Contents()), name, payload).0
      ensures Signals.ParkInv(origins, store.Contents())
    {
      hide Signals.ParkInv, Deliver;
      Signals.EventKeeps(lim, origins, store.Contents(), Signals.OnSignal(name, payload));
      ok := ResumeBySignal(name, payload);
    }

    /** Cancel a run from the control plane. */
    method Stop(ghost origins: Signals.Origins, r: string)
      requires r in store.runs
      requires Bounded(lim) && Signals.ParkInv(origins, store.Contents())
      modifies store`runs
      ensures store.runs == old(store.runs)[r := Cancel(old(store.runs[r]))]
      ensures Signals.ParkInv(origins, store.Contents())
    {
      hide Signals.ParkInv, Cancel;
      Signals.EventKeeps(lim, origins, store.Contents(), Signals.OnRun(r, Steps.Stop));
      store.CancelRun(r);
    }
  }

  lemma NotAssembling(results: map<NodeId, Json>, job: NodeJob)
    ensures !job.def.nodeType.Plain? ==> job == job.(input := EffectiveInput(results, job))
  {
  }

  lemma Uncollected(results: map<NodeId, Json>, job: NodeJob)
    ensures job.collect.None? ==> EffectiveInput(results, job) == job.input && job.(input := job.input) == job
  {
  }

  /** Recording a failure, in the order in which it is done. */
  lemma RecordFailureIs(lim: Limits, run: Run, claim: Claim, job: NodeJob, cause: Cause)
    requires HasJob(run, claim.id) && job == run.queue[claim.id].(input := EffectiveInput(run.results, run.queue[claim.id]))
    ensures var written := run.(results := run.results[job.nodeId := FailureResult(cause)]);
            var after := RecordFailure(lim, run, claim, cause);
            && HasJob(written, claim.id) && HasJob(after, claim.id)
            && after == if Terminal(lim, cause, run.rows[claim.id].attempts)
                        then Shelve(written.(saved := Some(job)), claim, Dead).(status := Failed)
                        else Retry(lim, written, claim)
  {
    hide EffectiveInput, FailureResult;
  }

  lemma RecordFailureQuiet(lim: Limits, run: Run, claim: Claim, cause: Cause)
    requires HasJob(run, claim.id)
    ensures RecordFailure(lim, run, claim, cause).history == run.history
  {
    hide FailureResult, EffectiveInput;
  }

  lemma FinishShows(run: Run, claim: Claim, c: Completion)
    requires HasJob(run, claim.id)
    ensures Finish(run, claim, c).history == run.history <==> CommitAtom(run, AtomOf(run.queue[claim.id], claim, c, None)).None?
  {
    hide CommitAtom;
    CommitShows(run, AtomOf(run.queue[claim.id], claim, c, None));
  }

  lemma PlainHandling(lim: Limits, run: Run, claim: Claim, value: Json)
    requires HasJob(run, claim.id) && run.queue[claim.id].def.nodeType.Plain? && !run.queue[claim.id].skip
    requires run.status == Running || run.status == Waiting
    ensures var job := run.queue[claim.id];
            Handle(lim, run, claim, Output(value)) == Finish(run, claim, Completing(job, None, EffectiveInput(run.results, job), value))
  {
    hide Finish, EffectiveInput;
  }

  lemma OnlyOne<T>(s: set<T>, x: T)
    requires |s| == 1 && x in s
    ensures forall y :: y in s ==> y == x
  {
    assert s == {x} + (s - {x});
    assert |s - {x}| == 0;
  }

  lemma FanOutKeepsParked(run: Run, dependents: seq<NodeId>, downstream: seq<NodeJob>)
    ensures Runs.FanOut(run, dependents, downstream).Some? ==>
              var after := Runs.FanOut(run, dependents, downstream).value.0;
              after.parked == run.parked && after.status == run.status
  {
    hide Decrement, ReadyJobs, Enqueue;
    match Decrement(run.remaining, dependents)
    case None =>
    case Some((m, ready)) => EnqueueSpec(run.(remaining := m), ReadyJobs(dependents, ready, downstream));
  }

  lemma ResumeUnparks(run: Run, n: NodeId, source: string, payload: Json)
    requires run.status == Waiting && n in run.parked
    ensures var cont := run.parked[n]; var c := Waking(cont, source, payload);
            var written := run.(results := run.results[cont.nodeId := c.result], history := run.history + [c]);
            Resume(run, n, source, payload) ==
            match Runs.FanOut(written, cont.dependents, NextJobs(c, cont.downstream))
            case None => run
            case Some((fanned, count)) => Unparked(fanned, n, count)
  {
    var cont := run.parked[n];
    var c := Waking(cont, source, payload);
    var written := run.(results := run.results[cont.nodeId := c.result], history := run.history + [c]);
    FanOutKeepsParked(written, cont.dependents, NextJobs(c, cont.downstream));
    hide Runs.FanOut, NextJobs, WakeResult;
  }

  /** What handling a claimed wait of an open run comes to, by whether its signal is already buffered. */
  lemma WaitHandling(lim: Limits, run: Run, claim: Claim, signal: string, runAt: int, buffered: Option<Json>)
    requires HasJob(run, claim.id) && run.queue[claim.id].def.nodeType.Wait? && !run.queue[claim.id].skip
    requires run.status == Running || run.status == Waiting
    ensures var job := run.queue[claim.id]; var out := WaitFor(signal, runAt, buffered);
            if buffered.Some? && signal != ""
            then
              var c := Completing(job, None, job.input, WakeResult("signal", buffered.value));
              var committed := CommitAtom(run, AtomOf(job, claim, c, None));
              && Handle(lim, run, claim, out) == (if committed.Some? then CheckComplete(committed.value) else RecordFailure(lim, run, claim, OtherCause))
              && FailureOf(run, claim, out) == (if committed.Some? then None else Some(OtherCause))
              && (Handle(lim, run, claim, out).history != run.history <==> committed.Some?)
            else
              && Handle(lim, run, claim, out) == (if ClaimValid(run, claim) then CheckComplete(Park(run, claim, signal, runAt)) else RecordFailure(lim, run, claim, OtherCause))
              && FailureOf(run, claim, out) == (if ClaimValid(run, claim) then None else Some(OtherCause))
  {
    hide CommitAtom, AtomOf, WakeResult, Park;
    RecordFailureQuiet(lim, run, claim, OtherCause);
    hide RecordFailure;
    if buffered.Some? && signal != "" {
      var job := run.queue[claim.id];
      CommitShows(run, AtomOf(job, claim, Completing(job, None, job.input, WakeResult("signal", buffered.value)), None));
      AtomLogs(job, claim, Completing(job, None, job.input, WakeResult("signal", buffered.value)));
    }
  }

  /** What handling a claimed wait of an open run does to the store. */
  lemma WaitJob(lim: Limits, db: Db, r: string, claim: Claim, key: string, signal: string, runAt: int)
    requires r in db.runs && HasJob(db.runs[r], claim.id) && db.runs[r].queue[claim.id].def.nodeType.Wait? && !db.runs[r].queue[claim.id].skip
    requires db.runs[r].status == Running || db.runs[r].status == Waiting
    ensures var run := db.runs[r]; var woken := OldestPayload(db.buffered, signal); var out := WaitFor(signal, runAt, woken);
            var after := Handle(lim, run, claim, out);
            HandleJob(lim, db, r, claim, key, WaitFor(signal, runAt, None)) ==
            Db(db.runs[r := after],
               WithFailure(db.dedupe, run.queue[claim.id], key, FailureOf(run, claim, out)),
               if signal != "" && woken.Some? && after.history != run.history then Without(db.buffered, Buffered(signal, woken.value)) else db.buffered,
               db.uses)
  {
    hide Handle, FailureOf, WithFailure, Without, OldestPayload;
  }

  lemma AtomLogs(job: NodeJob, claim: Claim, c: Completion)
    ensures AtomOf(job, claim, c, None).log == [c]
  {
  }

  lemma TakeKeepsJob(run: Run, claim: Claim)
    requires HasJob(run, claim.id)
    ensures HasJob(Take(run, claim), claim.id) && Take(run, claim).queue == run.queue
  {
  }

  lemma {:induction false} EnqueueKeepsJob(run: Run, jobs: seq<NodeJob>, id: nat)
    requires HasJob(run, id) && id < run.nextId
    ensures HasJob(Enqueue(run, jobs), id) && Enqueue(run, jobs).queue[id] == run.queue[id] && id < Enqueue(run, jobs).nextId
  {
    if jobs != [] {
      EnqueueKeepsJob(run, jobs[..|jobs| - 1], id);
    }
  }

  lemma ResumeKeepsJob(run: Run, n: NodeId, source: string, payload: Json, id: nat)
    requires HasJob(run, id) && id < run.nextId
    ensures var after := Resume(run, n, source, payload); HasJob(after, id) && after.queue[id] == run.queue[id]
  {
    if run.status == Waiting && n in run.parked {
      hide Decrement, ReadyJobs, Enqueue, NextJobs, WakeResult;
      var cont := run.parked[n];
      var c := Waking(cont, source, payload);
      match Decrement(run.remaining, cont.dependents)
      case None =>
      case Some((m, ready)) =>
        var written := run.(results := run.results[cont.nodeId := c.result], history := run.history + [c]);
        EnqueueKeepsJob(written.(remaining := m), ReadyJobs(cont.dependents, ready, NextJobs(c, cont.downstream)), id);
    }
  }

  lemma DeliverKeepsJob(db: Db, name: string, payload: Json, r: string, id: nat)
    requires r in db.runs && HasJob(db.runs[r], id) && id < db.runs[r].nextId
    ensures var after := Deliver(db, name, payload).0;
            r in after.runs && HasJob(after.runs[r], id) && after.runs[r].queue[id] == db.runs[r].queue[id]
  {
    hide Resume;
    forall n: NodeId
      ensures var after := Resume(db.runs[r], n, "signal", payload); HasJob(after, id) && after.queue[id] == db.runs[r].queue[id]
    {
      ResumeKeepsJob(db.runs[r], n, "signal", payload, id);
    }
  }
}
