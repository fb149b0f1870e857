/**
 The store as an object: each method is one of the store's transactions or row updates, done step by step,
 and its postcondition names what it does to the rows.
 */
module Stores {
  import opened Values
  import opened Jobs
  import opened Runs
  import opened Handlers
  import opened Restarts
  import opened Cancels
  import opened Databases
  import opened Invariant
  import opened Steps

  /** The dedupe table after an atom that carries `record`. */
  function WithRecord(dedupe: map<DedupeKey, DedupeOutcome>, record: Option<DedupeRecord>): map<DedupeKey, DedupeOutcome> {
    match record
    case None => dedupe
    case Some(d) => dedupe[DedupeKey(d.workflowId, d.nodeName, d.key) := DedupeOutcome(d.succeeded, d.result)]
  }

  /** The counters a run starts with. */
  function CountsOf(order: seq<NodeId>, counts: map<NodeId, int>): map<NodeId, int>
    requires forall n :: n in order ==> n in counts
  {
    if order == [] then map[]
    else CountsOf(order[..|order| - 1], counts)[order[|order| - 1] := counts[order[|order| - 1]]]
  }

  lemma {:induction false} CountsAre(order: seq<NodeId>, counts: map<NodeId, int>)
    requires forall n :: n in order ==> n in counts
    ensures var m := CountsOf(order, counts);
            (forall n :: n in m <==> n in order) && forall n :: n in m ==> m[n] == counts[n]
  {
    if order != [] {
      var last := |order| - 1;
      assert order == order[..last] + [order[last]];
      CountsAre(order[..last], counts);
    }
  }

  // ----- prefixes of the loops

  lemma NoCounts(m: map<NodeId, int>, order: seq<NodeId>, counts: map<NodeId, int>)
    ensures m + CountsOf(order[..0], counts) == m
  {
  }

  lemma CountsNext(m: map<NodeId, int>, order: seq<NodeId>, counts: map<NodeId, int>, i: nat)
    requires i < |order| && forall n :: n in order ==> n in counts
    ensures m + CountsOf(order[..i + 1], counts) == (m + CountsOf(order[..i], counts))[order[i] := counts[order[i]]]
  {
    assert order[..i + 1] == order[..i] + [order[i]];
  }

  lemma {:induction false} DecrementPrefix(remaining: map<NodeId, int>, dependents: seq<NodeId>, i: nat)
    requires i <= |dependents| && Decrement(remaining, dependents[..i]).None?
    ensures Decrement(remaining, dependents).None?
    decreases |dependents| - i
  {
    if i < |dependents| {
      assert dependents[..i + 1][..i] == dependents[..i];
      DecrementPrefix(remaining, dependents, i + 1);
    } else {
      assert dependents[..i] == dependents;
    }
  }

  lemma DecrementNext(remaining: map<NodeId, int>, dependents: seq<NodeId>, i: nat)
    requires i < |dependents| && Decrement(remaining, dependents[..i]).Some?
    ensures var (m, ready) := Decrement(remaining, dependents[..i]).value; var d := dependents[i];
            Decrement(remaining, dependents[..i + 1]) ==
            if d !in m then None
            else Some((m[d := m[d] - 1], if m[d] - 1 == 0 then ready + {d} else ready))
  {
    assert dependents[..i + 1][..i] == dependents[..i];
  }

  lemma ReadyNext(dependents: seq<NodeId>, ready: set<NodeId>, downstream: seq<NodeJob>, i: nat)
    requires i < |downstream|
    ensures ReadyJobs(dependents, ready, downstream[..i + 1]) ==
            if i < |dependents| && dependents[i] !in ready then ReadyJobs(dependents, ready, downstream[..i])
            else ReadyJobs(dependents, ready, downstream[..i]) + [downstream[i]]
  {
    assert downstream[..i + 1][..i] == downstream[..i];
  }

  lemma EnqueueNext(run: Run, jobs: seq<NodeJob>, job: NodeJob)
    ensures Enqueue(run, jobs + [job]) == EnqueueOne(Enqueue(run, jobs), job)
  {
    assert (jobs + [job])[..|jobs|] == jobs;
  }

  lemma {:induction false} OldestAfter(buffered: seq<Buffered>, name: string, i: nat)
    requires i <= |buffered| && forall j :: 0 <= j < i ==> buffered[j].name != name
    ensures OldestPayload(buffered, name) == OldestPayload(buffered[i..], name)
  {
    if i > 0 {
      assert buffered[1..][i - 1..] == buffered[i..];
      OldestAfter(buffered[1..], name, i - 1);
    }
  }

  lemma {:induction false} WithoutNext(buffered: seq<Buffered>, b: Buffered, gone: Buffered)
    ensures Without(buffered + [b], gone) == Without(buffered, gone) + (if b == gone then [] else [b])
  {
    if buffered != [] {
      assert (buffered + [b])[1..] == buffered[1..] + [b];
      WithoutNext(buffered[1..], b, gone);
    }
  }

  class Store {
    var runs: map<string, Run>
    var dedupe: map<DedupeKey, DedupeOutcome>
    var buffered: seq<Buffered>
    ghost var uses: seq<KeyedUse>

    ghost function Contents(): Db
      reads this
    {
      Db(runs, dedupe, buffered, uses)
    }

    constructor ()
      ensures Contents() == Db(map[], map[], [], [])
    {
      runs, dedupe, buffered, uses := map[], map[], [], [];
    }

    // ----- the queue

    method EnqueueJob(r: string, job: NodeJob)
      requires r in runs
      modifies `runs
      ensures runs == old(runs)[r := EnqueueOne(old(runs[r]), job)]
    {
      runs := runs[r := EnqueueOne(runs[r], job)];
    }

    /** Claim one job: the caller, and nobody else, holds a valid claim on it, and the attempt is counted. */
    method Claim(r: string, claim: Claim)
      requires r in runs && HasJob(runs[r], claim.id)
      modifies `runs
      ensures runs == old(runs)[r := Take(old(runs[r]), claim)]
      ensures forall c: Claim :: c.id == claim.id ==>
                (ClaimValid(runs[r], c) <==> c.worker == claim.worker && old(runs[r]).rows[claim.id].place == Live)
      ensures forall c: Claim :: c.id != claim.id ==> (ClaimValid(runs[r], c) <==> ClaimValid(old(runs[r]), c))
      ensures runs[r].rows[claim.id].attempts == old(runs[r]).rows[claim.id].attempts + 1
    {
      runs := runs[r := Take(runs[r], claim)];
    }

    method ClaimTimer(r: string, claim: Claim)
      requires r in runs && claim.id in runs[r].timers
      modifies `runs
      ensures runs == old(runs)[r := TakeTimer(old(runs[r]), claim)]
    {
      runs := runs[r := TakeTimer(runs[r], claim)];
    }

    /** Delete a claim's row if the claim is still valid. */
    method Ack(r: string, claim: Claim) returns (ok: bool)
      requires r in runs
      modifies `runs
      ensures ok == ClaimValid(old(runs[r]), claim)
      ensures runs == if ok then old(runs)[r := Remove(old(runs[r]), claim.id)] else old(runs)
    {
      var run := runs[r];
      ok := claim.id in run.queue && claim.id in run.rows
            && run.rows[claim.id].place == Live && run.rows[claim.id].owner == Some(claim.worker);
      if ok {
        runs := runs[r := run.(queue := run.queue - {claim.id}, rows := run.rows - {claim.id})];
      }
    }

    /** Return a claim to pending, or dead-letter it once its attempts are used up. */
    method RetryClaim(lim: Limits, r: string, claim: Claim)
      requires r in runs && HasJob(runs[r], claim.id)
      modifies `runs
      ensures runs == old(runs)[r := Retry(lim, old(runs[r]), claim)]
    {
      var run := runs[r];
      var row := run.rows[claim.id];
      if row.place == Live && row.owner == Some(claim.worker) {
        if row.attempts >= lim.queueMax {
          FailClaim(r, claim);
        } else {
          runs := runs[r := run.(rows := run.rows[claim.id := row.(owner := None)])];
        }
      } else {
        assert runs[r := run] == runs;
      }
    }

    /** Dead-letter a claim. */
    method FailClaim(r: string, claim: Claim)
      requires r in runs
      modifies `runs
      ensures runs == old(runs)[r := Shelve(old(runs[r]), claim, Dead)]
    {
      runs := runs[r := Shelve(runs[r], claim, Dead)];
    }

    /** Ack a job without running it. Its bookkeeping stays, as dropped. */
    method DropClaim(r: string, claim: Claim)
      requires r in runs
      modifies `runs
      ensures runs == old(runs)[r := Shelve(old(runs[r]), claim, Dropped)]
    {
      runs := runs[r := Shelve(runs[r], claim, Dropped)];
    }

    // ----- dependency counters

    /** Decrement each dependent's counter; the counters that reached zero are ready. A missing counter is an error. */
    method DecrementDependents(r: string, dependents: seq<NodeId>) returns (ok: bool, ready: set<NodeId>)
      requires r in runs
      modifies `runs
      ensures ok <==> Decrement(old(runs[r]).remaining, dependents).Some?
      ensures ok ==> var (m, rd) := Decrement(old(runs[r]).remaining, dependents).value;
                     ready == rd && runs == old(runs)[r := old(runs[r]).(remaining := m)]
    {
      ok, ready := true, {};
      var i := 0;
      assert runs == runs[r := runs[r].(remaining := runs[r].remaining)];
      while i < |dependents|
        invariant 0 <= i <= |dependents| && r in runs
        invariant Decrement(old(runs[r]).remaining, dependents[..i]) == Some((runs[r].remaining, ready))
        invariant runs == old(runs)[r := old(runs[r]).(remaining := runs[r].remaining)]
      {
        DecrementNext(old(runs[r]).remaining, dependents, i);
        var dep := dependents[i];
        if dep !in runs[r].remaining {
          DecrementPrefix(old(runs[r]).remaining, dependents, i + 1);
          return false, {};
        }
        var left := runs[r].remaining[dep] - 1;
        runs := runs[r := runs[r].(remaining := runs[r].remaining[dep := left])];
        if left == 0 {
          ready := ready + {dep};
        }
        i := i + 1;
      }
      assert dependents[..i] == dependents;
    }

    /** Set one counter, if it exists. */
    method SetRunDepsRemaining(r: string, n: NodeId, remaining: int)
      requires r in runs
      modifies `runs
      ensures var was := old(runs[r]);
              runs == old(runs)[r := was.(remaining := if n in was.remaining then was.remaining[n := remaining] else was.remaining)]
    {
      var run := runs[r];
      if n in run.remaining {
        runs := runs[r := run.(remaining := run.remaining[n := remaining])];
      } else {
        assert runs == runs[r := run.(remaining := run.remaining)];
      }
    }

    /** Write the counters of a new run, row by row. */
    method InitRunDeps(r: string, order: seq<NodeId>, counts: map<NodeId, int>)
      requires r in runs && forall n :: n in order ==> n in counts
      modifies `runs
      ensures runs == old(runs)[r := old(runs[r]).(remaining := old(runs[r]).remaining + CountsOf(order, counts))]
    {
      hide CountsOf;
      var i := 0;
      NoCounts(runs[r].remaining, order, counts);
      assert runs == runs[r := runs[r].(remaining := runs[r].remaining)];
      while i < |order|
        invariant 0 <= i <= |order| && r in runs
        invariant runs[r].remaining == old(runs[r]).remaining + CountsOf(order[..i], counts)
        invariant runs == old(runs)[r := old(runs[r]).(remaining := runs[r].remaining)]
      {
        CountsNext(old(runs[r]).remaining, order, counts, i);
        runs := runs[r := runs[r].(remaining := runs[r].remaining[order[i] := counts[order[i]]])];
        i := i + 1;
      }
      assert order[..i] == order;
    }

    // ----- the node atom

    /** Decrement the dependents and enqueue, in order, the downstream jobs that became ready. */
    method FanOut(r: string, dependents: seq<NodeId>, downstream: seq<NodeJob>) returns (ok: bool, enqueued: nat)
      requires r in runs
      modifies `runs
      ensures ok <==> Runs.FanOut(old(runs[r]), dependents, downstream).Some?
      ensures ok ==> var (after, n) := Runs.FanOut(old(runs[r]), dependents, downstream).value;
                     enqueued == n && runs == old(runs)[r := after]
    {
      hide Decrement, ReadyJobs, Enqueue;
      enqueued := 0;
      var ready: set<NodeId>;
      ok, ready := DecrementDependents(r, dependents);
      if !ok {
        return;
      }
      ghost var counted := runs[r];
      assert downstream[..0] == [];
      NothingReady(counted, dependents, ready);
      var i := 0;
      while i < |downstream|
        invariant 0 <= i <= |downstream| && r in runs
        invariant enqueued == |ReadyJobs(dependents, ready, downstream[..i])|
        invariant runs == old(runs)[r := Enqueue(counted, ReadyJobs(dependents, ready, downstream[..i]))]
      {
        ReadyNext(dependents, ready, downstream, i);
        if i < |dependents| && dependents[i] !in ready {
          i := i + 1;
          continue;
        }
        EnqueueNext(counted, ReadyJobs(dependents, ready, downstream[..i]), downstream[i]);
        EnqueueJob(r, downstream[i]);
        enqueued := enqueued + 1;
        i := i + 1;
      }
      assert downstream[..i] == downstream;
    }

    method AdjustPending(r: string, delta: int)
      requires r in runs
      modifies `runs
      ensures runs == old(runs)[r := old(runs[r]).(pending := old(runs[r]).pending + delta)]
    {
      runs := runs[r := runs[r].(pending := runs[r].pending + delta)];
    }

    method WriteResult(r: string, n: NodeId, result: Json)
      requires r in runs
      modifies `runs
      ensures runs == old(runs)[r := old(runs[r]).(results := old(runs[r]).results[n := result])]
    {
      runs := runs[r := runs[r].(results := runs[r].results[n := result])];
    }

    /** Count the enqueued jobs, less the acked one, into pending, and ack. */
    method CountAndAck(r: string, enqueued: nat, ack: Option<Claim>) returns (ok: bool)
      requires r in runs
      modifies `runs
      ensures ok <==> Acked(old(runs[r]), enqueued, ack).Some?
      ensures ok ==> runs == old(runs)[r := Acked(old(runs[r]), enqueued, ack).value]
    {
      hide Remove, ClaimValid;
      ok := true;
      var delta: int := if ack.Some? then enqueued - 1 else enqueued;
      if delta != 0 {
        AdjustPending(r, delta);
      }
      assert runs == old(runs)[r := old(runs[r]).(pending := old(runs[r]).pending + delta)];
      if ack.Some? {
        AckOfAdjusted(old(runs[r]), ack.value, delta);
        ok := Ack(r, ack.value);
      }
    }

    /**
     The parts of a node's completion as one transaction: result, dedupe record, fan-out, pending and ack
     all take effect, or, on an error in any of them, none does.
     */
    method CommitNodeAtom(r: string, atom: NodeAtom) returns (ok: bool)
      requires r in runs
      modifies `runs, `dedupe
      ensures ok <==> CommitAtom(old(runs[r]), atom).Some?
      ensures runs == if ok then old(runs)[r := CommitAtom(old(runs[r]), atom).value] else old(runs)
      ensures dedupe == if ok then WithRecord(old(dedupe), atom.dedupe) else old(dedupe)
    {
      hide Runs.FanOut, CommitAtom, Acked;
      CommitAtomIs(runs[r], atom);
      var savedRuns, savedDedupe := runs, dedupe;
      WriteResult(r, atom.nodeId, atom.result);
      runs := runs[r := runs[r].(history := runs[r].history + atom.log)];
      if atom.dedupe.Some? {
        var d := atom.dedupe.value;
        dedupe := dedupe[DedupeKey(d.workflowId, d.nodeName, d.key) := DedupeOutcome(d.succeeded, d.result)];
      }
      var enqueued;
      ok, enqueued := FanOut(r, atom.dependents, atom.downstream);
      if ok {
        ok := CountAndAck(r, enqueued, atom.ack);
      }
      if !ok {
        runs, dedupe := savedRuns, savedDedupe;
      }
    }

    // ----- runs

    /**
     Insert or replace a run's row. Rows other tables hold for a reused id stay; with nothing of an earlier run
     claimable, the head about to be enqueued will be the one pending job.
     */
    method CreateRun(r: string) returns (ok: bool)
      modifies `runs
      ensures ok <==> r != ""
      ensures var was := if r in old(runs) then old(runs)[r] else NO_RUN;
              runs == if ok then old(runs)[r := Created(was)] else old(runs)
      ensures ok && r in old(runs) ==> var was, run := old(runs)[r], runs[r];
                && AllLive(run) && (IdsOk(was) ==> IdsOk(run))
                && (forall claim :: ClaimValid(run, claim) <==> ClaimValid(was, claim))
                && (run.pending == |run.queue| + 1 <==> LiveJobs(was) == map[])
    {
      ok := r != "";
      if ok {
        var was := if r in runs then runs[r] else NO_RUN;
        CreatedBooks(was);
        runs := runs[r := was.(status := Running, pending := 1, history := [], fired := 0, queue := LiveJobs(was), rows := LiveRows(was))];
      }
    }

    method SetRunStatus(r: string, status: Status)
      modifies `runs
      ensures runs == if r in old(runs) then old(runs)[r := old(runs)[r].(status := status)] else old(runs)
    {
      if r in runs {
        runs := runs[r := runs[r].(status := status)];
      }
    }

    /** Cancel: mark the run, drop its unclaimed jobs and its parked waits. What a worker holds is all that is left. */
    method CancelRun(r: string)
      modifies `runs
      ensures runs == if r in old(runs) then old(runs)[r := Cancel(old(runs)[r])] else old(runs)
      ensures r in old(runs) ==> var was, run := old(runs)[r], runs[r];
                && run.status == Cancelled && run.parked == map[]
                && (forall id :: Claimable(run, id) <==> JobHeld(was, id))
                && (forall id :: id in run.timers <==> TimerHeld(was, id))
    {
      if r in runs {
        CancelExactly(runs[r]);
      }
      SetRunStatus(r, Cancelled);
      if r in runs {
        var run := runs[r];
        runs := runs[r := run.(
                     rows := Discarded(run.rows),
                     timers := ClaimedTimers(run.timers))];
        runs := runs[r := runs[r].(parked := map[])];
      }
    }

    // ----- parked waits and buffered signals

    method WriteContinuation(r: string, n: NodeId, cont: Continuation)
      requires r in runs
      modifies `runs
      ensures runs == old(runs)[r := old(runs[r]).(parked := old(runs[r]).parked[n := cont])]
    {
      runs := runs[r := runs[r].(parked := runs[r].parked[n := cont])];
    }

    /** Enqueue the one-shot timer job of a wait. */
    method EnqueueTimer(r: string, n: NodeId)
      requires r in runs
      modifies `runs
      ensures var run := old(runs[r]);
              runs == old(runs)[r := run.(timers := run.timers[run.nextId := Timer(n, None)], nextId := run.nextId + 1)]
    {
      var run := runs[r];
      runs := runs[r := run.(timers := run.timers[run.nextId := Timer(n, None)], nextId := run.nextId + 1)];
    }

    method DeleteContinuation(r: string, n: NodeId)
      requires r in runs
      modifies `runs
      ensures runs == old(runs)[r := old(runs[r]).(parked := old(runs[r]).parked - {n})]
    {
      runs := runs[r := runs[r].(parked := runs[r].parked - {n})];
    }

    method ContinuationCount(r: string) returns (n: nat)
      requires r in runs
      ensures n == 0 <==> runs[r].parked == map[]
    {
      n := |runs[r].parked|;
      assert |runs[r].parked.Keys| == n;
    }

    /** Buffer a signal: it will be found under its name unless an older one of that name is. */
    method BufferSignal(name: string, payload: Json)
      modifies `buffered
      ensures buffered == old(buffered) + [Buffered(name, payload)]
      ensures forall n :: OldestPayload(buffered, n) ==
                if n == name && OldestPayload(old(buffered), n).None? then Some(payload) else OldestPayload(old(buffered), n)
    {
      forall n
        ensures OldestPayload(buffered + [Buffered(name, payload)], n) ==
                if n == name && OldestPayload(buffered, n).None? then Some(payload) else OldestPayload(buffered, n)
      {
        OldestOfMore(buffered, name, payload, n);
      }
      buffered := buffered + [Buffered(name, payload)];
    }

    /** Consume the oldest buffered signal of a name, with every other entry equal to it. */
    method TakeBufferedSignal(name: string) returns (payload: Option<Json>)
      modifies `buffered
      ensures payload == OldestPayload(old(buffered), name)
      ensures buffered == if payload.Some? then Without(old(buffered), Buffered(name, payload.value)) else old(buffered)
    {
      var i := 0;
      while i < |buffered| && buffered[i].name != name
        invariant 0 <= i <= |buffered|
        invariant forall j :: 0 <= j < i ==> buffered[j].name != name
        invariant buffered == old(buffered)
      {
        i := i + 1;
      }
      OldestAfter(buffered, name, i);
      if i == |buffered| {
        return None;
      }
      payload := Some(buffered[i].payload);
      var gone := Buffered(name, buffered[i].payload);
      var kept: seq<Buffered> := [];
      var j := 0;
      while j < |buffered|
        invariant 0 <= j <= |buffered|
        invariant kept == Without(buffered[..j], gone) && buffered == old(buffered)
      {
        WithoutNext(buffered[..j], buffered[j], gone);
        assert buffered[..j + 1] == buffered[..j] + [buffered[j]];
        if buffered[j].name != gone.name || buffered[j].payload != gone.payload {
          kept := kept + [buffered[j]];
        }
        j := j + 1;
      }
      assert buffered[..j] == buffered;
      buffered := kept;
    }
  }

  lemma NothingReady(run: Run, dependents: seq<NodeId>, ready: set<NodeId>)
    ensures ReadyJobs(dependents, ready, []) == [] && Enqueue(run, []) == run
  {
  }

  /** The end of an atom: pending counted and the claim acked, or an error if the claim is no longer valid. */
  function Acked(run: Run, enqueued: nat, ack: Option<Claim>): Option<Run> {
    match ack
    case None => Some(run.(pending := run.pending + enqueued))
    case Some(claim) =>
      if ClaimValid(run, claim) then Some(Remove(run.(pending := run.pending + enqueued - 1), claim.id)) else None
  }

  lemma CommitAtomIs(run: Run, atom: NodeAtom)
    ensures var written := run.(results := run.results[atom.nodeId := atom.result], history := run.history + atom.log);
            CommitAtom(run, atom) ==
            match Runs.FanOut(written, atom.dependents, atom.downstream)
            case None => None
            case Some((fanned, n)) => Acked(fanned, n, atom.ack)
  {
    hide Runs.FanOut;
  }

  lemma AckOfAdjusted(run: Run, claim: Claim, delta: int)
    ensures ClaimValid(run.(pending := run.pending + delta), claim) == ClaimValid(run, claim)
  {
  }
}
