/** Delivering signals: when a delivery fails, and that no accepted signal is lost. */
module Deliveries {
  import opened Values
  import opened Jobs
  import opened Runs
  import opened Plans
  import opened Invariant
  import opened Landing
  import opened Handlers
  import opened Preservation
  import opened Steps
  import opened Outcomes
  import opened ForeachRuns
  import opened Unfolding
  import opened Databases
  import opened Signals
  import Attempts

  /** A wait of a waiting run is parked on the name. An empty name is none. */
  predicate Awaits(runs: map<string, Run>, w: ParkedWait, name: string) {
    && name != "" && w.runId in runs && runs[w.runId].status == Waiting
    && w.node in runs[w.runId].parked && runs[w.runId].parked[w.node].signal == name
  }

  /** Two different waits are parked on the name. */
  ghost predicate Contested(runs: map<string, Run>, name: string) {
    exists v, w :: v != w && Awaits(runs, v, name) && Awaits(runs, w, name)
  }

  lemma AwaitsIsParkedOn(runs: map<string, Run>, name: string)
    ensures forall w :: w in ParkedOn(runs, name) <==> Awaits(runs, w, name)
  {
    forall w
      ensures w in ParkedOn(runs, name) <==> Awaits(runs, w, name)
    {
      if Awaits(runs, w, name) {
        assert ParkedWait(w.runId, w.node) == w;
      }
    }
  }

  lemma OneOf<T>(s: set<T>, x: T)
    requires x in s
    ensures |s| == 1 <==> forall y :: y in s ==> y == x
  {
    assert |s - {x}| == |s| - 1;
    assert |s| == 1 <==> s - {x} == {};
    assert s - {x} == {} <==> forall y :: y in s ==> y == x;
  }

  /** A delivery is rejected exactly if two different waits are parked on the name, and then the store stays as it was. */
  lemma RejectedExactly(db: Db, name: string, payload: Json)
    ensures Deliver(db, name, payload).1.Ambiguous? <==> Contested(db.runs, name)
    ensures Contested(db.runs, name) ==> Deliver(db, name, payload).0 == db
  {
    hide Resume, Awaits, ParkedOn;
    AwaitsIsParkedOn(db.runs, name);
    var waits := ParkedOn(db.runs, name);
    if waits != {} {
      var w :| w in waits;
      OneOf(waits, w);
    }
  }

  /** What the signal's payload becomes in a wait's result. */
  function SignalResult(payload: Json): Json {
    JObj(map["source" := JStr("signal"), "payload" := payload])
  }

  /** The parked wait `w` completed with this payload, and nothing else happened: no other run, no other wait, no buffered signal. */
  ghost predicate Woke(db: Db, after: Db, w: ParkedWait, payload: Json)
    requires w.runId in db.runs && w.node in db.runs[w.runId].parked
  {
    var before := db.runs[w.runId];
    var cont := before.parked[w.node];
    var c := Completion(w.node, cont.nodeName, false, None, cont.input, SignalResult(payload), ByResume);
    && after == db.(runs := after.runs)
    && after.runs.Keys == db.runs.Keys && (forall r :: r in db.runs && r != w.runId ==> after.runs[r] == db.runs[r])
    && after.runs[w.runId].history == before.history + [c]
    && after.runs[w.runId].results == before.results[w.node := SignalResult(payload)]
    && after.runs[w.runId].parked == before.parked - {w.node}
    && after.runs[w.runId].timers == before.timers
  }

  lemma ResumeWakes(p: Plan, run: Run, n: NodeId, payload: Json)
    requires RunInv(p, run) && run.status == Waiting && n in run.parked
    ensures var after := Resume(run, n, "signal", payload); var cont := run.parked[n];
            && after.history == run.history + [Completion(n, cont.nodeName, false, None, cont.input, SignalResult(payload), ByResume)]
            && after.results == run.results[n := SignalResult(payload)]
            && after.parked == run.parked - {n} && after.timers == run.timers
  {
    hide RunInv, Frontier, Grown, IdsOk, AllLive, Core, Covered, Resume, DoneSet;
    var after, ids := ResumeLands(p, run, n, "signal", payload);
  }

  /**
   No accepted signal is lost, in any store that keeps its invariant: if a wait is parked on the name, it completes
   with the payload; if none is, the signal is buffered behind all others. Nothing else happens.
   */
  lemma NothingLost(origins: Origins, db: Db, name: string, payload: Json)
    requires ParkInv(origins, db) && !Contested(db.runs, name)
    ensures var after := Deliver(db, name, payload).0;
            && (forall w :: Awaits(db.runs, w, name) ==>
                  w.runId in db.runs && w.node in db.runs[w.runId].parked && Woke(db, after, w, payload))
            && ((forall w :: !Awaits(db.runs, w, name)) ==> after == db.(buffered := db.buffered + [Buffered(name, payload)]))
  {
    hide Resume, ParkedOn, RunInv, Unfolds;
    AwaitsIsParkedOn(db.runs, name);
    var waits := ParkedOn(db.runs, name);
    if waits != {} {
      var w :| w in waits;
      assert forall v :: v in waits ==> v == w by { assert Awaits(db.runs, w, name); }
      OneOf(waits, w);
      var p :| Tracks(origins[w.runId], p, db.runs[w.runId]);
      ResumeWakes(p, db.runs[w.runId], w.node, payload);
    }
  }

  // ----- a send-signal node

  lemma StillClaimed(db: Db, name: string, payload: Json, r: string, claim: Claim)
    requires r in db.runs && ClaimValid(db.runs[r], claim) && claim.id < db.runs[r].nextId
    ensures var after := Deliver(db, name, payload).0.runs;
            r in after && ClaimValid(after[r], claim) && after[r].queue[claim.id] == db.runs[r].queue[claim.id]
  {
    hide Resume;
    forall n: NodeId
      ensures Attempts.Kept(db.runs[r], Resume(db.runs[r], n, "signal", payload), claim.id)
    {
      Attempts.ResumeLeaves(db.runs[r], n, "signal", payload, claim.id);
    }
  }

  /** A run stays open when a wait is resumed. */
  lemma StaysOpen(run: Run, n: NodeId, payload: Json)
    requires Attempts.Open(run)
    ensures Attempts.Open(Resume(run, n, "signal", payload))
  {
    if run.status == Waiting && n in run.parked {
      hide Decrement, ReadyJobs, Enqueue, NextJobs;
      var cont := run.parked[n];
      var c := Waking(cont, "signal", payload);
      match Decrement(run.remaining, cont.dependents)
      case None =>
      case Some((m, ready)) =>
        var written := run.(results := run.results[cont.nodeId := c.result], history := run.history + [c]);
        EnqueueSpec(written.(remaining := m), ReadyJobs(cont.dependents, ready, NextJobs(c, cont.downstream)));
    }
  }

  lemma DeliveredOpen(db: Db, name: string, payload: Json, r: string)
    requires r in db.runs && Attempts.Open(db.runs[r])
    ensures var after := Deliver(db, name, payload).0.runs; r in after && Attempts.Open(after[r])
  {
    hide Resume, Attempts.Open;
    forall n: NodeId
      ensures Attempts.Open(Resume(db.runs[r], n, "signal", payload))
    {
      StaysOpen(db.runs[r], n, payload);
    }
  }

  /** A claimed send-signal node, not skipped, of an open run. */
  ghost predicate Sends(db: Db, r: string, claim: Claim) {
    && r in db.runs && Attempts.Open(db.runs[r]) && ClaimValid(db.runs[r], claim)
    && db.runs[r].queue[claim.id].def.nodeType.SendSignal? && !db.runs[r].queue[claim.id].skip
  }

  /** The attempt of a node is recorded as failed: nothing completes, and nothing but its own run is touched. */
  ghost predicate NotSent(db: Db, after: Db, r: string, job: NodeJob) {
    && r in db.runs && r in after.runs && after.runs == db.runs[r := after.runs[r]] && after.buffered == db.buffered
    && after.runs[r].history == db.runs[r].history
    && job.nodeId in after.runs[r].results && Attempts.Tells(after.runs[r].results[job.nodeId], OtherCause)
  }

  /** The node completes with its value. */
  ghost predicate Sent(db: Db, after: Db, r: string, job: NodeJob, value: Json) {
    && r in db.runs && r in after.runs && after.runs == db.runs[r := after.runs[r]] && after.buffered == db.buffered
    && after.runs[r].history == db.runs[r].history + [Completion(job.nodeId, job.def.nodeName, false, None, job.input, value, ByCommit)]
  }

  function AfterSending(how: Delivery, value: Json): Outcome {
    if how.Ambiguous? then Broke(OtherCause) else Output(value)
  }

  /** A send-signal node completes exactly if its signal was accepted. Otherwise the attempt is recorded as failed, and nothing else happens. */
  lemma SentExactly(lim: Limits, origins: Origins, db: Db, r: string, claim: Claim, key: string, name: string,
          payload: Json, value: Json) returns (delivered: Db, how: Delivery, after: Db)
    requires ParkInv(origins, db) && Sends(db, r, claim)
    ensures (delivered, how) == Deliver(db, name, payload)
    ensures r in delivered.runs && HasJob(delivered.runs[r], claim.id) && Fits(delivered.runs[r].queue[claim.id], AfterSending(how, value))
    ensures after == HandleJob(lim, delivered, r, claim, key, AfterSending(how, value))
    ensures Contested(db.runs, name) ==> NotSent(db, after, r, db.runs[r].queue[claim.id])
    ensures !Contested(db.runs, name) ==> Sent(delivered, after, r, db.runs[r].queue[claim.id], value)
  {
    hide Deliver, ParkInv, Contested, Handle, HandleJob, Attempts.Tells;
    SenderId(origins, db, r, claim);
    RejectedExactly(db, name, payload);
    StillClaimed(db, name, payload, r, claim);
    DeliveredOpen(db, name, payload, r);
    var (d, h) := Deliver(db, name, payload);
    delivered, how := d, h;
    var run := delivered.runs[r];
    after := HandleJob(lim, delivered, r, claim, key, AfterSending(how, value));
    SendHandles(lim, delivered, r, claim, key, AfterSending(how, value));
    if Contested(db.runs, name) {
      SendFails(lim, run, claim);
    } else {
      EventRun(origins, db, name, payload, r);
      SendFinishes(lim, origins[r], run, claim, value);
    }
  }

  lemma SenderId(origins: Origins, db: Db, r: string, claim: Claim)
    requires ParkInv(origins, db) && r in db.runs && ClaimValid(db.runs[r], claim)
    ensures claim.id < db.runs[r].nextId
  {
    hide RunInv, Unfolds, NoMissedSignal;
    var p :| Tracks(origins[r], p, db.runs[r]);
    Books(p, db.runs[r]);
  }

  lemma EventRun(origins: Origins, db: Db, name: string, payload: Json, r: string)
    requires ParkInv(origins, db) && r in db.runs
    ensures var after := Deliver(db, name, payload).0.runs; r in after && r in origins && RunOk(origins[r], after[r])
  {
    hide RunOk, NoMissedSignal, NextDb;
    var lim := Limits(0, 0, 0);
    EventKeeps(lim, origins, db, OnSignal(name, payload));
    SignalIs(lim, db, name, payload);
    DeliverKeys(db, name, payload);
  }

  lemma SignalIs(lim: Limits, db: Db, name: string, payload: Json)
    ensures NextDb(lim, db, OnSignal(name, payload)) == Deliver(db, name, payload).0
  {
  }

  lemma DeliverKeys(db: Db, name: string, payload: Json)
    ensures Deliver(db, name, payload).0.runs.Keys == db.runs.Keys
  {
    hide Resume;
  }

  lemma SendHandles(lim: Limits, db: Db, r: string, claim: Claim, key: string, out: Outcome)
    requires r in db.runs && HasJob(db.runs[r], claim.id) && db.runs[r].queue[claim.id].def.nodeType.SendSignal? && !out.WaitFor?
    ensures var after := HandleJob(lim, db, r, claim, key, out);
            after.runs == db.runs[r := Handle(lim, db.runs[r], claim, out)] && after.buffered == db.buffered
  {
    hide Handle, FailureOf, WithFailure;
  }

  lemma SendFails(lim: Limits, run: Run, claim: Claim)
    requires Attempts.Open(run) && HasJob(run, claim.id) && run.queue[claim.id].def.nodeType.SendSignal? && !run.queue[claim.id].skip
    ensures var after := Handle(lim, run, claim, Broke(OtherCause)); var n := run.queue[claim.id].nodeId;
            after.history == run.history && n in after.results && Attempts.Tells(after.results[n], OtherCause)
  {
    hide FailureResult, EffectiveInput, Attempts.Tells, Finish, FinishOrFail, FanForeach, Park, Retry, Shelve;
    Attempts.FailureTells(OtherCause);
    FailureIsQuiet(lim, run, claim);
    hide RecordFailure;
  }

  lemma FailureIsQuiet(lim: Limits, run: Run, claim: Claim)
    requires HasJob(run, claim.id)
    ensures var after := RecordFailure(lim, run, claim, OtherCause);
            after.history == run.history && after.results == run.results[run.queue[claim.id].nodeId := FailureResult(OtherCause)]
  {
    hide FailureResult, EffectiveInput;
  }

  lemma SendFinishes(lim: Limits, p0: Plan, run: Run, claim: Claim, value: Json)
    requires RunOk(p0, run) && Attempts.Open(run) && ClaimValid(run, claim)
    requires run.queue[claim.id].def.nodeType.SendSignal? && !run.queue[claim.id].skip
    ensures var job := run.queue[claim.id];
            Handle(lim, run, claim, Output(value)).history
            == run.history + [Completion(job.nodeId, job.def.nodeName, false, None, job.input, value, ByCommit)]
  {
    hide RunInv, Unfolds, Finish, FinishOrFail, RecordFailure;
    var p :| Tracks(p0, p, run);
    FinishedKeeps(lim, p, run, claim, Completing(run.queue[claim.id], None, run.queue[claim.id].input, value));
  }

  // ----- a claimed wait

  /** Entry `i` is the oldest signal buffered under the name. */
  predicate Oldest(buffered: seq<Buffered>, name: string, i: nat) {
    i < |buffered| && buffered[i].name == name && forall j :: 0 <= j < i ==> buffered[j].name != name
  }

  lemma {:induction false} OldestIs(buffered: seq<Buffered>, name: string, i: nat)
    requires Oldest(buffered, name, i)
    ensures OldestPayload(buffered, name) == Some(buffered[i].payload)
  {
    if i > 0 {
      OldestIs(buffered[1..], name, i - 1);
    }
  }

  lemma {:induction false} SomeOldest(buffered: seq<Buffered>, name: string)
    requires OldestPayload(buffered, name).Some?
    ensures exists i: nat :: Oldest(buffered, name, i)
  {
    if buffered[0].name == name {
      assert Oldest(buffered, name, 0);
    } else {
      SomeOldest(buffered[1..], name);
      var i: nat :| Oldest(buffered[1..], name, i);
      var next := i + 1;
      assert Oldest(buffered, name, next);
    }
  }

  /** Positions in ascending order. */
  predicate Ascending(at: seq<nat>, n: nat) {
    (forall k :: 0 <= k < |at| ==> at[k] < n) && forall k, l :: 0 <= k < l < |at| ==> at[k] < at[l]
  }

  /** `rest` is what is left of the buffered signals without the entries equal to `gone`, in their order. */
  ghost predicate IsRest(buffered: seq<Buffered>, gone: Buffered, rest: seq<Buffered>) {
    && multiset(rest) == multiset(buffered)[gone := 0]
    && exists at: seq<nat> :: Ascending(at, |buffered|) && |at| == |rest| && forall k :: 0 <= k < |at| ==> rest[k] == buffered[at[k]]
  }

  function Shifted(at: seq<nat>): (r: seq<nat>)
    ensures |r| == |at| && forall k :: 0 <= k < |at| ==> r[k] == at[k] + 1
  {
    seq(|at|, k requires 0 <= k < |at| => at[k] + 1)
  }

  lemma {:induction false} WithoutCounts(buffered: seq<Buffered>, gone: Buffered)
    ensures multiset(Without(buffered, gone)) == multiset(buffered)[gone := 0]
  {
    if buffered != [] {
      WithoutCounts(buffered[1..], gone);
      assert buffered == [buffered[0]] + buffered[1..];
    }
  }

  lemma {:induction false} WithoutOrder(buffered: seq<Buffered>, gone: Buffered) returns (at: seq<nat>)
    ensures Ascending(at, |buffered|) && |at| == |Without(buffered, gone)|
    ensures forall k :: 0 <= k < |at| ==> Without(buffered, gone)[k] == buffered[at[k]]
  {
    if buffered == [] {
      at := [];
    } else {
      var tail := WithoutOrder(buffered[1..], gone);
      at := if buffered[0] == gone then Shifted(tail) else [0] + Shifted(tail);
    }
  }

  lemma WithoutIsRest(buffered: seq<Buffered>, gone: Buffered)
    ensures IsRest(buffered, gone, Without(buffered, gone))
  {
    WithoutCounts(buffered, gone);
    var at := WithoutOrder(buffered, gone);
    hide Without, Ascending;
  }

  /** What the wait's job leaves when it parks. */
  function Parking(job: NodeJob, signal: string, runAt: int): Continuation {
    Continuation(job.nodeId, job.def.nodeName, job.input, job.dependents, job.downstream, signal, runAt)
  }

  /**
   A claimed wait. If a signal of its name is buffered, it completes with the oldest one's payload, which leaves the
   buffer with its equals. Otherwise it parks under its name, and with a time it gets a timer job of its own.
   */
  lemma WaitExactly(lim: Limits, p: Plan, db: Db, r: string, claim: Claim, signal: string, runAt: int)
    requires r in db.runs && OpenWait(p, db.runs[r], claim)
    ensures var run := db.runs[r]; var job := run.queue[claim.id]; var after := HandleWait(lim, db, r, claim, signal, runAt);
            && r in after.runs && after == db.(runs := db.runs[r := after.runs[r]], buffered := after.buffered)
            && (forall i: nat :: signal != "" && Oldest(db.buffered, signal, i) ==>
                  && IsRest(db.buffered, db.buffered[i], after.buffered)
                  && after.runs[r].history == run.history + [Completion(job.nodeId, job.def.nodeName, false, None, job.input,
                                                                        SignalResult(db.buffered[i].payload), ByCommit)])
            && (signal == "" || (forall b :: b in db.buffered ==> b.name != signal) ==>
                  && after.buffered == db.buffered
                  && after.runs[r] == run.(
                       status := Waiting, pending := run.pending - 1, queue := run.queue - {claim.id}, rows := run.rows - {claim.id},
                       parked := run.parked[job.nodeId := Parking(job, signal, runAt)],
                       timers := if runAt == 0 then run.timers else run.timers[run.nextId := Timer(job.nodeId, None)],
                       nextId := if runAt == 0 then run.nextId else run.nextId + 1))
  {
    hide RunInv, Handle, Oldest, IsRest;
    var run := db.runs[r];
    var buffered := OldestPayload(db.buffered, signal);
    if signal != "" && buffered.Some? {
      SomeOldest(db.buffered, signal);
      var i: nat :| Oldest(db.buffered, signal, i);
      forall j: nat | Oldest(db.buffered, signal, j)
        ensures j == i
      {
        SameOldest(db.buffered, signal, i, j);
      }
      OldestIs(db.buffered, signal, i);
      WaitTakes(lim, p, run, claim, signal, runAt, buffered.value);
      OldestEntry(db.buffered, signal, i);
      WithoutIsRest(db.buffered, db.buffered[i]);
      hide Without;
    } else {
      forall i: nat
        ensures signal != "" ==> !Oldest(db.buffered, signal, i)
      {
        if signal != "" && Oldest(db.buffered, signal, i) {
          OldestIs(db.buffered, signal, i);
        }
      }
      WaitParks(lim, p, run, claim, signal, runAt, buffered);
    }
  }

  /**
   A wait takes every entry equal to the signal it completes with: it takes just its own exactly if there is no other.
   The others are then lost, in that no second wait completes with them.
   */
  lemma TakesTwins(buffered: seq<Buffered>, gone: Buffered, rest: seq<Buffered>)
    requires IsRest(buffered, gone, rest) && gone in buffered
    ensures gone !in rest
    ensures |rest| + 1 == |buffered| <==> multiset(buffered)[gone] == 1
  {
    assert multiset(buffered)[gone] >= 1 && multiset(rest)[gone] == 0;
    assert multiset(rest) + multiset{}[gone := multiset(buffered)[gone]] == multiset(buffered);
    assert |multiset(rest)| == |rest| && |multiset(buffered)| == |buffered|;
  }

  /** The same signal sent twice before its wait: the wait completes once, and nothing is left for another. */
  lemma TwinsAreOne(lim: Limits, p: Plan, db: Db, r: string, claim: Claim, signal: string, runAt: int, payload: Json)
    requires r in db.runs && OpenWait(p, db.runs[r], claim) && signal != ""
    requires db.buffered == [Buffered(signal, payload), Buffered(signal, payload)]
    ensures HandleWait(lim, db, r, claim, signal, runAt).buffered == []
  {
    hide RunInv, HandleWait, IsRest;
    assert Oldest(db.buffered, signal, 0);
    WaitExactly(lim, p, db, r, claim, signal, runAt);
    var rest := HandleWait(lim, db, r, claim, signal, runAt).buffered;
    TakesTwins(db.buffered, Buffered(signal, payload), rest);
    RestIsOld(db.buffered, db.buffered[0], rest);
    if rest != [] {
      HasMember(rest);
    }
  }

  lemma HasMember<T>(s: seq<T>)
    requires s != []
    ensures exists x :: x in s
  {
    assert s[0] in s;
  }

  lemma RestIsOld(buffered: seq<Buffered>, gone: Buffered, rest: seq<Buffered>)
    requires IsRest(buffered, gone, rest)
    ensures forall b :: b in rest ==> b in buffered
  {
    forall b | b in rest
      ensures b in buffered
    {
      assert multiset(rest)[b] > 0;
    }
  }

  lemma OldestEntry(buffered: seq<Buffered>, name: string, i: nat)
    requires Oldest(buffered, name, i)
    ensures i < |buffered| && buffered[i] == Buffered(name, buffered[i].payload) && buffered[i] in buffered
  {
  }

  lemma SameOldest(buffered: seq<Buffered>, name: string, i: nat, j: nat)
    requires Oldest(buffered, name, i) && Oldest(buffered, name, j)
    ensures i == j
  {
  }

  lemma WaitTakes(lim: Limits, p: Plan, run: Run, claim: Claim, signal: string, runAt: int, payload: Json)
    requires OpenWait(p, run, claim) && signal != ""
    ensures var job := run.queue[claim.id];
            Handle(lim, run, claim, WaitFor(signal, runAt, Some(payload))).history
            == run.history + [Completion(job.nodeId, job.def.nodeName, false, None, job.input, SignalResult(payload), ByCommit)]
  {
    hide RunInv, Finish, FinishOrFail, RecordFailure;
    FinishedKeeps(lim, p, run, claim, Completing(run.queue[claim.id], None, run.queue[claim.id].input, WakeResult("signal", payload)));
  }

  lemma WaitParks(lim: Limits, p: Plan, run: Run, claim: Claim, signal: string, runAt: int, buffered: Option<Json>)
    requires OpenWait(p, run, claim) && (buffered.None? || signal == "")
    ensures var job := run.queue[claim.id]; var after := Handle(lim, run, claim, WaitFor(signal, runAt, buffered));
            && after.history == run.history
            && after == run.(
                 status := Waiting, pending := run.pending - 1, queue := run.queue - {claim.id}, rows := run.rows - {claim.id},
                 parked := run.parked[job.nodeId := Parking(job, signal, runAt)],
                 timers := if runAt == 0 then run.timers else run.timers[run.nextId := Timer(job.nodeId, None)],
                 nextId := if runAt == 0 then run.nextId else run.nextId + 1)
  {
    hide RunInv, Finish, FinishOrFail, RecordFailure;
  }

  // ----- every history

  /** The wait handled by this step completed with the payload of the signal `b`, the oldest of its name. */
  ghost predicate Takes(db: Db, after: Db, e: Event, b: Buffered) {
    && e.OnWait? && e.signal == b.name && e.run in db.runs && e.run in after.runs && e.claim.id in db.runs[e.run].queue
    && (exists i: nat :: Oldest(db.buffered, b.name, i) && db.buffered[i] == b)
    && var job := db.runs[e.run].queue[e.claim.id];
    after.runs[e.run].history == db.runs[e.run].history
                                 + [Completion(job.nodeId, job.def.nodeName, false, None, job.input, SignalResult(b.payload), ByCommit)]
  }

  /** A buffered signal leaves the buffer only with a wait of its name that completes with its payload, oldest first. */
  lemma LeavesIfTaken(lim: Limits, origins: Origins, db: Db, e: Event, b: Buffered)
    requires ParkInv(origins, db) && Happens(db, e) && b in db.buffered
    ensures b in NextDb(lim, db, e).buffered || Takes(db, NextDb(lim, db, e), e, b)
  {
    hide RunInv, Unfolds, NoMissedSignal, Next, Deliver, HandleWait, IsRest, Oldest;
    match e
    case OnRun(_, _) =>
    case OnSignal(name, payload) => DeliverBuffers(db, name, payload);
    case OnWait(r, claim, signal, runAt) =>
      var p :| Tracks(origins[r], p, db.runs[r]);
      WaitLeavesIfTaken(lim, p, db, r, claim, signal, runAt, b);
  }

  lemma DeliverBuffers(db: Db, name: string, payload: Json)
    ensures forall b :: b in db.buffered ==> b in Deliver(db, name, payload).0.buffered
  {
    hide Resume, ParkedOn;
  }

  lemma WaitLeavesIfTaken(lim: Limits, p: Plan, db: Db, r: string, claim: Claim, signal: string, runAt: int, b: Buffered)
    requires Happens(db, OnWait(r, claim, signal, runAt)) && RunInv(p, db.runs[r]) && b in db.buffered
    ensures var e := OnWait(r, claim, signal, runAt);
            b in NextDb(lim, db, e).buffered || Takes(db, NextDb(lim, db, e), e, b)
  {
    hide RunInv, HandleWait, Oldest, IsRest;
    var run := Take(db.runs[r], claim);
    var taken := db.(runs := db.runs[r := run]);
    TakeKeeps(p, db.runs[r], claim);
    if !Attempts.Open(run) || run.queue[claim.id].skip {
      ClosedWait(lim, taken, r, claim, signal, runAt);
    } else {
      WaitExactly(lim, p, taken, r, claim, signal, runAt);
      if signal != "" && OldestPayload(db.buffered, signal).Some? {
        SomeOldest(db.buffered, signal);
        var i: nat :| Oldest(db.buffered, signal, i);
        OldestEntry(db.buffered, signal, i);
        if b != db.buffered[i] {
          InRest(db.buffered, db.buffered[i], HandleWait(lim, taken, r, claim, signal, runAt).buffered, b);
        }
      }
    }
  }

  lemma ClosedWait(lim: Limits, db: Db, r: string, claim: Claim, signal: string, runAt: int)
    requires r in db.runs && HasJob(db.runs[r], claim.id) && db.runs[r].queue[claim.id].def.nodeType.Wait?
    requires !Attempts.Open(db.runs[r]) || db.runs[r].queue[claim.id].skip
    ensures HandleWait(lim, db, r, claim, signal, runAt).buffered == db.buffered
  {
    hide Handle, OldestPayload;
  }

  lemma InRest(buffered: seq<Buffered>, gone: Buffered, rest: seq<Buffered>, b: Buffered)
    requires IsRest(buffered, gone, rest) && b in buffered && b != gone
    ensures b in rest
  {
    assert multiset(rest)[b] == multiset(buffered)[b] > 0;
  }

  /** Between the states `i` and `j` a wait took the signal. */
  ghost predicate TakenBetween(dbs: seq<Db>, events: seq<Event>, i: nat, j: nat, b: Buffered) {
    exists k: nat :: i <= k < j && k < |events| && k + 1 < |dbs| && Takes(dbs[k], dbs[k + 1], events[k], b)
  }

  /** Along every history of the store, a buffered signal stays buffered until a wait completes with it. */
  lemma {:induction false} BufferedUntilTaken(lim: Limits, origins: Origins, dbs: seq<Db>, events: seq<Event>, i: nat,
          j: nat, b: Buffered)
    requires Bounded(lim) && IsStoreHistory(lim, dbs, events) && ParkInv(origins, dbs[0]) && i <= j < |dbs|
    requires b in dbs[i].buffered
    ensures b in dbs[j].buffered || TakenBetween(dbs, events, i, j, b)
  {
    hide ParkInv, NextDb, Takes, Happens;
    if i < j {
      BufferedUntilTaken(lim, origins, dbs, events, i, j - 1, b);
      if b in dbs[j - 1].buffered {
        StoreHistoryKeeps(lim, origins, dbs, events, j - 1);
        LeavesIfTaken(lim, origins, dbs[j - 1], events[j - 1], b);
      }
    }
  }

  /**
   No accepted signal is ever lost: in every history, a signal sent under a name that no two waits contest completes
   the wait parked on it, or is buffered until some wait of its name completes with its payload.
   */
  lemma AcceptedArrives(lim: Limits, origins: Origins, dbs: seq<Db>, events: seq<Event>, s: nat, j: nat)
    requires Bounded(lim) && IsStoreHistory(lim, dbs, events) && ParkInv(origins, dbs[0]) && s < j < |dbs|
    requires events[s].OnSignal? && !Contested(dbs[s].runs, events[s].name)
    ensures var b := Buffered(events[s].name, events[s].payload);
            || (exists w :: && Awaits(dbs[s].runs, w, b.name) && w.runId in dbs[s].runs && w.node in dbs[s].runs[w.runId].parked
                            && Woke(dbs[s], dbs[s + 1], w, b.payload))
            || b in dbs[j].buffered || TakenBetween(dbs, events, s, j, b)
  {
    hide ParkInv, NextDb, Takes, Happens, Woke, Awaits, Contested, Deliver;
    var name, payload := events[s].name, events[s].payload;
    StoreHistoryKeeps(lim, origins, dbs, events, s);
    NothingLost(origins, dbs[s], name, payload);
    SignalIs(lim, dbs[s], name, payload);
    if forall w :: !Awaits(dbs[s].runs, w, name) {
      var next := s + 1;
      assert dbs[next].buffered == dbs[s].buffered + [Buffered(name, payload)];
      BufferedUntilTaken(lim, origins, dbs, events, next, j, Buffered(name, payload));
    }
  }

  // ----- timers

  /** The wait has its timer job. */
  ghost predicate HasTimer(run: Run, n: NodeId) {
    exists k :: k in run.timers && run.timers[k].node == n
  }

  /** Every parked wait with a time has its timer job, in a run that waits. */
  ghost predicate TimersOk(run: Run) {
    run.status == Waiting ==> forall n :: n in run.parked && run.parked[n].runAt != 0 ==> HasTimer(run, n)
  }

  /** No wait was parked and no timer lost, and the run waits only if it did before. */
  predicate SameWaits(run: Run, after: Run) {
    after.parked == run.parked && after.timers == run.timers && (after.status == Waiting ==> run.status == Waiting)
  }

  lemma CommitWaits(run: Run, atom: NodeAtom)
    ensures CommitAtom(run, atom).Some? ==> SameWaits(run, CommitAtom(run, atom).value)
  {
    hide Decrement, ReadyJobs, Enqueue;
    match Decrement(run.remaining, atom.dependents)
    case None =>
    case Some((m, ready)) =>
      var written := run.(results := run.results[atom.nodeId := atom.result], history := run.history + atom.log);
      EnqueueSpec(written.(remaining := m), ReadyJobs(atom.dependents, ready, atom.downstream));
  }

  lemma FailureWaits(lim: Limits, run: Run, claim: Claim, cause: Cause)
    requires HasJob(run, claim.id)
    ensures SameWaits(run, RecordFailure(lim, run, claim, cause))
  {
    hide EffectiveInput, FailureResult;
  }

  lemma FinishWaits(lim: Limits, run: Run, claim: Claim, c: Completion)
    requires HasJob(run, claim.id)
    ensures SameWaits(run, Finish(run, claim, c)) && SameWaits(run, FinishOrFail(lim, run, claim, c))
  {
    CommitWaits(run, AtomOf(run.queue[claim.id], claim, c, None));
    FailureWaits(lim, run, claim, OtherCause);
    hide CommitAtom, AtomOf, RecordFailure;
  }

  lemma FanWaits(lim: Limits, run: Run, claim: Claim, items: seq<Json>)
    requires HasJob(run, claim.id)
    ensures SameWaits(run, FanForeach(lim, run, claim, items))
  {
    hide CommitAtom, ScatterAtom, RecordFailure, BodyJobs, SetRemaining, ItemsResult;
    var job := run.queue[claim.id];
    if job.loop.Some? {
      var loop := job.loop.value;
      var counted := run.(remaining := SetRemaining(run.remaining, loop.rejoins, |items|));
      CommitWaits(counted, ScatterAtom(claim, Completing(job, None, job.input, ItemsResult(items)), BodyJobs(job, loop, items)));
      FailureWaits(lim, counted, claim, OtherCause);
    }
  }

  /** Handling a job parks its wait, or leaves waits and timers alone. */
  lemma HandleWaits(lim: Limits, run: Run, claim: Claim, out: Outcome)
    requires HasJob(run, claim.id) && Fits(run.queue[claim.id], out)
    ensures var after := Handle(lim, run, claim, out);
            SameWaits(run, after) || (ClaimValid(run, claim) && out.WaitFor? && after == CheckComplete(Park(run, claim, out.signal, out.runAt)))
  {
    hide Finish, FinishOrFail, FanForeach, Park, RecordFailure, CheckComplete, EffectiveInput, SameWaits;
    var job := run.queue[claim.id];
    FailureWaits(lim, run, claim, OtherCause);
    if !Attempts.Open(run) {
      ShelveWaits(run, claim);
    } else if job.skip {
      FinishWaits(lim, run, claim, Completing(job, None, job.input, SKIPPED));
    } else {
      match out
      case Broke(cause) => FailureWaits(lim, run, claim, cause);
      case WaitFor(_, _, buffered) =>
        if buffered.Some? {
          FinishWaits(lim, run, claim, Completing(job, None, job.input, WakeResult("signal", buffered.value)));
        }
      case Output(value) =>
        if value.JStr? {
          FinishWaits(lim, run, claim, Completing(job, Some(value.s), job.input, BranchResult(value.s)));
        }
        if value.JArr? {
          FanWaits(lim, run, claim, value.items);
        }
        FinishWaits(lim, run, claim, Completing(job, None, job.input, value));
        FinishWaits(lim, run, claim, Completing(job, None, EffectiveInput(run.results, job), value));
    }
  }

  lemma ShelveWaits(run: Run, claim: Claim)
    ensures SameWaits(run, Shelve(run, claim, Dropped))
  {
  }

  lemma SameWaitsOk(run: Run, after: Run)
    requires TimersOk(run) && SameWaits(run, after)
    ensures TimersOk(after)
  {
  }

  lemma ParkTimers(run: Run, claim: Claim, signal: string, runAt: int)
    requires TimersOk(run) && ClaimValid(run, claim) && Attempts.Open(run) && (run.status == Running ==> run.parked == map[])
    requires forall k :: k in run.timers ==> k < run.nextId
    ensures TimersOk(CheckComplete(Park(run, claim, signal, runAt)))
  {
    var n := run.queue[claim.id].nodeId;
    var after := Park(run, claim, signal, runAt);
    if runAt != 0 {
      assert after.timers[run.nextId].node == n;
    }
    forall m | m in run.parked && HasTimer(run, m)
      ensures HasTimer(after, m)
    {
      var k :| k in run.timers && run.timers[k].node == m;
      assert k in after.timers && after.timers[k] == run.timers[k];
    }
  }

  /** A resume leaves the timers of the other waits. */
  lemma ResumeTimers(p: Plan, run: Run, n: NodeId, source: string, payload: Json)
    requires RunInv(p, run) && TimersOk(run)
    ensures TimersOk(Resume(run, n, source, payload))
    ensures n !in Resume(run, n, source, payload).parked || Resume(run, n, source, payload).status != Waiting
  {
    hide RunInv, Frontier, Grown, IdsOk, AllLive, Core, Covered, Resume, DoneSet;
    if run.status == Waiting && n in run.parked {
      var after, ids := ResumeLands(p, run, n, source, payload);
    } else {
      NothingResumed(run, n, source, payload);
    }
  }

  lemma NothingResumed(run: Run, n: NodeId, source: string, payload: Json)
    requires run.status != Waiting || n !in run.parked
    ensures Resume(run, n, source, payload) == run
  {
  }

  lemma TickTimers(p: Plan, run: Run, claim: Claim)
    requires RunInv(p, run) && TimersOk(run) && claim.id in run.timers
    ensures TimersOk(FireTimer(TakeTimer(run, claim), claim))
  {
    hide RunInv, Resume, TimersOk;
    var taken := TakeTimer(run, claim);
    TimersElsewhere(p, run, taken.timers);
    TakenTimers(run, claim);
    var n := run.timers[claim.id].node;
    ResumeTimers(p, taken, n, "timer", JNull);
    ResumeKeepsTimers(taken, n, "timer", JNull);
    AckedTimers(Resume(taken, n, "timer", JNull), claim.id);
  }

  lemma TakenTimers(run: Run, claim: Claim)
    requires claim.id in run.timers && TimersOk(run)
    ensures TimersOk(TakeTimer(run, claim))
  {
    forall n | HasTimer(run, n)
      ensures HasTimer(TakeTimer(run, claim), n)
    {
      var k :| k in run.timers && run.timers[k].node == n;
      assert TakeTimer(run, claim).timers[k].node == n;
    }
  }

  lemma AckedTimers(run: Run, id: nat)
    requires TimersOk(run) && id in run.timers && (run.timers[id].node !in run.parked || run.status != Waiting)
    ensures TimersOk(run.(timers := run.timers - {id}))
  {
    var after := run.(timers := run.timers - {id});
    forall n | n in run.parked && HasTimer(run, n) && run.status == Waiting
      ensures HasTimer(after, n)
    {
      var k :| k in run.timers && run.timers[k].node == n;
      assert k in after.timers && after.timers[k].node == n;
    }
  }

  /** Every step keeps a timer job for each parked wait that has a time. */
  lemma StepTimers(lim: Limits, p: Plan, run: Run, a: Action)
    requires RunInv(p, run) && TimersOk(run) && Enabled(run, a)
    ensures TimersOk(Next(lim, run, a))
  {
    hide RunInv, Handle, FireTimer, Resume, TimersOk, Park, CheckComplete;
    match a
    case Work(claim, out) =>
      TakeKeeps(p, run, claim);
      var taken := Take(run, claim);
      TakenWaits(run, claim);
      HandleWaits(lim, taken, claim, out);
      Books(p, taken);
      if SameWaits(taken, Handle(lim, taken, claim, out)) {
        SameWaitsOk(taken, Handle(lim, taken, claim, out));
      } else {
        ParksOpen(lim, taken, claim, out);
        TimerIds(taken);
        ParkTimers(taken, claim, out.signal, out.runAt);
      }
    case Tick(claim) => TickTimers(p, run, claim);
    case Wake(n, payload) => ResumeTimers(p, run, n, "signal", payload);
    case Stop => CancelledTimers(run);
  }

  lemma TimerIds(run: Run)
    requires IdsOk(run)
    ensures forall k :: k in run.timers ==> k < run.nextId
  {
  }

  lemma TakenWaits(run: Run, claim: Claim)
    requires HasJob(run, claim.id) && TimersOk(run)
    ensures TimersOk(Take(run, claim))
  {
  }

  lemma CancelledTimers(run: Run)
    ensures TimersOk(Cancel(run))
  {
  }

  lemma ParksOpen(lim: Limits, run: Run, claim: Claim, out: Outcome)
    requires HasJob(run, claim.id) && Fits(run.queue[claim.id], out) && !SameWaits(run, Handle(lim, run, claim, out))
    ensures Attempts.Open(run)
  {
    if !Attempts.Open(run) {
      ShelveWaits(run, claim);
    }
  }

  /** The timer `id` fired: its wait completed, by the timer and without a payload, and only that one. */
  ghost predicate FiresFor(run: Run, after: Run, id: nat)
    requires id in run.timers && run.timers[id].node in run.parked
  {
    var n := run.timers[id].node;
    var cont := run.parked[n];
    var result := JObj(map["source" := JStr("timer"), "payload" := JNull]);
    && after.history == run.history + [Completion(n, cont.nodeName, false, None, cont.input, result, ByResume)]
    && after.results == run.results[n := result]
    && after.parked == run.parked - {n} && after.timers == run.timers - {id}
  }

  lemma Fires(lim: Limits, p: Plan, run: Run, claim: Claim)
    requires RunInv(p, run) && run.status == Waiting && claim.id in run.timers && run.timers[claim.id].node in run.parked
    ensures FiresFor(run, Next(lim, run, Tick(claim)), claim.id)
  {
    hide RunInv, Frontier, Grown, IdsOk, AllLive, Core, Covered, Resume, DoneSet;
    var taken := TakeTimer(run, claim);
    TimersElsewhere(p, run, taken.timers);
    var after, ids := ResumeLands(p, taken, run.timers[claim.id].node, "timer", JNull);
    assert taken.timers - {claim.id} == run.timers - {claim.id};
  }

  /**
   In every history of supported steps a parked wait with a time has a timer job for as long as it is parked in a
   waiting run, and that timer, whenever it fires, completes exactly that wait.
   */
  lemma {:induction false} TimersThroughout(lim: Limits, p0: Plan, p: Plan, runs: seq<Run>, acts: seq<Action>, i: nat)
    requires IsForeachHistory(lim, p0, p, runs, acts) && i <= |acts| && TimersOk(runs[0])
    ensures TimersOk(runs[i])
    ensures forall claim: Claim :: claim.id in runs[i].timers && runs[i].status == Waiting && runs[i].timers[claim.id].node in runs[i].parked ==>
              FiresFor(runs[i], Next(lim, runs[i], Tick(claim)), claim.id)
  {
    hide Tracks, Next, Supported, TimersOk, PlanAlong, RunInv;
    if i > 0 {
      TimersThroughout(lim, p0, p, runs, acts, i - 1);
      HistoryTracks(lim, p0, p, runs, acts, i - 1);
      assert Enabled(runs[i - 1], acts[i - 1]) && runs[i] == Next(lim, runs[i - 1], acts[i - 1]);
      TrackedInv(p0, PlanAlong(p, runs, acts[..i - 1]), runs[i - 1]);
      StepTimers(lim, PlanAlong(p, runs, acts[..i - 1]), runs[i - 1], acts[i - 1]);
    }
    HistoryTracks(lim, p0, p, runs, acts, i);
    TrackedInv(p0, PlanAlong(p, runs, acts[..i]), runs[i]);
    forall claim: Claim | claim.id in runs[i].timers && runs[i].status == Waiting && runs[i].timers[claim.id].node in runs[i].parked
      ensures FiresFor(runs[i], Next(lim, runs[i], Tick(claim)), claim.id)
    {
      Fires(lim, PlanAlong(p, runs, acts[..i]), runs[i], claim);
    }
  }

  lemma TrackedInv(p0: Plan, p: Plan, run: Run)
    requires Tracks(p0, p, run)
    ensures RunInv(p, run)
  {
    hide RunInv, Unfolds;
  }
}
