/** Parking, signals and timers across all runs of the store. */
module Signals {
  import opened Values
  import opened Jobs
  import opened Runs
  import opened Plans
  import opened Invariant
  import opened Landing
  import opened Handlers
  import opened Preservation
  import opened Steps
  import opened Outcomes
  import opened ForeachRuns
  import opened Unfolding
  import opened Databases

  // ----- one run: where parked waits come from

  /** Whatever the run is parked on after, it was parked on before, or it is a new wait on `added`. */
  ghost predicate Quieter(before: Run, after: Run, added: string) {
    after.status == Waiting ==>
      forall n :: n in after.parked ==>
        || (before.status == Waiting && n in before.parked && before.parked[n].signal == after.parked[n].signal)
        || after.parked[n].signal == added
  }

  lemma CommitQuiet(run: Run, atom: NodeAtom)
    ensures CommitAtom(run, atom).Some? ==>
              CommitAtom(run, atom).value.parked == run.parked && CommitAtom(run, atom).value.status == run.status
  {
    hide Decrement, ReadyJobs, Enqueue;
    match Decrement(run.remaining, atom.dependents)
    case None =>
    case Some((m, ready)) =>
      var written := run.(results := run.results[atom.nodeId := atom.result], history := run.history + atom.log);
      EnqueueSpec(written.(remaining := m), ReadyJobs(atom.dependents, ready, atom.downstream));
  }

  lemma FailureQuiet(lim: Limits, run: Run, claim: Claim, cause: Cause)
    requires HasJob(run, claim.id)
    ensures Quieter(run, RecordFailure(lim, run, claim, cause), "")
  {
    hide EffectiveInput, FailureResult;
  }

  lemma FinishQuiet(lim: Limits, run: Run, claim: Claim, c: Completion)
    requires HasJob(run, claim.id)
    ensures Quieter(run, Finish(run, claim, c), "") && Quieter(run, FinishOrFail(lim, run, claim, c), "")
  {
    CommitQuiet(run, AtomOf(run.queue[claim.id], claim, c, None));
    FailureQuiet(lim, run, claim, OtherCause);
    hide CommitAtom, AtomOf, RecordFailure;
  }

  lemma FanQuiet(lim: Limits, run: Run, claim: Claim, items: seq<Json>)
    requires HasJob(run, claim.id)
    ensures Quieter(run, FanForeach(lim, run, claim, items), "")
  {
    var job := run.queue[claim.id];
    if job.loop.Some? {
      hide CommitAtom, ScatterAtom, RecordFailure, BodyJobs, SetRemaining;
      var loop := job.loop.value;
      var counted := run.(remaining := SetRemaining(run.remaining, loop.rejoins, |items|));
      CommitQuiet(counted, ScatterAtom(claim, Completing(job, None, job.input, ItemsResult(items)), BodyJobs(job, loop, items)));
      FailureQuiet(lim, counted, claim, OtherCause);
    }
  }

  lemma ParkQuiet(run: Run, claim: Claim, signal: string, runAt: int)
    requires ClaimValid(run, claim) && (run.status == Running ==> run.parked == map[]) && (run.status == Running || run.status == Waiting)
    ensures Quieter(run, CheckComplete(Park(run, claim, signal, runAt)), signal)
  {
  }

  /** Only a wait that finds no buffered signal adds to what a run is parked on, and then only its own name. */
  lemma HandleQuiet(lim: Limits, run: Run, claim: Claim, out: Outcome)
    requires HasJob(run, claim.id) && Fits(run.queue[claim.id], out)
    requires run.status == Running ==> run.parked == map[]
    ensures var after := Handle(lim, run, claim, out);
            Quieter(run, after, "") ||
            (out.WaitFor? && (out.buffered.None? || out.signal == "") && Quieter(run, after, out.signal))
  {
    hide Finish, FinishOrFail, FanForeach, Park, RecordFailure, CheckComplete, EffectiveInput, Quieter;
    var job := run.queue[claim.id];
    if run.status != Running && run.status != Waiting {
      ShelveQuiet(run, claim);
    } else if job.skip {
      FinishQuiet(lim, run, claim, Completing(job, None, job.input, SKIPPED));
    } else {
      match out
      case Broke(cause) => FailureQuiet(lim, run, claim, cause);
      case WaitFor(signal, runAt, buffered) =>
        if buffered.Some? && signal != "" {
          FinishQuiet(lim, run, claim, Completing(job, None, job.input, WakeResult("signal", buffered.value)));
        } else if ClaimValid(run, claim) {
          ParkQuiet(run, claim, signal, runAt);
        } else {
          FailureQuiet(lim, run, claim, OtherCause);
        }
      case Output(value) =>
        FailureQuiet(lim, run, claim, OtherCause);
        if value.JStr? {
          FinishQuiet(lim, run, claim, Completing(job, Some(value.s), job.input, BranchResult(value.s)));
        }
        if value.JArr? {
          FanQuiet(lim, run, claim, value.items);
        }
        FinishQuiet(lim, run, claim, Completing(job, None, job.input, value));
        FinishQuiet(lim, run, claim, Completing(job, None, EffectiveInput(run.results, job), value));
    }
  }

  lemma ShelveQuiet(run: Run, claim: Claim)
    ensures Quieter(run, Shelve(run, claim, Dropped), "")
  {
  }

  lemma ResumeQuiet(run: Run, n: NodeId, source: string, payload: Json)
    ensures Quieter(run, Resume(run, n, source, payload), "")
  {
    if run.status == Waiting && n in run.parked {
      hide Decrement, ReadyJobs, Enqueue, NextJobs;
      var cont := run.parked[n];
      var c := Waking(cont, source, payload);
      match Decrement(run.remaining, cont.dependents)
      case None =>
      case Some((m, ready)) =>
        var written := run.(results := run.results[cont.nodeId := c.result], history := run.history + [c]);
        EnqueueSpec(written.(remaining := m), ReadyJobs(cont.dependents, ready, NextJobs(c, cont.downstream)));
    }
  }

  // ----- all runs

  /** A signal is buffered only while nobody waits for it. */
  ghost predicate NoMissedSignal(db: Db) {
    forall b :: b in db.buffered ==> ParkedOn(db.runs, b.name) == {}
  }

  /** The plan each run of the store was started with. */
  type Origins = map<string, Plan>

  /** Every run follows an unfolding of the plan it was started with. */
  ghost predicate AllOk(origins: Origins, runs: map<string, Run>) {
    forall r :: r in runs ==> r in origins && RunOk(origins[r], runs[r])
  }

  /** The store keeps every run's invariant, and never holds a signal that a parked wait is waiting for. */
  ghost predicate ParkInv(origins: Origins, db: Db) {
    AllOk(origins, db.runs) && NoMissedSignal(db)
  }

  /** A store step: one run's step (other than a wait's), a wait's handling, a signal. */
  datatype Event =
    | OnRun(run: string, action: Action)
    | OnWait(run: string, claim: Claim, signal: string, runAt: int)
    | OnSignal(name: string, payload: Json)

  ghost predicate Happens(db: Db, e: Event) {
    match e
    case OnRun(r, a) =>
      && r in db.runs && Enabled(db.runs[r], a) && Supported(db.runs[r], a) && !a.Wake?
      && (a.Work? ==> !a.out.WaitFor?)
    case OnWait(r, claim, _, _) =>
      && r in db.runs && HasJob(db.runs[r], claim.id) && db.runs[r].rows[claim.id].place == Live
      && db.runs[r].queue[claim.id].def.nodeType.Wait?
    case OnSignal(_, _) => true
  }

  ghost function NextDb(lim: Limits, db: Db, e: Event): Db
    requires Happens(db, e)
  {
    match e
    case OnRun(r, a) => db.(runs := db.runs[r := Next(lim, db.runs[r], a)])
    case OnWait(r, claim, signal, runAt) =>
      HandleWait(lim, db.(runs := db.runs[r := Take(db.runs[r], claim)]), r, claim, signal, runAt)
    case OnSignal(name, payload) => Deliver(db, name, payload).0
  }

  /** Replacing one run by a quieter one leaves no new wait parked on any other name. */
  lemma QuietUpdate(runs: map<string, Run>, r: string, after: Run, added: string, name: string)
    requires r in runs && Quieter(runs[r], after, added) && name != added
    ensures ParkedOn(runs[r := after], name) <= ParkedOn(runs, name)
  {
  }

  lemma RunOkRunning(p0: Plan, run: Run)
    requires RunOk(p0, run)
    ensures run.status == Running ==> run.parked == map[]
  {
    hide RunInv, Unfolds;
    var p :| Tracks(p0, p, run);
    Books(p, run);
  }

  lemma TakeQuiet(run: Run, claim: Claim, after: Run, added: string)
    requires HasJob(run, claim.id) && Quieter(Take(run, claim), after, added)
    ensures Quieter(run, after, added)
  {
  }

  /** A step that is not a wait's parks nothing. */
  lemma NextQuiet(lim: Limits, p0: Plan, run: Run, a: Action)
    requires RunOk(p0, run) && Enabled(run, a) && (a.Work? ==> !a.out.WaitFor?)
    ensures Quieter(run, Next(lim, run, a), "")
  {
    RunOkRunning(p0, run);
    hide RunOk, Handle, Resume, Quieter;
    match a
    case Work(claim, out) =>
      HandleQuiet(lim, Take(run, claim), claim, out);
      TakeQuiet(run, claim, Next(lim, run, a), "");
    case Tick(claim) => TickQuiet(run, claim);
    case Wake(n, payload) => ResumeQuiet(run, n, "signal", payload);
    case Stop => StopQuiet(run);
  }

  lemma TickQuiet(run: Run, claim: Claim)
    requires claim.id in run.timers
    ensures Quieter(run, FireTimer(TakeTimer(run, claim), claim), "")
  {
    ResumeQuiet(TakeTimer(run, claim), run.timers[claim.id].node, "timer", JNull);
    hide Resume;
  }

  lemma StopQuiet(run: Run)
    ensures Quieter(run, Cancel(run), "")
  {
  }

  lemma OldestIsBuffered(buffered: seq<Buffered>, name: string)
    requires OldestPayload(buffered, name).Some?
    ensures Buffered(name, OldestPayload(buffered, name).value) in buffered
  {
    if buffered[0].name != name {
      OldestIsBuffered(buffered[1..], name);
    }
  }

  lemma WaitKeepsMissed(lim: Limits, db: Db, r: string, claim: Claim, signal: string, runAt: int)
    requires NoMissedSignal(db)
    requires r in db.runs && HasJob(db.runs[r], claim.id) && db.runs[r].queue[claim.id].def.nodeType.Wait?
    requires db.runs[r].status == Running ==> db.runs[r].parked == map[]
    ensures NoMissedSignal(HandleWait(lim, db, r, claim, signal, runAt))
  {
    var buffered := OldestPayload(db.buffered, signal);
    HandleQuiet(lim, db.runs[r], claim, WaitFor(signal, runAt, buffered));
    hide Handle, Quieter;
    var after := HandleWait(lim, db, r, claim, signal, runAt);
    forall b | b in after.buffered
      ensures ParkedOn(after.runs, b.name) == {}
    {
      assert b in db.buffered;
      var added := if Quieter(db.runs[r], after.runs[r], "") then "" else signal;
      if b.name != "" {
        var i :| 0 <= i < |db.buffered| && db.buffered[i] == b;
        QuietUpdate(db.runs, r, after.runs[r], added, b.name);
      }
    }
  }

  lemma SignalKeepsMissed(db: Db, name: string, payload: Json)
    requires NoMissedSignal(db)
    ensures NoMissedSignal(Deliver(db, name, payload).0)
  {
    var waits := ParkedOn(db.runs, name);
    if waits != {} && |waits| == 1 {
      var w :| w in waits && Deliver(db, name, payload).0
        == db.(runs := db.runs[w.runId := Resume(db.runs[w.runId], w.node, "signal", payload)]);
      ResumeQuiet(db.runs[w.runId], w.node, "signal", payload);
      hide Resume, Quieter;
      forall b | b in db.buffered
        ensures ParkedOn(Deliver(db, name, payload).0.runs, b.name) == {}
      {
        if b.name != "" {
          QuietUpdate(db.runs, w.runId, Resume(db.runs[w.runId], w.node, "signal", payload), "", b.name);
        }
      }
    }
  }

  /** The wait's step as a step of its run. */
  lemma WaitIsStep(lim: Limits, db: Db, r: string, claim: Claim, signal: string, runAt: int)
    requires Happens(db, OnWait(r, claim, signal, runAt))
    ensures var a := Work(claim, WaitFor(signal, runAt, OldestPayload(db.buffered, signal)));
            && Enabled(db.runs[r], a) && Supported(db.runs[r], a)
            && NextDb(lim, db, OnWait(r, claim, signal, runAt)).runs == db.runs[r := Next(lim, db.runs[r], a)]
  {
  }

  lemma SignalIsStep(db: Db, name: string, payload: Json)
    ensures var after := Deliver(db, name, payload).0;
            after.runs == db.runs ||
            exists r, n :: r in db.runs && after.runs == db.runs[r := Resume(db.runs[r], n, "signal", payload)]
  {
  }

  lemma RunUpdate(origins: Origins, db: Db, after: Db, r: string, run: Run)
    requires AllOk(origins, db.runs)
    requires r in origins && RunOk(origins[r], run) && after.runs == db.runs[r := run]
    ensures AllOk(origins, after.runs)
  {
    hide RunOk;
  }

  /**
   Parking, over every step of all runs: each run keeps its invariant, for an unfolding of the plan it was
   started with (so it is `waiting` exactly when it has a parked wait), and a buffered signal never coexists with a wait parked on its name.
   */
  lemma EventKeeps(lim: Limits, origins: Origins, db: Db, e: Event)
    requires Bounded(lim) && ParkInv(origins, db) && Happens(db, e)
    ensures ParkInv(origins, NextDb(lim, db, e))
  {
    hide RunOk, Quieter, Handle, NoMissedSignal;
    match e
    case OnRun(r, a) =>
      StepRunOk(lim, origins[r], db.runs[r], a);
      NextQuiet(lim, origins[r], db.runs[r], a);
      RunUpdate(origins, db, NextDb(lim, db, e), r, Next(lim, db.runs[r], a));
      hide Next;
      QuietRunMisses(db, r, Next(lim, db.runs[r], a));
    case OnWait(r, claim, signal, runAt) =>
      WaitIsStep(lim, db, r, claim, signal, runAt);
      var a := Work(claim, WaitFor(signal, runAt, OldestPayload(db.buffered, signal)));
      StepRunOk(lim, origins[r], db.runs[r], a);
      RunUpdate(origins, db, NextDb(lim, db, e), r, Next(lim, db.runs[r], a));
      TakeMisses(db, r, claim);
      RunOkRunning(origins[r], db.runs[r]);
      WaitKeepsMissed(lim, db.(runs := db.runs[r := Take(db.runs[r], claim)]), r, claim, signal, runAt);
    case OnSignal(name, payload) =>
      SignalIsStep(db, name, payload);
      SignalKeepsMissed(db, name, payload);
      var after := Deliver(db, name, payload).0;
      if after.runs != db.runs {
        var r, n :| r in db.runs && after.runs == db.runs[r := Resume(db.runs[r], n, "signal", payload)];
        StepRunOk(lim, origins[r], db.runs[r], Wake(n, payload));
        RunUpdate(origins, db, after, r, Resume(db.runs[r], n, "signal", payload));
      }
  }

  lemma QuietRunMisses(db: Db, r: string, run: Run)
    requires NoMissedSignal(db) && r in db.runs && Quieter(db.runs[r], run, "")
    ensures NoMissedSignal(db.(runs := db.runs[r := run]))
  {
    hide Quieter;
    forall b | b in db.buffered
      ensures ParkedOn(db.runs[r := run], b.name) == {}
    {
      if b.name != "" {
        QuietUpdate(db.runs, r, run, "", b.name);
      }
    }
  }

  lemma TakeMisses(db: Db, r: string, claim: Claim)
    requires NoMissedSignal(db) && r in db.runs && HasJob(db.runs[r], claim.id)
    ensures NoMissedSignal(db.(runs := db.runs[r := Take(db.runs[r], claim)]))
  {
    QuietRunMisses(db, r, Take(db.runs[r], claim));
  }

  /** The invariant is about runs and buffered signals only. */
  lemma ParkInvOf(origins: Origins, db: Db, same: Db)
    requires ParkInv(origins, db) && same.runs == db.runs && same.buffered == db.buffered
    ensures ParkInv(origins, same)
  {
    hide RunOk, ParkedOn;
  }

  /** The worker's handling of a claimed job, of any kind, is one of these steps on runs and buffered signals. */
  lemma JobIsEvent(lim: Limits, db: Db, r: string, claim: Claim, key: string, out: Outcome) returns (e: Event)
    requires r in db.runs && Enabled(db.runs[r], Work(claim, out)) && Supported(db.runs[r], Work(claim, out))
    ensures Happens(db, e)
    ensures var after := HandleJob(lim, db.(runs := db.runs[r := Take(db.runs[r], claim)]), r, claim, key, out);
            NextDb(lim, db, e).runs == after.runs && NextDb(lim, db, e).buffered == after.buffered
  {
    hide Handle, FailureOf, WithFailure;
    var taken := db.(runs := db.runs[r := Take(db.runs[r], claim)]);
    var job := db.runs[r].queue[claim.id];
    if out.WaitFor? {
      e := OnWait(r, claim, out.signal, out.runAt);
    } else {
      var k := KeyOf(job, key);
      var run := taken.runs[r];
      var hit := job.def.nodeType.Plain? && (run.status == Running || run.status == Waiting) && !job.skip
                 && key != "" && k in db.dedupe && db.dedupe[k].succeeded;
      e := OnRun(r, Work(claim, if hit then Output(db.dedupe[k].result) else out));
      assert taken.runs[r := Next(lim, db.runs[r], e.action)] == db.runs[r := Next(lim, db.runs[r], e.action)];
    }
  }

  ghost predicate IsStoreHistory(lim: Limits, dbs: seq<Db>, events: seq<Event>) {
    && |dbs| == |events| + 1
    && forall i :: 0 <= i < |events| ==> Happens(dbs[i], events[i]) && dbs[i + 1] == NextDb(lim, dbs[i], events[i])
  }

  lemma {:induction false} StoreHistoryKeeps(lim: Limits, origins: Origins, dbs: seq<Db>, events: seq<Event>, i: nat)
    requires Bounded(lim) && IsStoreHistory(lim, dbs, events) && ParkInv(origins, dbs[0]) && i < |dbs|
    ensures ParkInv(origins, dbs[i])
  {
    hide ParkInv, NextDb;
    if i > 0 {
      StoreHistoryKeeps(lim, origins, dbs, events, i - 1);
      EventKeeps(lim, origins, dbs[i - 1], events[i - 1]);
    }
  }

  /** A run is waiting exactly when it has a parked wait, unless it failed while one was parked. */
  lemma WaitingIsParked(origins: Origins, db: Db, r: string)
    requires ParkInv(origins, db) && r in db.runs
    ensures db.runs[r].status == Waiting ==> db.runs[r].parked != map[]
    ensures db.runs[r].parked != map[] ==> db.runs[r].status == Waiting || db.runs[r].status == Failed
  {
    var run := db.runs[r];
    var p :| Tracks(origins[r], p, run);
    hide Core, Covered, ResultsOk, IdsOk, Unfolds;
  }

  /** A completed node is parked no more. */
  lemma DoneNotParked(p: Plan, run: Run, n: NodeId)
    requires RunInv(p, run) && n in DoneSet(run.history)
    ensures n !in run.parked
  {
    if n in run.parked {
      ParkedNode(p, run, n);
    }
    hide RunInv;
  }

  /** A wait is resumed at most once: after it completed, no timer or signal changes anything but the timer itself. */
  lemma LateResumeIsNothing(p: Plan, run: Run, n: NodeId, source: string, payload: Json)
    requires RunInv(p, run) && n in DoneSet(run.history)
    ensures Resume(run, n, source, payload) == run
    ensures forall claim: Claim :: claim.id in run.timers && run.timers[claim.id].node == n ==>
              FireTimer(TakeTimer(run, claim), claim) == run.(timers := run.timers - {claim.id})
  {
    hide RunInv, DoneSet;
    DoneNotParked(p, run, n);
    forall claim: Claim | claim.id in run.timers && run.timers[claim.id].node == n
      ensures FireTimer(TakeTimer(run, claim), claim) == run.(timers := run.timers - {claim.id})
    {
      LateTimer(run, n, claim);
    }
  }

  lemma LateTimer(run: Run, n: NodeId, claim: Claim)
    requires n !in run.parked && claim.id in run.timers && run.timers[claim.id].node == n
    ensures FireTimer(TakeTimer(run, claim), claim) == run.(timers := run.timers - {claim.id})
  {
    assert TakeTimer(run, claim).timers - {claim.id} == run.timers - {claim.id};
  }

  /** What a wait's result says: a timer resumes with no payload, a signal with its own. */
  lemma WokenBy(p: Plan, run: Run, n: NodeId, claim: Claim, payload: Json)
    requires RunInv(p, run) && run.status == Waiting && n in run.parked
    ensures var signalled := Resume(run, n, "signal", payload);
            n in signalled.results && signalled.results[n] == WakeResult("signal", payload)
    ensures claim.id in run.timers && run.timers[claim.id].node == n ==>
              var fired := FireTimer(TakeTimer(run, claim), claim);
              n in fired.results && fired.results[n] == WakeResult("timer", JNull) && claim.id !in fired.timers
  {
    hide RunInv, Frontier, Grown, IdsOk, AllLive, Core, Covered, Resume;
    var after, ids := ResumeLands(p, run, n, "signal", payload);
    if claim.id in run.timers && run.timers[claim.id].node == n {
      var taken := TakeTimer(run, claim);
      TimersElsewhere(p, run, taken.timers);
      var woken, ids' := ResumeLands(p, taken, n, "timer", JNull);
    }
  }

  // ----- park and signal commute

  /** The jobs that completing `job` as `c` enqueues. */
  function Woken(run: Run, job: NodeJob, c: Completion): seq<NodeJob>
    requires Decrement(run.remaining, job.dependents).Some?
  {
    ReadyJobs(job.dependents, Decrement(run.remaining, job.dependents).value.1, NextJobs(c, job.downstream))
  }

  /** The completion of a claimed wait that a signal with this payload wakes. */
  function Waked(job: NodeJob, payload: Json, how: How): Completion {
    Completion(job.nodeId, job.def.nodeName, false, None, job.input, WakeResult("signal", payload), how)
  }

  /** How many ids a leftover timer job takes. */
  function Leftover(runAt: int): nat {
    if runAt != 0 then 1 else 0
  }

  /** A claimed wait whose completion can be fanned out. */
  ghost predicate AtWait(run: Run, claim: Claim) {
    && ClaimValid(run, claim) && claim.id < run.nextId
    && run.queue[claim.id].def.nodeType.Wait? && !run.queue[claim.id].skip
    && run.queue[claim.id].nodeId !in run.parked
    && (run.status == Running || run.status == Waiting)
    && (run.status == Running <==> run.parked == map[])
    && Decrement(run.remaining, run.queue[claim.id].dependents).Some?
  }

  lemma AtWaitQueue(run: Run, claim: Claim)
    requires AtWait(run, claim)
    ensures ClaimValid(run, claim) && run.queue[claim.id].def.nodeType.Wait? && !run.queue[claim.id].skip
    ensures run.status == Running || run.status == Waiting
  {
    hide Decrement;
  }

  /** A claimed wait, not skipped, of an open run that keeps its invariant. */
  ghost predicate OpenWait(p: Plan, run: Run, claim: Claim) {
    && RunInv(p, run) && (run.status == Running || run.status == Waiting) && ClaimValid(run, claim)
    && run.queue[claim.id].def.nodeType.Wait? && !run.queue[claim.id].skip
  }

  lemma IsAtWait(p: Plan, run: Run, claim: Claim)
    requires OpenWait(p, run, claim)
    ensures AtWait(run, claim)
  {
    hide Core, Covered, ResultsOk, Outstanding, HasToken, JobFor, CommitAtom, Grown;
    var c := Waked(run.queue[claim.id], JNull, ByCommit);
    var committed, ids := CommitLands(p, run, claim, c);
    CommitDecrements(run, AtomOf(run.queue[claim.id], claim, c, None));
    Detach(p, run, claim.id);
  }

  lemma CommitDecrements(run: Run, atom: NodeAtom)
    requires CommitAtom(run, atom).Some?
    ensures Decrement(run.remaining, atom.dependents).Some?
  {
  }

  /** The run after the wait completed, its jobs enqueued from `base` on. */
  ghost function AfterWait(run: Run, claim: Claim, c: Completion, base: nat): Run
    requires AtWait(run, claim)
  {
    var job := run.queue[claim.id];
    var jobs := Woken(run, job, c);
    Written(run, c).(
    pending := run.pending - 1 + |jobs|,
    remaining := Decrement(run.remaining, job.dependents).value.0,
    queue := (run.queue - {claim.id}) + NewTokens(base, jobs),
    rows := (run.rows - {claim.id}) + FreshRows(base, |jobs|),
    nextId := base + |jobs|)
  }

  function TimersAfter(run: Run, n: NodeId, runAt: int): map<nat, Timer> {
    if runAt != 0 then run.timers[run.nextId := Timer(n, None)] else run.timers
  }

  /** What parking a wait and then resuming it does. */
  lemma ParkThenSignal(run: Run, claim: Claim, signal: string, runAt: int, payload: Json)
    requires AtWait(run, claim)
    ensures var job := run.queue[claim.id];
            Resume(Park(run, claim, signal, runAt), job.nodeId, "signal", payload)
            == AfterWait(run, claim, Waked(job, payload, ByResume), run.nextId + Leftover(runAt)).(
                 timers := TimersAfter(run, job.nodeId, runAt))
  {
    hide Decrement, ReadyJobs, Enqueue, NextJobs, NewTokens, FreshRows;
    var job := run.queue[claim.id];
    var c := Waked(job, payload, ByResume);
    var parked := Park(run, claim, signal, runAt);
    assert parked.parked - {job.nodeId} == run.parked;
    EnqueueSpec(Written(parked, c).(remaining := Decrement(run.remaining, job.dependents).value.0), Woken(run, job, c));
  }

  /** What completing a wait on the spot does. */
  lemma SignalThenPark(run: Run, claim: Claim, payload: Json)
    requires AtWait(run, claim)
    ensures var job := run.queue[claim.id]; var c := Waked(job, payload, ByCommit);
            CommitAtom(run, AtomOf(job, claim, c, None)) == Some(AfterWait(run, claim, c, run.nextId))
  {
    hide Decrement, ReadyJobs, Enqueue, NextJobs, NewTokens, FreshRows;
    var job := run.queue[claim.id];
    var c := Waked(job, payload, ByCommit);
    var counted := Written(run, c).(remaining := Decrement(run.remaining, job.dependents).value.0);
    EnqueueThenRemove(counted, claim.id, Woken(run, job, c));
    EnqueueSpec(Remove(counted, claim.id), Woken(run, job, c));
  }

  /** What a wait enqueues does not depend on how it was woken. */
  lemma WokenEither(run: Run, job: NodeJob, payload: Json)
    requires Decrement(run.remaining, job.dependents).Some?
    ensures Woken(run, job, Waked(job, payload, ByResume)) == Woken(run, job, Waked(job, payload, ByCommit))
  {
    hide Decrement, ReadyJobs;
    assert NextJobs(Waked(job, payload, ByResume), job.downstream) == NextJobs(Waked(job, payload, ByCommit), job.downstream);
  }

  /**
   Two runs alike but for a timer job, how the wait was woken, and whether completion was noticed: the same
   jobs are enqueued, from ids one apart if there is a timer.
   */
  ghost predicate AlikeUpTo(run: Run, claim: Claim, payload: Json, runAt: int, a: Run, b: Run)
    requires AtWait(run, claim)
  {
    var job := run.queue[claim.id];
    var jobs := Woken(run, job, Waked(job, payload, ByCommit));
    && a.results == b.results && a.remaining == b.remaining && a.parked == b.parked && a.pending == b.pending && a.saved == b.saved
    && a.history == run.history + [Waked(job, payload, ByResume)]
    && b.history == run.history + [Waked(job, payload, ByCommit)]
    && a.queue == (run.queue - {claim.id}) + NewTokens(run.nextId + Leftover(runAt), jobs)
    && b.queue == (run.queue - {claim.id}) + NewTokens(run.nextId, jobs)
    && a.rows == (run.rows - {claim.id}) + FreshRows(run.nextId + Leftover(runAt), |jobs|)
    && b.rows == (run.rows - {claim.id}) + FreshRows(run.nextId, |jobs|)
    && a.timers == TimersAfter(run, job.nodeId, runAt)
    && b.timers == run.timers
  }

  lemma AlikeShapes(run: Run, claim: Claim, runAt: int, payload: Json, a: Run, b: Run)
    requires AtWait(run, claim)
    requires var job := run.queue[claim.id];
             && a == AfterWait(run, claim, Waked(job, payload, ByResume), run.nextId + Leftover(runAt)).(timers := TimersAfter(run, job.nodeId, runAt))
             && b == CheckComplete(AfterWait(run, claim, Waked(job, payload, ByCommit), run.nextId))
    ensures AlikeUpTo(run, claim, payload, runAt, a, b)
  {
    hide Decrement, NewTokens, FreshRows, Woken, TimersAfter, WakeResult;
    WokenEither(run, run.queue[claim.id], payload);
  }

  lemma AlikeStatuses(run: Run, claim: Claim, runAt: int, payload: Json, a: Run, b: Run)
    requires AtWait(run, claim)
    requires var job := run.queue[claim.id];
             && a == AfterWait(run, claim, Waked(job, payload, ByResume), run.nextId + Leftover(runAt)).(timers := TimersAfter(run, job.nodeId, runAt))
             && b == CheckComplete(AfterWait(run, claim, Waked(job, payload, ByCommit), run.nextId))
    ensures StatusesAlike(run, a, b)
  {
    hide Decrement, NewTokens, FreshRows, Woken, TimersAfter, WakeResult;
    WokenEither(run, run.queue[claim.id], payload);
  }

  /** The statuses agree exactly when something is pending or another wait is parked; else only `b` completed. */
  ghost predicate StatusesAlike(run: Run, a: Run, b: Run) {
    && a.status == run.status
    && (a.status == b.status && a.fired == b.fired <==> a.pending != 0 || run.status == Waiting)
    && (a.pending == 0 && run.status == Running ==> b.status == Completed && b.fired == a.fired + 1)
  }

  lemma ParkFirst(lim: Limits, run: Run, claim: Claim, signal: string, runAt: int, payload: Json) returns (a: Run)
    requires AtWait(run, claim) && signal != ""
    ensures var job := run.queue[claim.id];
            && a == Resume(Handle(lim, run, claim, WaitFor(signal, runAt, None)), job.nodeId, "signal", payload)
            && a == AfterWait(run, claim, Waked(job, payload, ByResume), run.nextId + Leftover(runAt)).(timers := TimersAfter(run, job.nodeId, runAt))
  {
    ParkThenSignal(run, claim, signal, runAt, payload);
    HandlePark(lim, run, claim, signal, runAt);
    hide Handle, Park, Resume, AfterWait, Decrement;
    a := Resume(Park(run, claim, signal, runAt), run.queue[claim.id].nodeId, "signal", payload);
  }

  lemma HandlePark(lim: Limits, run: Run, claim: Claim, signal: string, runAt: int)
    requires AtWait(run, claim)
    ensures Handle(lim, run, claim, WaitFor(signal, runAt, None)) == Park(run, claim, signal, runAt)
  {
    hide Decrement, RecordFailure, FinishOrFail, Finish;
  }

  lemma SignalFirst(lim: Limits, run: Run, claim: Claim, signal: string, runAt: int, payload: Json) returns (b: Run)
    requires AtWait(run, claim) && signal != ""
    ensures b == Handle(lim, run, claim, WaitFor(signal, runAt, Some(payload)))
    ensures b == CheckComplete(AfterWait(run, claim, Waked(run.queue[claim.id], payload, ByCommit), run.nextId))
  {
    SignalThenPark(run, claim, payload);
    hide CommitAtom, AtomOf, AfterWait, Decrement, RecordFailure, CheckComplete, WakeResult;
    b := CheckComplete(AfterWait(run, claim, Waked(run.queue[claim.id], payload, ByCommit), run.nextId));
  }

  lemma BothOrders(lim: Limits, run: Run, claim: Claim, signal: string, runAt: int, payload: Json)
    requires AtWait(run, claim) && signal != ""
    ensures var a := Resume(Handle(lim, run, claim, WaitFor(signal, runAt, None)), run.queue[claim.id].nodeId, "signal", payload);
            var b := Handle(lim, run, claim, WaitFor(signal, runAt, Some(payload)));
            AlikeUpTo(run, claim, payload, runAt, a, b) && StatusesAlike(run, a, b)
  {
    hide AfterWait, AlikeUpTo, StatusesAlike, Resume, Handle, CheckComplete, TimersAfter;
    var a := ParkFirst(lim, run, claim, signal, runAt, payload);
    var b := SignalFirst(lim, run, claim, signal, runAt, payload);
    AlikeShapes(run, claim, runAt, payload, a, b);
    AlikeStatuses(run, claim, runAt, payload, a, b);
  }

  /**
   A wait and the signal it waits for commute on every run that keeps its invariant: the same results, counters,
   jobs and pending, up to a leftover timer job. When nothing is left pending or parked, only the signal-first
   order notices that the run is complete.
   */
  lemma WaitAndSignalCommute(lim: Limits, p: Plan, run: Run, claim: Claim, signal: string, runAt: int, payload: Json)
    requires OpenWait(p, run, claim) && signal != ""
    ensures AtWait(run, claim)
    ensures var a := Resume(Handle(lim, run, claim, WaitFor(signal, runAt, None)), run.queue[claim.id].nodeId, "signal", payload);
            var b := Handle(lim, run, claim, WaitFor(signal, runAt, Some(payload)));
            AlikeUpTo(run, claim, payload, runAt, a, b) && StatusesAlike(run, a, b)
  {
    IsAtWait(p, run, claim);
    hide AtWait, AlikeUpTo, StatusesAlike, Resume, Handle, RunInv;
    BothOrders(lim, run, claim, signal, runAt, payload);
  }

  lemma {:induction false} OldestAppended(buffered: seq<Buffered>, name: string, payload: Json)
    requires OldestPayload(buffered, name).None?
    ensures OldestPayload(buffered + [Buffered(name, payload)], name) == Some(payload)
    ensures Without(buffered + [Buffered(name, payload)], Buffered(name, payload)) == buffered
  {
    if buffered != [] {
      assert (buffered + [Buffered(name, payload)])[1..] == buffered[1..] + [Buffered(name, payload)];
      assert buffered[0].name != name;
      OldestAppended(buffered[1..], name, payload);
      assert buffered == [buffered[0]] + buffered[1..];
    }
  }

  /** A run claimed at a wait for a signal nobody else waits for, with none of that name buffered. */
  ghost predicate Rendezvous(db: Db, r: string, claim: Claim, signal: string) {
    && r in db.runs && AtWait(db.runs[r], claim) && signal != ""
    && OldestPayload(db.buffered, signal).None?
    && ParkedOn(db.runs, signal) == {}
  }

  lemma StoreParkFirst(lim: Limits, db: Db, r: string, claim: Claim, signal: string, runAt: int, payload: Json)
    requires Rendezvous(db, r, claim, signal)
    ensures var run := db.runs[r]; var n := run.queue[claim.id].nodeId;
            Deliver(HandleWait(lim, db, r, claim, signal, runAt), signal, payload)
            == (db.(runs := db.runs[r := Resume(Handle(lim, run, claim, WaitFor(signal, runAt, None)), n, "signal", payload)]),
                Resumed(ParkedWait(r, n)))
  {
    hide AtWait, Handle, Resume;
    var run := db.runs[r];
    AtWaitQueue(run, claim);
    var n := run.queue[claim.id].nodeId;
    HandlePark(lim, run, claim, signal, runAt);
    var parked := db.runs[r := Handle(lim, run, claim, WaitFor(signal, runAt, None))];
    ParksOn(run, claim, signal, runAt);
    assert ParkedOn(parked, signal) == {ParkedWait(r, n)} by {
      OnlyThatWait(db.runs, r, parked[r], n, signal);
    }
    assert HandleWait(lim, db, r, claim, signal, runAt) == db.(runs := parked);
    assert parked[r := Resume(parked[r], n, "signal", payload)] == db.runs[r := Resume(parked[r], n, "signal", payload)];
  }

  lemma ParksOn(run: Run, claim: Claim, signal: string, runAt: int)
    requires AtWait(run, claim) && signal != ""
    ensures var after := Park(run, claim, signal, runAt); var n := run.queue[claim.id].nodeId;
            && after.status == Waiting && n in after.parked && after.parked[n].signal == signal
            && forall m :: m in after.parked && m != n ==> run.status == Waiting && m in run.parked && run.parked[m] == after.parked[m]
  {
    hide Decrement;
  }

  lemma OnlyThatWait(runs: map<string, Run>, r: string, after: Run, n: NodeId, signal: string)
    requires r in runs && ParkedOn(runs, signal) == {} && signal != ""
    requires after.status == Waiting && n in after.parked && after.parked[n].signal == signal
    requires forall m :: m in after.parked && m != n ==> runs[r].status == Waiting && m in runs[r].parked && runs[r].parked[m] == after.parked[m]
    ensures ParkedOn(runs[r := after], signal) == {ParkedWait(r, n)}
  {
    forall r', n' | r' in runs && r' != r
      ensures !(runs[r'].status == Waiting && n' in runs[r'].parked && runs[r'].parked[n'].signal == signal)
    {
      assert ParkedWait(r', n') !in ParkedOn(runs, signal);
    }
    forall n' | n' in after.parked && n' != n
      ensures after.parked[n'].signal != signal
    {
      assert ParkedWait(r, n') !in ParkedOn(runs, signal);
    }
  }

  lemma StoreSignalFirst(lim: Limits, db: Db, r: string, claim: Claim, signal: string, runAt: int, payload: Json)
    requires Rendezvous(db, r, claim, signal)
    ensures Deliver(db, signal, payload).1 == Kept
    ensures HandleWait(lim, Deliver(db, signal, payload).0, r, claim, signal, runAt)
            == db.(runs := db.runs[r := Handle(lim, db.runs[r], claim, WaitFor(signal, runAt, Some(payload)))])
  {
    hide AtWait, Handle, CheckComplete, AfterWait;
    var run := db.runs[r];
    AtWaitQueue(run, claim);
    OldestAppended(db.buffered, signal, payload);
    var b := SignalFirst(lim, run, claim, signal, runAt, payload);
    CompletesWait(run, claim, Waked(run.queue[claim.id], payload, ByCommit));
  }

  lemma CompletesWait(run: Run, claim: Claim, c: Completion)
    requires AtWait(run, claim)
    ensures CheckComplete(AfterWait(run, claim, c, run.nextId)).history == run.history + [c]
    ensures Parks(run, claim) && ClaimValid(run, claim)
  {
    hide Decrement, Woken, NewTokens, FreshRows;
  }

  /**
   Wait and signal commute over the store: parking first and signalling first leave the same buffered
   signals and other runs, and this run alike up to a leftover timer, whose firing later changes nothing
   else.
   */
  lemma StoreCommutes(lim: Limits, p: Plan, db: Db, r: string, claim: Claim, signal: string, runAt: int, payload: Json)
    requires r in db.runs && OpenWait(p, db.runs[r], claim) && signal != ""
    requires OldestPayload(db.buffered, signal).None? && ParkedOn(db.runs, signal) == {}
    ensures AtWait(db.runs[r], claim)
    ensures var n := db.runs[r].queue[claim.id].nodeId;
            var parkFirst := Deliver(HandleWait(lim, db, r, claim, signal, runAt), signal, payload).0;
            var signalFirst := HandleWait(lim, Deliver(db, signal, payload).0, r, claim, signal, runAt);
            && parkFirst == db.(runs := db.runs[r := parkFirst.runs[r]])
            && signalFirst == db.(runs := db.runs[r := signalFirst.runs[r]])
            && AlikeUpTo(db.runs[r], claim, payload, runAt, parkFirst.runs[r], signalFirst.runs[r])
            && StatusesAlike(db.runs[r], parkFirst.runs[r], signalFirst.runs[r])
            && RunInv(p, parkFirst.runs[r]) && RunInv(p, signalFirst.runs[r])
            && forall late: Claim :: late.id in parkFirst.runs[r].timers && parkFirst.runs[r].timers[late.id].node == n ==>
                 FireTimer(TakeTimer(parkFirst.runs[r], late), late) == parkFirst.runs[r].(timers := parkFirst.runs[r].timers - {late.id})
  {
    IsAtWait(p, db.runs[r], claim);
    hide RunInv, AtWait, Handle, Resume, AlikeUpTo, StatusesAlike, FireTimer, DoneSet;
    StoreParkFirst(lim, db, r, claim, signal, runAt, payload);
    StoreSignalFirst(lim, db, r, claim, signal, runAt, payload);
    var run := db.runs[r];
    AtWaitQueue(run, claim);
    BothOrders(lim, run, claim, signal, runAt, payload);
    var a, n := CommutedKeeps(lim, p, run, claim, signal, runAt, payload);
    LateResumeIsNothing(p, a, n, "timer", JNull);
  }

  lemma CommutedKeeps(lim: Limits, p: Plan, run: Run, claim: Claim, signal: string, runAt: int,
          payload: Json) returns (a: Run, n: NodeId)
    requires AtWait(run, claim) && signal != "" && RunInv(p, run)
    ensures n == run.queue[claim.id].nodeId
    ensures a == Resume(Handle(lim, run, claim, WaitFor(signal, runAt, None)), n, "signal", payload)
    ensures RunInv(p, a) && n in DoneSet(a.history)
    ensures RunInv(p, Handle(lim, run, claim, WaitFor(signal, runAt, Some(payload))))
  {
    hide RunInv, Handle, Resume, CheckComplete, FinishOrFail, Finish, Park, AtWait, DoneSet;
    AtWaitQueue(run, claim);
    n := run.queue[claim.id].nodeId;
    HandlePark(lim, run, claim, signal, runAt);
    ParkKeeps(p, run, claim, signal, runAt);
    ResumeKeeps(p, Park(run, claim, signal, runAt), n, "signal", payload);
    a := ParkFirst(lim, run, claim, signal, runAt, payload);
    AfterWaitDone(run, claim, Waked(run.queue[claim.id], payload, ByResume), run.nextId + Leftover(runAt));
    hide AfterWait;
    HandleWake(lim, run, claim, signal, runAt, payload);
    WakeMayFinish(run, claim, payload);
    FinishedKeeps(lim, p, run, claim, Waked(run.queue[claim.id], payload, ByCommit));
  }

  lemma AfterWaitDone(run: Run, claim: Claim, c: Completion, base: nat)
    requires AtWait(run, claim)
    ensures AfterWait(run, claim, c, base).history == run.history + [c]
    ensures c.node in DoneSet(AfterWait(run, claim, c, base).history)
  {
    hide Decrement, Woken, NewTokens, FreshRows;
    assert (run.history + [c])[|run.history|] == c;
  }

  lemma HandleWake(lim: Limits, run: Run, claim: Claim, signal: string, runAt: int, payload: Json)
    requires AtWait(run, claim) && signal != ""
    ensures Handle(lim, run, claim, WaitFor(signal, runAt, Some(payload)))
            == FinishOrFail(lim, run, claim, Waked(run.queue[claim.id], payload, ByCommit))
  {
    hide FinishOrFail, Decrement;
  }

  lemma WakeMayFinish(run: Run, claim: Claim, payload: Json)
    requires AtWait(run, claim)
    ensures MayFinish(run, claim, Waked(run.queue[claim.id], payload, ByCommit))
  {
    hide Decrement;
  }
}
