/** Cancelling a run: what stays in its queue, and what can still happen afterwards, over every history. */
module Cancels {
  import opened Values
  import opened Jobs
  import opened Runs
  import opened Invariant
  import opened Handlers
  import opened Steps
  import opened Restarts

  /** A job that a worker can still be handed. */
  predicate Claimable(run: Run, id: nat) {
    id in run.rows && run.rows[id].place == Live
  }

  /** A worker holds the claim on the job. */
  predicate JobHeld(run: Run, id: nat) {
    Claimable(run, id) && run.rows[id].owner.Some?
  }

  predicate TimerHeld(run: Run, id: nat) {
    id in run.timers && run.timers[id].owner.Some?
  }

  /**
   A cancel leaves claimable exactly the jobs whose claim a worker holds, with their rows as they were, and every
   dead-lettered row; it leaves exactly the timers whose claim a worker holds, and no parked wait. What completed, was
   stored or is counted stays.
   */
  lemma CancelExactly(run: Run)
    ensures var after := Cancel(run);
            && after.status == Cancelled && after.parked == map[] && after.rows.Keys == run.rows.Keys
            && (forall id :: Claimable(after, id) <==> JobHeld(run, id))
            && (forall id :: JobHeld(run, id) ==> after.rows[id] == run.rows[id])
            && (forall id :: id in run.rows && run.rows[id].place != Live ==> after.rows[id] == run.rows[id])
            && (forall id :: id in after.timers <==> TimerHeld(run, id))
            && (forall id :: TimerHeld(run, id) ==> after.timers[id] == run.timers[id])
            && after == run.(status := Cancelled, parked := map[], rows := after.rows, timers := after.timers)
  {
    hide Discarded;
  }

  // ----- afterwards

  /**
   A step of a cancelled run: a claimed job is acked without being run, a timer is acked and resumes nothing, a signal
   and a second cancel find nothing to do with what is parked.
   */
  lemma CancelledStep(lim: Limits, run: Run, a: Action)
    requires run.status == Cancelled && run.parked == map[] && Enabled(run, a)
    ensures var after := Next(lim, run, a);
            match a
            case Work(claim, _) => after == run.(rows := run.rows[claim.id := Row(Dropped, run.rows[claim.id].attempts + 1, None)])
            case Tick(claim) => after == run.(timers := run.timers - {claim.id})
            case Wake(_, _) => after == run
            case Stop => after == run.(rows := after.rows, timers := after.timers)
  {
    match a
    case Work(claim, out) =>
      var taken := Take(run, claim);
      var row := Row(Dropped, run.rows[claim.id].attempts + 1, None);
      assert taken.rows[claim.id := row] == run.rows[claim.id := row];
    case Tick(claim) =>
      assert TakeTimer(run, claim).timers - {claim.id} == run.timers - {claim.id};
    case Wake(_, _) =>
    case Stop =>
      CancelExactly(run);
      hide Cancel;
  }

  /** What is left of a cancelled run: nothing parked, and only these jobs claimable and these timers. */
  ghost predicate LeftOver(run: Run, jobs: set<nat>, timers: set<nat>) {
    && run.status == Cancelled && run.parked == map[]
    && (forall id :: Claimable(run, id) ==> id in jobs)
    && (forall id :: id in run.timers ==> id in timers)
  }

  lemma StepLeavesOver(lim: Limits, run: Run, a: Action, jobs: set<nat>, timers: set<nat>)
    requires LeftOver(run, jobs, timers) && Enabled(run, a)
    ensures LeftOver(Next(lim, run, a), jobs, timers)
    ensures a.Work? ==> a.claim.id in jobs
    ensures a.Tick? ==> a.claim.id in timers
  {
    CancelledStep(lim, run, a);
    if a.Stop? {
      CancelExactly(run);
    } else if a.Work? {
      assert Claimable(run, a.claim.id);
    }
    hide Next;
  }

  function HeldJobs(run: Run): set<nat> {
    set id | id in run.rows && JobHeld(run, id)
  }

  function HeldTimers(run: Run): set<nat> {
    set id | id in run.timers && TimerHeld(run, id)
  }

  lemma CancelLeaves(run: Run)
    ensures LeftOver(Cancel(run), HeldJobs(run), HeldTimers(run))
  {
    CancelExactly(run);
    hide Cancel;
  }

  /** Only what was held at the cancel at `s` is left before step `i`. */
  lemma {:induction false} LeftThroughout(lim: Limits, runs: seq<Run>, acts: seq<Action>, s: nat, i: nat)
    requires IsHistory(lim, runs, acts) && s < i <= |acts| && acts[s].Stop?
    ensures LeftOver(runs[i], HeldJobs(runs[s]), HeldTimers(runs[s]))
    ensures runs[i] == runs[s + 1].(rows := runs[i].rows, timers := runs[i].timers)
  {
    hide Next, LeftOver, HeldJobs, HeldTimers;
    var a, run := acts[i - 1], runs[i - 1];
    assert Enabled(run, a) && runs[i] == Next(lim, run, a);
    if i == s + 1 {
      IsCancel(lim, run, a);
      CancelLeaves(run);
    } else {
      LeftThroughout(lim, runs, acts, s, i - 1);
      LeftIsCancelled(run, HeldJobs(runs[s]), HeldTimers(runs[s]));
      StepLeavesOver(lim, run, a, HeldJobs(runs[s]), HeldTimers(runs[s]));
      CancelledStep(lim, run, a);
    }
  }

  lemma IsCancel(lim: Limits, run: Run, a: Action)
    requires a.Stop? && Enabled(run, a)
    ensures Next(lim, run, a) == Cancel(run)
  {
  }

  lemma LeftIsCancelled(run: Run, jobs: set<nat>, timers: set<nat>)
    requires LeftOver(run, jobs, timers)
    ensures run.status == Cancelled && run.parked == map[]
  {
  }

  /**
   After a cancel, in every history, only a job or a timer that a worker had claimed before it is ever handled, and
   handling it only acks it: what completed, was stored, is parked or is counted stays as the cancel left it.
   */
  lemma OnlyHeldIsHandled(lim: Limits, runs: seq<Run>, acts: seq<Action>, s: nat, i: nat)
    requires IsHistory(lim, runs, acts) && s < i <= |acts| && acts[s].Stop?
    ensures runs[i].status == Cancelled && runs[i].parked == map[] && runs[i].fired == runs[s].fired
    ensures runs[i].history == runs[s].history && runs[i].results == runs[s].results && runs[i].remaining == runs[s].remaining
    ensures runs[i].queue == runs[s].queue && runs[i].pending == runs[s].pending
    ensures i < |acts| && acts[i].Work? ==> JobHeld(runs[s], acts[i].claim.id)
    ensures i < |acts| && acts[i].Tick? ==> TimerHeld(runs[s], acts[i].claim.id)
  {
    LeftThroughout(lim, runs, acts, s, i);
    LeftIsCancelled(runs[i], HeldJobs(runs[s]), HeldTimers(runs[s]));
    assert Enabled(runs[s], acts[s]) && runs[s + 1] == Next(lim, runs[s], acts[s]);
    IsCancel(lim, runs[s], acts[s]);
    CancelExactly(runs[s]);
    if i < |acts| {
      assert Enabled(runs[i], acts[i]);
      StepLeavesOver(lim, runs[i], acts[i], HeldJobs(runs[s]), HeldTimers(runs[s]));
    }
    hide Next, Cancel, LeftOver;
  }

  /** With nothing claimed at the cancel the run is at rest: no job and no timer is ever handled again, and nothing changes. */
  lemma {:induction false} RestsAtOnce(lim: Limits, runs: seq<Run>, acts: seq<Action>, s: nat, i: nat)
    requires IsHistory(lim, runs, acts) && s < i <= |acts| && acts[s].Stop?
    requires forall id :: !JobHeld(runs[s], id) && !TimerHeld(runs[s], id)
    ensures runs[i] == runs[s + 1]
    ensures i < |acts| ==> !acts[i].Work? && !acts[i].Tick?
  {
    hide Next, JobHeld, TimerHeld, Claimable;
    if i > s + 1 {
      RestsAtOnce(lim, runs, acts, s, i - 1);
      assert Enabled(runs[i - 1], acts[i - 1]) && runs[i] == Next(lim, runs[i - 1], acts[i - 1]);
      LeftThroughout(lim, runs, acts, s, i - 1);
      NothingHeld(runs[s]);
      NothingLeft(lim, runs[i - 1], acts[i - 1]);
    }
    OnlyHeldIsHandled(lim, runs, acts, s, i);
  }

  lemma NothingHeld(run: Run)
    requires forall id :: !JobHeld(run, id) && !TimerHeld(run, id)
    ensures HeldJobs(run) == {} && HeldTimers(run) == {}
  {
    hide JobHeld, TimerHeld;
  }

  lemma NothingLeft(lim: Limits, run: Run, a: Action)
    requires LeftOver(run, {}, {}) && Enabled(run, a)
    ensures Next(lim, run, a) == run
  {
    CancelledStep(lim, run, a);
    StepLeavesOver(lim, run, a, {}, {});
    if a.Stop? {
      CancelExactly(run);
      hide Cancel;
      SameRows(run, Cancel(run));
    }
  }

  /** With nothing claimable and no timer, a cancel has nothing to drop. */
  lemma SameRows(run: Run, after: Run)
    requires LeftOver(run, {}, {}) && after.rows.Keys == run.rows.Keys && after.timers.Keys <= run.timers.Keys
    requires forall id :: id in run.rows && run.rows[id].place != Live ==> after.rows[id] == run.rows[id]
    ensures after.rows == run.rows && after.timers == run.timers
  {
    forall id | id in run.rows
      ensures run.rows[id].place != Live
    {
      assert !Claimable(run, id);
    }
  }
}
