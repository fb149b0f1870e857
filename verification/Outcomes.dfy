/** What the run invariant says about whole runs: one place per node, order, and completion. */
module Outcomes {
  import opened Values
  import opened Jobs
  import opened Runs
  import opened Plans
  import opened Invariant
  import opened Landing
  import opened Handlers
  import opened Preservation
  import opened Steps

  /** Some dependency of `n` has not completed. */
  ghost predicate Blocked(p: Plan, h: seq<Completion>, n: NodeId)
    requires n in p.deps
  {
    !(p.deps[n] <= DoneSet(h))
  }

  ghost function Count(a: bool, b: bool, c: bool, d: bool): nat {
    (if a then 1 else 0) + (if b then 1 else 0) + (if c then 1 else 0) + (if d then 1 else 0)
  }

  lemma NoneMissing(s: set<NodeId>, done: set<NodeId>)
    ensures |s - done| == 0 <==> s <= done
  {
    if |s - done| == 0 {
      assert s - done == {};
      assert forall n :: n in s ==> n !in s - done;
    }
  }

  /**
   Every node is in exactly one place: still blocked, queued under one id, parked, or completed. Its
   counter, where it has one, is the number of its dependencies that have not completed.
   */
  lemma OnePlace(p: Plan, run: Run, n: NodeId)
    requires RunInv(p, run) && run.status != Cancelled && n in p.jobs
    ensures n in p.deps
    ensures Count(Blocked(p, run.history, n), HasToken(run.queue, n), n in run.parked, n in DoneSet(run.history)) == 1
    ensures forall k, k' :: k in run.queue && k' in run.queue && run.queue[k].nodeId == n && run.queue[k'].nodeId == n ==> k == k'
    ensures n !in p.seeds ==> n in run.remaining && run.remaining[n] == |p.deps[n] - DoneSet(run.history)|
    ensures n !in p.seeds ==> (run.remaining[n] == 0 <==> !Blocked(p, run.history, n))
  {
    OpenNodes(p, run);
    PlaceOf(p, run, n);
    NoneMissing(p.deps[n], DoneSet(run.history));
    hide WfPlan, HistoryOk, TokensOk, ParkedOk, Covered, ResultsOk, StatusOk, IdsOk;
  }

  lemma Books(p: Plan, run: Run)
    requires RunInv(p, run)
    ensures IdsOk(run) && run.pending == |run.queue|
    ensures run.status == Running ==> run.parked == map[]
  {
    hide IdsOk, Core, Covered, ResultsOk;
  }

  /** Queued and parked nodes are enabled and not completed. */
  lemma OpenNodes(p: Plan, run: Run)
    requires RunInv(p, run)
    ensures forall k :: k in run.queue ==> Outstanding(p, run.history, run.queue[k].nodeId)
    ensures forall n :: n in run.parked ==> Outstanding(p, run.history, n)
  {
    hide WfPlan, HistoryOk, CountsOk, Covered, Outstanding, JobFor, ResultsOk, StatusOk;
  }

  lemma PlaceOf(p: Plan, run: Run, n: NodeId)
    requires RunInv(p, run) && run.status != Cancelled && n in p.jobs
    ensures n in p.deps
    ensures HasToken(run.queue, n) || n in run.parked ==> Outstanding(p, run.history, n)
    ensures HasToken(run.queue, n) ==> n !in run.parked
    ensures n in DoneSet(run.history) ==> p.deps[n] <= DoneSet(run.history)
    ensures p.deps[n] <= DoneSet(run.history) ==> n in DoneSet(run.history) || n in run.parked || HasToken(run.queue, n)
  {
    assert DepsOk(p, n);
    if n in DoneSet(run.history) {
      HistoryClosed(p, run.history, n);
    }
    hide WfPlan, HistoryOk, CountsOk, JobFor, ResultsOk, StatusOk;
  }

  /** A node completes at most once, and only after all its dependencies. */
  lemma OnceInOrder(p: Plan, run: Run, i: nat)
    requires RunInv(p, run) && i < |run.history|
    ensures forall j :: 0 <= j < |run.history| && j != i ==> run.history[j].node != run.history[i].node
    ensures run.history[i].node in p.deps
    ensures forall d :: d in p.deps[run.history[i].node] ==> exists j :: 0 <= j < i && run.history[j].node == d
  {
    var h := run.history;
    assert EntryOk(p, h, i);
    forall j | 0 <= j < |h| && j != i
      ensures h[j].node != h[i].node
    {
      assert EntryOk(p, h, j);
      if j < i {
        assert h[..i][j].node in DoneSet(h[..i]);
      } else {
        assert h[..j][i].node in DoneSet(h[..j]);
      }
    }
    forall d | d in p.deps[h[i].node]
      ensures exists j :: 0 <= j < i && h[j].node == d
    {
      var j :| 0 <= j < |h[..i]| && h[..i][j].node == d;
      assert h[j].node == d;
    }
  }

  ghost predicate AllDone(p: Plan, run: Run) {
    forall n :: n in p.jobs ==> n in DoneSet(run.history)
  }

  /** With nothing queued and nothing parked, completion has reached every node. */
  lemma {:induction false} NothingLeft(p: Plan, run: Run, n: NodeId)
    requires RunInv(p, run) && run.status != Cancelled
    requires run.queue == map[] && run.parked == map[]
    requires n in p.jobs && n in p.rank
    ensures n in DoneSet(run.history)
    decreases p.rank[n]
  {
    OnePlace(p, run, n);
    assert DepsOk(p, n);
    forall d | d in p.deps[n]
      ensures d in DoneSet(run.history)
    {
      NothingLeft(p, run, d);
    }
  }

  /** With every node completed, nothing is queued and nothing is parked. */
  lemma AllDoneIsIdle(p: Plan, run: Run)
    requires RunInv(p, run) && AllDone(p, run)
    ensures run.queue == map[] && run.parked == map[] && run.rows == map[]
  {
    OpenNodes(p, run);
    assert forall k :: k !in run.queue && k !in run.rows;
    assert forall n :: n !in run.parked;
  }

  /**
   Completion detection. A run is marked completed exactly when every node has completed and the last
   completion was a worker's commit; the completion callback ran exactly once then, and never before.
   When the last completion was a resume, the run stays running with nothing in flight.
   */
  lemma CompletedExactly(p: Plan, run: Run)
    requires RunInv(p, run) && run.status != Cancelled && p.jobs != map[]
    ensures run.status == Completed <==>
            AllDone(p, run) && run.history != [] && run.history[|run.history| - 1].how == ByCommit
    ensures run.fired == if run.status == Completed then 1 else 0
    ensures AllDone(p, run) ==> run.pending == 0
    ensures AllDone(p, run) && run.status != Completed ==>
              run.status == Running && run.history[|run.history| - 1].how == ByResume
  {
    if run.status == Completed {
      forall n | n in p.jobs
        ensures n in DoneSet(run.history)
      {
        assert DepsOk(p, n);
        NothingLeft(p, run, n);
      }
    }
    if AllDone(p, run) {
      AllDoneIsIdle(p, run);
      var n :| n in p.jobs;
      assert n in DoneSet(run.history);
    }
  }

  /** `pending` is zero exactly when nothing is queued, and then the run is over or parked. */
  lemma PendingZero(p: Plan, run: Run)
    requires RunInv(p, run) && run.status != Cancelled
    ensures run.pending == 0 <==> run.queue == map[]
    ensures run.pending == 0 && run.status != Waiting ==> AllDone(p, run)
    ensures run.status == Waiting <==> run.parked != map[] && run.status != Failed
  {
    if run.pending == 0 {
      assert run.queue.Keys == {};
      assert forall k :: k !in run.rows;
      if run.status != Waiting {
        forall n | n in p.jobs
          ensures n in DoneSet(run.history)
        {
          assert DepsOk(p, n);
          NothingLeft(p, run, n);
        }
      }
    }
  }
}
