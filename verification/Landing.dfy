/** How one completion moves the node part of the run invariant, clause by clause. */
module Landing {
  import opened Values
  import opened Jobs
  import opened Runs
  import opened Plans
  import opened Invariant

  /** A node in mid-completion: enqueued, taken from its place, and about to enter the history. */
  ghost predicate InFlight(p: Plan, h: seq<Completion>, tokens: map<nat, NodeJob>, parked: map<NodeId, Continuation>,
          c: Completion) {
    && Outstanding(p, h, c.node)
    && c.node !in parked
    && !HasToken(tokens, c.node)
    && OutcomeOk(JobFor(p, h, c.node), c)
    && !p.jobs[c.node].def.nodeType.Foreach?
  }

  /** The dependents of `n` whose other dependencies are all in `done`. */
  ghost predicate Unblocked(p: Plan, done: set<NodeId>, n: NodeId, m: NodeId) {
    && m in p.jobs && m in p.deps && m !in p.seeds
    && n in p.deps[m]
    && p.deps[m] <= done + {n}
  }

  /** `ids` lists, without repetition, the dependents that completing `n` unblocks. */
  ghost predicate Frontier(p: Plan, done: set<NodeId>, n: NodeId, ids: seq<NodeId>) {
    && Distinct(ids)
    && (forall m :: m in ids ==> m in p.jobs && Unblocked(p, done, n, m))
    && (forall m {:trigger Unblocked(p, done, n, m)} :: Unblocked(p, done, n, m) ==> m in ids)
  }

  lemma HistoryClosed(p: Plan, h: seq<Completion>, n: NodeId)
    requires HistoryOk(p, h) && n in DoneSet(h)
    ensures n in p.jobs && n in p.deps && p.deps[n] <= DoneSet(h)
  {
    var i :| 0 <= i < |h| && h[i].node == n;
    assert EntryOk(p, h, i);
    assert DoneSet(h[..i]) <= DoneSet(h);
  }

  lemma LandHistory(p: Plan, h: seq<Completion>, c: Completion)
    requires HistoryOk(p, h)
    requires Outstanding(p, h, c.node) && OutcomeOk(JobFor(p, h, c.node), c)
    ensures HistoryOk(p, h + [c])
  {
    var h' := h + [c];
    forall i | 0 <= i < |h'|
      ensures EntryOk(p, h', i)
    {
      if i < |h| {
        assert EntryOk(p, h, i);
        assert h'[..i] == h[..i];
      } else {
        assert h'[..i] == h;
      }
    }
  }

  lemma LandCounts(p: Plan, h: seq<Completion>, remaining: map<NodeId, int>, c: Completion, m: map<NodeId, int>)
    requires WfPlan(p) && CountsOk(p, h, remaining)
    requires c.node in p.jobs && c.node !in DoneSet(h) && !p.jobs[c.node].def.nodeType.Foreach?
    requires m.Keys == remaining.Keys
    requires forall n :: n in remaining ==> m[n] == remaining[n] - (if n in p.jobs[c.node].dependents then 1 else 0)
    ensures CountsOk(p, h + [c], m)
  {
    assert EdgesOk(p, c.node);
    DoneSetAppend(h, c);
    forall n | n in p.jobs && n in p.deps && n !in p.seeds
      ensures n in m && m[n] == |p.deps[n] - DoneSet(h + [c])|
    {
      SetMinusOne(p.deps[n], DoneSet(h), c.node);
      assert n in p.jobs[c.node].dependents <==> c.node in p.deps[n];
    }
  }

  /** A node's dependents all have counters: none of them is seeded. */
  lemma DependentsCounted(p: Plan, h: seq<Completion>, remaining: map<NodeId, int>, n: NodeId)
    requires WfPlan(p) && CountsOk(p, h, remaining)
    requires n in p.jobs && !p.jobs[n].def.nodeType.Foreach?
    ensures Distinct(p.jobs[n].dependents)
    ensures forall d :: d in p.jobs[n].dependents ==>
              d in p.jobs && d in p.deps && d !in p.seeds && n in p.deps[d] && d in remaining
  {
    assert TemplateOk(p, n) && EdgesOk(p, n);
    forall d | d in p.jobs[n].dependents
      ensures d in p.jobs && d in p.deps && d !in p.seeds && n in p.deps[d] && d in remaining
    {
      var i :| 0 <= i < |p.jobs[n].dependents| && p.jobs[n].dependents[i] == d;
      assert d in p.jobs;
      assert DepsOk(p, d);
    }
  }

  lemma OnlyOneLeft(s: set<NodeId>, done: set<NodeId>, n: NodeId)
    requires n in s && n !in done
    ensures |s - done| == 1 <==> s <= done + {n}
  {
    SetMinusOne(s, done, n);
    if s <= done + {n} {
      assert s - (done + {n}) == {};
    }
  }

  /** The counters that reach zero are exactly those of the dependents now unblocked. */
  lemma ReadyAreUnblocked(p: Plan, h: seq<Completion>, remaining: map<NodeId, int>, n: NodeId, ready: set<NodeId>)
    requires WfPlan(p) && CountsOk(p, h, remaining)
    requires n in p.jobs && n !in DoneSet(h) && !p.jobs[n].def.nodeType.Foreach?
    requires forall d :: d in ready <==> d in p.jobs[n].dependents && d in remaining && remaining[d] == 1
    ensures Frontier(p, DoneSet(h), n, ReadyIds(p.jobs[n].dependents, ready))
  {
    DependentsCounted(p, h, remaining, n);
    assert EdgesOk(p, n);
    forall m
      ensures m in ready <==> Unblocked(p, DoneSet(h), n, m)
    {
      if m in p.jobs[n].dependents || Unblocked(p, DoneSet(h), n, m) {
        assert m in p.jobs[n].dependents;
        OnlyOneLeft(p.deps[m], DoneSet(h), n);
      }
    }
    ReadyIdsDistinct(p.jobs[n].dependents, ready);
  }

  /** A node whose dependencies were already done does not depend on one that was not. */
  lemma StillOutstanding(p: Plan, h: seq<Completion>, c: Completion, n: NodeId)
    requires Outstanding(p, h, n) && c.node !in DoneSet(h) && n != c.node
    ensures Outstanding(p, h + [c], n) && JobFor(p, h + [c], n) == JobFor(p, h, n)
  {
    DoneSetAppend(h, c);
    JobForStable(p, h, c, n);
  }

  lemma UnblockedOutstanding(p: Plan, h: seq<Completion>, c: Completion, m: NodeId)
    requires WfPlan(p) && HistoryOk(p, h)
    requires c.node in p.jobs && c.node !in DoneSet(h)
    requires Unblocked(p, DoneSet(h), c.node, m)
    ensures !Outstanding(p, h, m)
    ensures Outstanding(p, h + [c], m)
    ensures JobFor(p, h + [c], m) == NextJob(c, p.jobs[m]) && JobFor(p, h + [c], m).nodeId == m
  {
    DoneSetAppend(h, c);
    assert DepsOk(p, m) && TemplateOk(p, m);
    if m in DoneSet(h) {
      HistoryClosed(p, h, m);
    }
    JobForNext(p, h, c, m);
  }

  lemma LandParked(p: Plan, h: seq<Completion>, parked: map<NodeId, Continuation>, c: Completion)
    requires ParkedOk(p, h, parked)
    requires c.node !in DoneSet(h) && c.node !in parked
    ensures ParkedOk(p, h + [c], parked)
  {
    forall n | n in parked
      ensures Outstanding(p, h + [c], n) && JobFor(p, h + [c], n) == JobFor(p, h, n)
    {
      StillOutstanding(p, h, c, n);
    }
  }

  /** The outstanding jobs after `c` launched the dependents `ids`. */
  ghost function Grown(p: Plan, tokens: map<nat, NodeJob>, base: nat, c: Completion, ids: seq<NodeId>): map<nat, NodeJob>
    requires forall m :: m in ids ==> m in p.jobs
  {
    tokens + NewTokens(base, Launched(p, c, ids))
  }

  /** Below `base` sit the old jobs, from `base` on the launched ones. */
  lemma GrownAt(p: Plan, tokens: map<nat, NodeJob>, base: nat, c: Completion, ids: seq<NodeId>)
    requires forall m :: m in ids ==> m in p.jobs
    requires forall k :: k in tokens ==> k < base
    ensures forall k :: k in Grown(p, tokens, base, c, ids) <==> k in tokens || base <= k < base + |ids|
    ensures forall k :: k in tokens ==> Grown(p, tokens, base, c, ids)[k] == tokens[k]
    ensures forall k :: base <= k < base + |ids| ==> Grown(p, tokens, base, c, ids)[k] == NextJob(c, p.jobs[ids[k - base]])
    ensures |Grown(p, tokens, base, c, ids)| == |tokens| + |ids|
  {
    hide NewTokens, NextJob;
    NewTokensAt(base, Launched(p, c, ids));
    DisjointUnionSize(tokens, NewTokens(base, Launched(p, c, ids)));
  }

  lemma GrownKeys(p: Plan, tokens: map<nat, NodeJob>, base: nat, c: Completion, ids: seq<NodeId>)
    requires forall m :: m in ids ==> m in p.jobs
    requires forall k :: k in tokens ==> k < base
    ensures forall k :: k in Grown(p, tokens, base, c, ids) <==> k in tokens || base <= k < base + |ids|
    ensures |Grown(p, tokens, base, c, ids)| == |tokens| + |ids|
  {
    GrownAt(p, tokens, base, c, ids);
  }

  /** What is known of each job after the fan-out, old or new. */
  lemma GrownToken(p: Plan, h: seq<Completion>, tokens: map<nat, NodeJob>, base: nat, c: Completion, ids: seq<NodeId>,
          k: nat)
    requires WfPlan(p) && HistoryOk(p, h) && TokensOk(p, h, tokens)
    requires c.node in p.jobs && c.node !in DoneSet(h) && !HasToken(tokens, c.node)
    requires forall k :: k in tokens ==> k < base
    requires Frontier(p, DoneSet(h), c.node, ids)
    requires k in Grown(p, tokens, base, c, ids)
    ensures var job := Grown(p, tokens, base, c, ids)[k];
            && Outstanding(p, h + [c], job.nodeId)
            && job == JobFor(p, h + [c], job.nodeId)
            && (k < base ==> k in tokens && job == tokens[k] && Outstanding(p, h, job.nodeId))
            && (k >= base ==> k - base < |ids| && job.nodeId == ids[k - base] && !Outstanding(p, h, job.nodeId))
  {
    GrownAt(p, tokens, base, c, ids);
    if k < base {
      StillOutstanding(p, h, c, tokens[k].nodeId);
    } else {
      assert ids[k - base] in ids;
      UnblockedOutstanding(p, h, c, ids[k - base]);
    }
  }

  lemma LandTokens(p: Plan, h: seq<Completion>, tokens: map<nat, NodeJob>, parked: map<NodeId, Continuation>,
          base: nat, c: Completion, ids: seq<NodeId>)
    requires WfPlan(p) && HistoryOk(p, h) && TokensOk(p, h, tokens) && ParkedOk(p, h, parked) && Exclusive(tokens, parked)
    requires c.node in p.jobs && c.node !in DoneSet(h) && !HasToken(tokens, c.node)
    requires forall k :: k in tokens ==> k < base
    requires Frontier(p, DoneSet(h), c.node, ids)
    ensures TokensOk(p, h + [c], Grown(p, tokens, base, c, ids))
    ensures Exclusive(Grown(p, tokens, base, c, ids), parked)
  {
    forall k | k in Grown(p, tokens, base, c, ids)
      ensures var job := Grown(p, tokens, base, c, ids)[k];
              && Outstanding(p, h + [c], job.nodeId)
              && job == JobFor(p, h + [c], job.nodeId)
              && (k < base ==> k in tokens && job == tokens[k] && Outstanding(p, h, job.nodeId))
              && (k >= base ==> k - base < |ids| && job.nodeId == ids[k - base] && !Outstanding(p, h, job.nodeId))
    {
      GrownToken(p, h, tokens, base, c, ids, k);
    }
  }

  lemma LandCovered(p: Plan, h: seq<Completion>, tokens: map<nat, NodeJob>, parked: map<NodeId, Continuation>,
          base: nat, c: Completion, ids: seq<NodeId>)
    requires WfPlan(p) && Covered(p, h, tokens, parked, {c.node})
    requires c.node in p.jobs
    requires forall k :: k in tokens ==> k < base
    requires Frontier(p, DoneSet(h), c.node, ids)
    ensures Covered(p, h + [c], Grown(p, tokens, base, c, ids), parked, {})
  {
    DoneSetAppend(h, c);
    GrownAt(p, tokens, base, c, ids);
    var tokens' := Grown(p, tokens, base, c, ids);
    forall n | n in p.jobs && n in p.deps && p.deps[n] <= DoneSet(h + [c])
      ensures n in DoneSet(h + [c]) || n in parked || HasToken(tokens', n)
    {
      if p.deps[n] <= DoneSet(h) {
        if HasToken(tokens, n) {
          var k :| k in tokens && tokens[k].nodeId == n;
          assert tokens'[k].nodeId == n;
        }
      } else {
        assert DepsOk(p, n) && TemplateOk(p, n);
        assert Unblocked(p, DoneSet(h), c.node, n);
        var i :| 0 <= i < |ids| && ids[i] == n;
        assert tokens'[base + i].nodeId == n;
      }
    }
  }

  /** One completion carries the whole node part of the invariant across its fan-out. */
  lemma Land(p: Plan, h: seq<Completion>, remaining: map<NodeId, int>, tokens: map<nat, NodeJob>,
          parked: map<NodeId, Continuation>,
             base: nat, c: Completion)
    returns (m: map<NodeId, int>, ready: set<NodeId>, ids: seq<NodeId>)
    requires Core(p, h, remaining, tokens, parked) && InFlight(p, h, tokens, parked, c)
    requires Covered(p, h, tokens, parked, {c.node})
    requires forall k :: k in tokens ==> k < base
    ensures Decrement(remaining, p.jobs[c.node].dependents) == Some((m, ready))
    ensures ids == ReadyIds(p.jobs[c.node].dependents, ready)
    ensures Frontier(p, DoneSet(h), c.node, ids) && forall m :: m in ids ==> m in p.jobs
    ensures Core(p, h + [c], m, Grown(p, tokens, base, c, ids), parked)
    ensures Covered(p, h + [c], Grown(p, tokens, base, c, ids), parked, {})
  {
    var ds := p.jobs[c.node].dependents;
    DependentsCounted(p, h, remaining, c.node);
    DecrementSpec(remaining, ds);
    m, ready := Decrement(remaining, ds).value.0, Decrement(remaining, ds).value.1;
    ids := ReadyIds(ds, ready);
    ReadyAreUnblocked(p, h, remaining, c.node, ready);
    LandHistory(p, h, c);
    LandCounts(p, h, remaining, c, m);
    LandTokens(p, h, tokens, parked, base, c, ids);
    LandParked(p, h, parked, c);
    LandCovered(p, h, tokens, parked, base, c, ids);
  }
}
