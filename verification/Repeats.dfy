/** Which records a dedupe key reaches, and which nodes it skips, over every history of one worker's steps. */
module Repeats {
  import opened Values
  import opened Jobs
  import opened Runs
  import opened Handlers
  import opened Invariant
  import opened Steps
  import opened Databases
  import opened Dedupe
  import Attempts
  import Completions

  /** The two tables have the same record, or none, under a workflow, node name and key. */
  predicate SameRecord(before: map<DedupeKey, DedupeOutcome>, after: map<DedupeKey, DedupeOutcome>, w: string, n: string,
          key: string) {
    var k := DedupeKey(w, n, key);
    (k in after <==> k in before) && (k in before ==> after[k] == before[k])
  }

  /**
   Handling a job of any kind under a key touches no record but the one of its workflow, its node's name and that very
   key; under an empty key it touches none.
   */
  lemma OthersApart(lim: Limits, db: Db, r: string, claim: Claim, key: string, out: Outcome)
    requires r in db.runs && HasJob(db.runs[r], claim.id) && Fits(db.runs[r].queue[claim.id], out)
    ensures var def := db.runs[r].queue[claim.id].def; var after := HandleJob(lim, db, r, claim, key, out);
            && (forall w: string, n: string, s: string :: w != def.workflowId || n != def.nodeName || s != key ==>
                  SameRecord(db.dedupe, after.dedupe, w, n, s))
            && (key == "" ==> after.dedupe == db.dedupe)
  {
    hide Handle, FailureOf, FailureResult;
  }

  // ----- one ordinary node

  /** An ordinary node of an open run, not skipped, handled under a key. */
  ghost predicate Keyed(db: Db, r: string, claim: Claim, key: string, out: Outcome) {
    && r in db.runs && HasJob(db.runs[r], claim.id) && Attempts.Open(db.runs[r])
    && db.runs[r].queue[claim.id].def.nodeType.Plain? && !db.runs[r].queue[claim.id].skip
    && key != "" && Fits(db.runs[r].queue[claim.id], out)
  }

  /** The record under this workflow, node name and key says that the node succeeded. */
  predicate Succeeded(dedupe: map<DedupeKey, DedupeOutcome>, w: string, n: string, key: string) {
    DedupeKey(w, n, key) in dedupe && dedupe[DedupeKey(w, n, key)].succeeded
  }

  /**
   A node whose record says succeeded is handled as if it had returned the recorded result, whatever it would have
   done. Any other node is handled with what it did; a success that commits is then recorded with its result, and a
   failure with its cause.
   */
  lemma KeyedExactly(lim: Limits, db: Db, r: string, claim: Claim, key: string, out: Outcome)
    requires Keyed(db, r, claim, key, out)
    ensures var run := db.runs[r]; var w, n := run.queue[claim.id].def.workflowId, run.queue[claim.id].def.nodeName;
            var k := DedupeKey(w, n, key); var after := HandleKeyed(lim, db, r, claim, key, out);
            && r in after.runs && after == db.(runs := db.runs[r := after.runs[r]], dedupe := after.dedupe, uses := after.uses)
            && (Succeeded(db.dedupe, w, n, key) ==>
                  after.runs[r] == Handle(lim, run, claim, Output(db.dedupe[k].result)) && after.dedupe == db.dedupe)
            && (!Succeeded(db.dedupe, w, n, key) ==>
                  && after.runs[r] == Handle(lim, run, claim, out)
                  && (out.Output? && after.runs[r].history != run.history ==> k in after.dedupe && after.dedupe[k] == DedupeOutcome(true, out.value))
                  && (out.Output? && after.runs[r].history == run.history ==> after.dedupe == db.dedupe)
                  && (out.Broke? ==> k in after.dedupe && !after.dedupe[k].succeeded && Attempts.Tells(after.dedupe[k].result, out.cause)))
  {
    hide Handle, FailureResult, Attempts.Tells;
    if out.Broke? {
      Attempts.FailureTells(out.cause);
    }
  }

  // ----- one control node

  /** What handling the job goes by: for a wait, with the oldest signal buffered for it. */
  function Actual(db: Db, out: Outcome): Outcome {
    if out.WaitFor? then WaitFor(out.signal, out.runAt, OldestPayload(db.buffered, out.signal)) else out
  }

  /**
   A node that is not an ordinary one never skips its work and never records a success: it leaves a failed record with
   the cause when its attempt fails, and none when it completes, parks or is skipped.
   */
  lemma ControlsRecord(lim: Limits, db: Db, r: string, claim: Claim, key: string, out: Outcome)
    requires r in db.runs && Attempts.Open(db.runs[r]) && ClaimValid(db.runs[r], claim) && key != ""
    requires !db.runs[r].queue[claim.id].def.nodeType.Plain? && Fits(db.runs[r].queue[claim.id], out)
    ensures var run := db.runs[r]; var job := run.queue[claim.id]; var after := HandleJob(lim, db, r, claim, key, out);
            var k := DedupeKey(job.def.workflowId, job.def.nodeName, key); var failed := Attempts.Failure(job, out);
            && r in after.runs && after.runs[r] == Handle(lim, run, claim, Actual(db, out)) && after.uses == db.uses
            && (failed.Some? && !job.skip ==> k in after.dedupe && !after.dedupe[k].succeeded && Attempts.Tells(after.dedupe[k].result, failed.value))
            && (job.skip || Completions.Parks(job, Actual(db, out)) || after.runs[r].history != run.history ==> after.dedupe == db.dedupe)
  {
    hide Handle, FailureResult, Attempts.Tells, OldestPayload, CommitAtom, AtomOf, ScatterAtom, BodyJobs, SetRemaining;
    var run := db.runs[r];
    var failed := Attempts.Failure(run.queue[claim.id], out);
    if failed.Some? {
      Attempts.FailureTells(failed.value);
    }
    UnseenFailure(lim, run, claim, Actual(db, out));
  }

  /** An attempt that was recorded as failed completes nothing. */
  lemma UnseenFailure(lim: Limits, run: Run, claim: Claim, out: Outcome)
    requires ClaimValid(run, claim) && Fits(run.queue[claim.id], out)
    ensures FailureOf(run, claim, out).Some? ==> Handle(lim, run, claim, out).history == run.history
  {
    hide RecordFailure, CommitAtom, AtomOf, ScatterAtom, BodyJobs, SetRemaining, Park, EffectiveInput;
    if FailureOf(run, claim, out).Some? {
      var job := run.queue[claim.id];
      forall cause: Cause
        ensures RecordFailure(lim, run, claim, cause).history == run.history
      {
        QuietFailure(lim, run, claim, cause);
      }
      if job.loop.Some? && out.Output? && out.value.JArr? {
        var counted := run.(remaining := SetRemaining(run.remaining, job.loop.value.rejoins, |out.value.items|));
        QuietFailure(lim, counted, claim, OtherCause);
      }
    }
  }

  // ----- every history

  /** At step `j` an ordinary node of this workflow and name, handled under this key, completed. */
  ghost predicate CompletedUnder(dbs: seq<Db>, deeds: seq<Deed>, j: nat, w: string, n: string, key: string) {
    && j < |deeds| && j + 1 < |dbs| && deeds[j].HandledPlain? && deeds[j].key == key && key != ""
    && var r, id := deeds[j].run, deeds[j].claim.id;
    && r in dbs[j].runs && r in dbs[j + 1].runs && id in dbs[j].runs[r].queue
    && var job := dbs[j].runs[r].queue[id];
    && job.def.workflowId == w && job.def.nodeName == n && !job.skip
    && dbs[j + 1].runs[r].history != dbs[j].runs[r].history
  }

  /** The result that step stored for its node. */
  ghost function ResultAt(dbs: seq<Db>, deeds: seq<Deed>, j: nat): Json {
    if j < |deeds| && j + 1 < |dbs| && deeds[j].HandledPlain? && deeds[j].run in dbs[j].runs && deeds[j].run in dbs[j + 1].runs
       && deeds[j].claim.id in dbs[j].runs[deeds[j].run].queue
       && dbs[j].runs[deeds[j].run].queue[deeds[j].claim.id].nodeId in dbs[j + 1].runs[deeds[j].run].results
    then dbs[j + 1].runs[deeds[j].run].results[dbs[j].runs[deeds[j].run].queue[deeds[j].claim.id].nodeId]
    else JNull
  }

  /** Such a completion is a new use of its key; no other step is a use. */
  lemma UseIsCompletion(lim: Limits, kinds: Kinds, dbs: seq<Db>, deeds: seq<Deed>, j: nat)
    requires IsDeedHistory(lim, kinds, dbs, deeds) && j < |deeds|
    ensures forall w, n, key :: CompletedUnder(dbs, deeds, j, w, n, key) ==>
              && |dbs[j + 1].uses| == |dbs[j].uses| + 1 && dbs[j + 1].uses[..|dbs[j].uses|] == dbs[j].uses
              && KeyUsed(dbs[j + 1].uses[|dbs[j].uses|]) == DedupeKey(w, n, key)
              && dbs[j + 1].uses[|dbs[j].uses|].result == ResultAt(dbs, deeds, j)
    ensures (forall w, n, key :: !CompletedUnder(dbs, deeds, j, w, n, key)) ==> dbs[j + 1].uses == dbs[j].uses
  {
    var db, d := dbs[j], deeds[j];
    assert Can(kinds, db, d) && dbs[j + 1] == Do(lim, kinds, db, d);
    if d.HandledPlain? {
      var taken := db.(runs := db.runs[d.run := Take(db.runs[d.run], d.claim)]);
      var job := db.runs[d.run].queue[d.claim.id];
      OneUse(lim, taken, d.run, d.claim, d.key, d.out);
      UseIsStored(lim, taken, d.run, d.claim, d.key, d.out);
      hide HandleKeyed, Handle;
      if dbs[j + 1].uses != db.uses {
        assert CompletedUnder(dbs, deeds, j, job.def.workflowId, job.def.nodeName, d.key);
      }
    }
  }

  lemma OneUse(lim: Limits, db: Db, r: string, claim: Claim, key: string, out: Outcome)
    requires r in db.runs && HasJob(db.runs[r], claim.id) && db.runs[r].queue[claim.id].def.nodeType.Plain?
    requires Fits(db.runs[r].queue[claim.id], out)
    ensures var job := db.runs[r].queue[claim.id]; var after := HandleKeyed(lim, db, r, claim, key, out);
            && r in after.runs
            && (after.uses != db.uses <==> key != "" && !job.skip && after.runs[r].history != db.runs[r].history)
            && (after.uses != db.uses ==>
                  |after.uses| == |db.uses| + 1 && after.uses[..|db.uses|] == db.uses
                  && KeyUsed(after.uses[|db.uses|]) == DedupeKey(job.def.workflowId, job.def.nodeName, key))
  {
    hide FailureResult, EffectiveInput, Finish;
    var run := db.runs[r];
    if !run.queue[claim.id].skip && out.Broke? {
      QuietFailure(lim, run, claim, out.cause);
    }
    hide RecordFailure;
  }

  lemma QuietFailure(lim: Limits, run: Run, claim: Claim, cause: Cause)
    requires HasJob(run, claim.id)
    ensures RecordFailure(lim, run, claim, cause).history == run.history
  {
    hide FailureResult, EffectiveInput;
  }

  /** The uses recorded by state `i` are the completions before it. */
  lemma {:induction false} UsedIsCompleted(lim: Limits, kinds: Kinds, dbs: seq<Db>, deeds: seq<Deed>, i: nat, w: string,
          n: string, key: string)
    requires IsDeedHistory(lim, kinds, dbs, deeds) && dbs[0].uses == [] && i < |dbs|
    ensures Used(dbs[i].uses, DedupeKey(w, n, key)) <==> exists j: nat :: j < i && CompletedUnder(dbs, deeds, j, w, n, key)
  {
    hide Do, Can, CompletedUnder, ResultAt, KeyUsed;
    if i > 0 {
      var last := i - 1;
      UsedIsCompleted(lim, kinds, dbs, deeds, last, w, n, key);
      UseIsCompletion(lim, kinds, dbs, deeds, last);
      var before, after := dbs[last].uses, dbs[i].uses;
      if w1, n1, key1 :| CompletedUnder(dbs, deeds, last, w1, n1, key1) {
        assert after == before + [after[|before|]];
        UsedStays(before, after[|before|], DedupeKey(w, n, key));
        OneCompletion(dbs, deeds, last, w, n, key, w1, n1, key1);
      }
    }
  }

  lemma OneCompletion(dbs: seq<Db>, deeds: seq<Deed>, j: nat, w: string, n: string, key: string, w1: string, n1: string,
          key1: string)
    requires CompletedUnder(dbs, deeds, j, w1, n1, key1)
    ensures CompletedUnder(dbs, deeds, j, w, n, key) <==> DedupeKey(w, n, key) == DedupeKey(w1, n1, key1)
  {
  }

  /** What completed under a key is recorded as succeeded with its result from then on. */
  lemma RecordedAfter(lim: Limits, kinds: Kinds, dbs: seq<Db>, deeds: seq<Deed>, j: nat, i: nat, w: string, n: string,
          key: string)
    requires IsDeedHistory(lim, kinds, dbs, deeds) && UsesOk(kinds, dbs[0]) && j < i < |dbs|
    requires CompletedUnder(dbs, deeds, j, w, n, key)
    ensures Succeeded(dbs[i].dedupe, w, n, key) && dbs[i].dedupe[DedupeKey(w, n, key)].result == ResultAt(dbs, deeds, j)
  {
    UseIsCompletion(lim, kinds, dbs, deeds, j);
    hide Do, Can, CompletedUnder, ResultAt, KeyUsed, FirstUse, PlainKey, Used;
    var next := j + 1;
    DedupeHistory(lim, kinds, dbs, deeds, next, next);
    DedupeHistory(lim, kinds, dbs, deeds, next, i);
    assert UseOk(kinds, dbs[next].uses, dbs[next].dedupe, |dbs[j].uses|);
  }

  /**
   Over every history that starts without completions: a node claimed under a key is skipped, and repeats the result,
   if and only if a node of the same workflow and name completed under the same key before. Otherwise what it did
   counts.
   */
  lemma SkippedExactly(lim: Limits, kinds: Kinds, dbs: seq<Db>, deeds: seq<Deed>, i: nat)
    requires IsDeedHistory(lim, kinds, dbs, deeds) && UsesOk(kinds, dbs[0]) && dbs[0].uses == [] && i < |deeds|
    requires deeds[i].HandledPlain? && deeds[i].run in dbs[i].runs && HasJob(dbs[i].runs[deeds[i].run], deeds[i].claim.id)
    requires Keyed(dbs[i], deeds[i].run, deeds[i].claim, deeds[i].key, deeds[i].out)
    ensures var r, claim := deeds[i].run, deeds[i].claim; var run := Take(dbs[i].runs[r], claim);
            var w, n := run.queue[claim.id].def.workflowId, run.queue[claim.id].def.nodeName; var key := deeds[i].key;
            && r in dbs[i + 1].runs
            && (forall j: nat :: j < i && CompletedUnder(dbs, deeds, j, w, n, key) ==>
                  dbs[i + 1].runs[r] == Handle(lim, run, claim, Output(ResultAt(dbs, deeds, j))))
            && ((forall j: nat :: j < i ==> !CompletedUnder(dbs, deeds, j, w, n, key)) ==>
                  dbs[i + 1].runs[r] == Handle(lim, run, claim, deeds[i].out))
  {
    hide Handle, CompletedUnder, ResultAt, UsesOk, KeyUsed;
    var d := deeds[i];
    assert Can(kinds, dbs[i], d) && dbs[i + 1] == Do(lim, kinds, dbs[i], d);
    var taken := dbs[i].(runs := dbs[i].runs[d.run := Take(dbs[i].runs[d.run], d.claim)]);
    var def := taken.runs[d.run].queue[d.claim.id].def;
    KeyedExactly(lim, taken, d.run, d.claim, d.key, d.out);
    hide HandleKeyed;
    forall j: nat | j < i && CompletedUnder(dbs, deeds, j, def.workflowId, def.nodeName, d.key)
      ensures Succeeded(dbs[i].dedupe, def.workflowId, def.nodeName, d.key)
      ensures dbs[i].dedupe[DedupeKey(def.workflowId, def.nodeName, d.key)].result == ResultAt(dbs, deeds, j)
    {
      RecordedAfter(lim, kinds, dbs, deeds, j, i, def.workflowId, def.nodeName, d.key);
    }
    if Succeeded(dbs[i].dedupe, def.workflowId, def.nodeName, d.key) {
      DedupeHistory(lim, kinds, dbs, deeds, i, i);
      SucceededIsUsed(kinds, dbs[i], DedupeKey(def.workflowId, def.nodeName, d.key));
      UsedIsCompleted(lim, kinds, dbs, deeds, i, def.workflowId, def.nodeName, d.key);
    }
  }

  lemma SucceededIsUsed(kinds: Kinds, db: Db, k: DedupeKey)
    requires UsesOk(kinds, db) && k in db.dedupe && db.dedupe[k].succeeded
    ensures Used(db.uses, k)
  {
  }
}
