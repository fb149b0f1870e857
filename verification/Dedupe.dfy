/** Dedupe keys over every history of one worker's steps. */
module Dedupe {
  import opened Values
  import opened Jobs
  import opened Runs
  import opened Handlers
  import opened Invariant
  import opened Steps
  import opened Databases

  /** Which kind of node a name of a workflow belongs to: one kind, because the Wafer is fixed and its nodes are named. */
  type Kinds = map<(string, string), NodeType>

  predicate OfKind(kinds: Kinds, job: NodeJob) {
    var name := (job.def.workflowId, job.def.nodeName);
    name in kinds && kinds[name] == job.def.nodeType
  }

  predicate PlainKey(kinds: Kinds, k: DedupeKey) {
    var name := (k.workflowId, k.nodeName);
    name in kinds && kinds[name].Plain?
  }

  /**
   A step as the dedupe table sees it: an ordinary node is handled; a node of another kind is, which may
   record a failed attempt under its own name; or anything else happens to some run.
   */
  datatype Deed =
    | HandledPlain(run: string, claim: Claim, key: string, out: Outcome)
    | HandledOther(run: string, claim: Claim, key: string, out: Outcome, failed: Option<Cause>, buffered: seq<Buffered>)
    | Otherwise(runs: map<string, Run>, buffered: seq<Buffered>)

  ghost predicate Can(kinds: Kinds, db: Db, d: Deed) {
    match d
    case Otherwise(_, _) => true
    case _ =>
      && d.run in db.runs && HasJob(db.runs[d.run], d.claim.id)
      && var job := db.runs[d.run].queue[d.claim.id];
      OfKind(kinds, job) && Fits(job, d.out) && (d.HandledPlain? <==> job.def.nodeType.Plain?)
  }

  ghost function Do(lim: Limits, kinds: Kinds, db: Db, d: Deed): Db
    requires Can(kinds, db, d)
  {
    match d
    case HandledPlain(r, claim, key, out) => HandleKeyed(lim, db.(runs := db.runs[r := Take(db.runs[r], claim)]), r, claim, key, out)
    case HandledOther(r, claim, key, out, failed, buffered) =>
      db.(runs := db.runs[r := Handle(lim, Take(db.runs[r], claim), claim, out)],
          dedupe := WithFailure(db.dedupe, db.runs[r].queue[claim.id], key, failed),
          buffered := buffered)
    case Otherwise(runs, buffered) => db.(runs := runs, buffered := buffered)
  }

  /** The record a use goes by: of its workflow, its node's name and its key. */
  function KeyUsed(use: KeyedUse): DedupeKey {
    DedupeKey(use.workflowId, use.nodeName, use.key)
  }

  /** Whether the `i`-th use of a key is the first one of that key. */
  predicate FirstUse(uses: seq<KeyedUse>, i: nat)
    requires i < |uses|
  {
    forall j :: 0 <= j < i ==> KeyUsed(uses[j]) != KeyUsed(uses[i])
  }

  /** The `i`-th use agrees with the table, and really ran exactly if it is its key's first. */
  ghost predicate UseOk(kinds: Kinds, uses: seq<KeyedUse>, dedupe: map<DedupeKey, DedupeOutcome>, i: nat)
    requires i < |uses|
  {
    && PlainKey(kinds, KeyUsed(uses[i]))
    && KeyUsed(uses[i]) in dedupe
    && dedupe[KeyUsed(uses[i])] == DedupeOutcome(true, uses[i].result)
    && (uses[i].ran <==> FirstUse(uses, i))
  }

  ghost predicate Used(uses: seq<KeyedUse>, k: DedupeKey) {
    exists i :: 0 <= i < |uses| && KeyUsed(uses[i]) == k
  }

  /** The dedupe table against what was done under each key. */
  ghost predicate UsesOk(kinds: Kinds, db: Db) {
    && (forall i: nat {:trigger UseOk(kinds, db.uses, db.dedupe, i)} :: i < |db.uses| ==> UseOk(kinds, db.uses, db.dedupe, i))
    && (forall k {:trigger Used(db.uses, k)} {:trigger k in db.dedupe} :: k in db.dedupe && db.dedupe[k].succeeded ==> Used(db.uses, k))
  }

  lemma FirstStays(uses: seq<KeyedUse>, use: KeyedUse, i: nat)
    requires i < |uses|
    ensures FirstUse(uses + [use], i) == FirstUse(uses, i) && (uses + [use])[i] == uses[i]
  {
    assert forall j :: 0 <= j <= i ==> (uses + [use])[j] == uses[j];
  }

  lemma FirstOrRepeat(uses: seq<KeyedUse>, use: KeyedUse)
    ensures FirstUse(uses + [use], |uses|) <==> !Used(uses, KeyUsed(use))
  {
    assert forall j :: 0 <= j < |uses| ==> (uses + [use])[j] == uses[j];
  }

  lemma UsedStays(uses: seq<KeyedUse>, use: KeyedUse, k: DedupeKey)
    ensures Used(uses + [use], k) <==> Used(uses, k) || k == KeyUsed(use)
  {
    assert forall j :: 0 <= j < |uses| ==> (uses + [use])[j] == uses[j];
    if Used(uses, k) {
      var i :| 0 <= i < |uses| && KeyUsed(uses[i]) == k;
      assert KeyUsed((uses + [use])[i]) == k;
    }
    assert (uses + [use])[|uses|] == use;
  }

  lemma UsedSucceeded(kinds: Kinds, db: Db, k: DedupeKey)
    requires UsesOk(kinds, db) && Used(db.uses, k)
    ensures k in db.dedupe && db.dedupe[k].succeeded
  {
    var i: nat :| i < |db.uses| && KeyUsed(db.uses[i]) == k;
    assert UseOk(kinds, db.uses, db.dedupe, i);
  }

  /** A completion under a key: the first one really ran, any other one repeated the recorded result. */
  lemma NewUse(kinds: Kinds, db: Db, after: Db, use: KeyedUse)
    requires UsesOk(kinds, db) && PlainKey(kinds, KeyUsed(use))
    requires use.ran <==> !(KeyUsed(use) in db.dedupe && db.dedupe[KeyUsed(use)].succeeded)
    requires !use.ran ==> use.result == db.dedupe[KeyUsed(use)].result
    requires after.dedupe == db.dedupe[KeyUsed(use) := DedupeOutcome(true, use.result)] && after.uses == db.uses + [use]
    ensures UsesOk(kinds, after)
  {
    hide FirstUse, Used, PlainKey;
    if Used(db.uses, KeyUsed(use)) {
      UsedSucceeded(kinds, db, KeyUsed(use));
    }
    forall i: nat | i < |after.uses|
      ensures UseOk(kinds, after.uses, after.dedupe, i)
    {
      if i < |db.uses| {
        FirstStays(db.uses, use, i);
        assert UseOk(kinds, db.uses, db.dedupe, i);
        if KeyUsed(db.uses[i]) == KeyUsed(use) {
          assert KeyUsed(use) in db.dedupe;
        }
      } else {
        FirstOrRepeat(db.uses, use);
      }
    }
    forall k | k in after.dedupe && after.dedupe[k].succeeded
      ensures Used(after.uses, k)
    {
      UsedStays(db.uses, use, k);
    }
  }

  /** A failed record under a key with no success. */
  lemma FailedRecord(kinds: Kinds, db: Db, after: Db, k: DedupeKey, value: Json)
    requires UsesOk(kinds, db) && !(k in db.dedupe && db.dedupe[k].succeeded)
    requires after.dedupe == db.dedupe[k := DedupeOutcome(false, value)] && after.uses == db.uses
    ensures UsesOk(kinds, after)
  {
    hide FirstUse, Used;
    forall i: nat | i < |after.uses|
      ensures UseOk(kinds, after.uses, after.dedupe, i)
    {
      assert UseOk(kinds, db.uses, db.dedupe, i);
    }
  }

  /** Only a name of an ordinary node ever succeeded. */
  lemma SucceededIsPlain(kinds: Kinds, db: Db, k: DedupeKey)
    requires UsesOk(kinds, db) && k in db.dedupe && db.dedupe[k].succeeded
    ensures PlainKey(kinds, k)
  {
    assert Used(db.uses, k);
    var i: nat :| i < |db.uses| && KeyUsed(db.uses[i]) == k;
    assert UseOk(kinds, db.uses, db.dedupe, i);
  }

  /** What handling an ordinary node does to the dedupe table and to the record of uses. */
  lemma KeyedIs(lim: Limits, db: Db, r: string, claim: Claim, key: string, out: Outcome)
    requires r in db.runs && HasJob(db.runs[r], claim.id) && db.runs[r].queue[claim.id].def.nodeType.Plain?
    requires Fits(db.runs[r].queue[claim.id], out)
    ensures var job := db.runs[r].queue[claim.id]; var k := KeyOf(job, key);
            var after := HandleKeyed(lim, db, r, claim, key, out); var done := k in db.dedupe && db.dedupe[k].succeeded;
            || (after.dedupe == db.dedupe && after.uses == db.uses)
            || (done && after.dedupe == db.dedupe && after.uses == db.uses + [KeyedUse(job.def.workflowId, job.def.nodeName, key, false, db.dedupe[k].result)])
            || (!done && out.Output? && after.dedupe == db.dedupe[k := DedupeOutcome(true, out.value)] && after.uses == db.uses + [KeyedUse(job.def.workflowId, job.def.nodeName, key, true, out.value)])
            || (!done && out.Broke? && after.dedupe == db.dedupe[k := DedupeOutcome(false, FailureResult(out.cause))] && after.uses == db.uses)
  {
    hide Handle, FailureResult;
  }

  /**
   One worker's steps keep the dedupe table honest: a key's first success really ran, each later completion
   under it did not run and stored that first result, and its record never changes again.
   */
  lemma DedupeKeeps(lim: Limits, kinds: Kinds, db: Db, d: Deed)
    requires UsesOk(kinds, db) && Can(kinds, db, d)
    ensures UsesOk(kinds, Do(lim, kinds, db, d))
    ensures forall k :: k in db.dedupe && db.dedupe[k].succeeded ==>
              k in Do(lim, kinds, db, d).dedupe && Do(lim, kinds, db, d).dedupe[k] == db.dedupe[k]
  {
    hide UsesOk, HandleKeyed, Handle, FailureResult;
    var after := Do(lim, kinds, db, d);
    match d
    case HandledPlain(r, claim, key, out) =>
      var taken := db.(runs := db.runs[r := Take(db.runs[r], claim)]);
      KeyedIs(lim, taken, r, claim, key, out);
      var job := db.runs[r].queue[claim.id];
      var k := KeyOf(job, key);
      UsesElsewhere(kinds, db, taken);
      if after.dedupe == db.dedupe && after.uses == db.uses {
        UsesElsewhere(kinds, db, after);
      } else if k in db.dedupe && db.dedupe[k].succeeded {
        assert db.dedupe[k := db.dedupe[k]] == db.dedupe;
        NewUse(kinds, taken, after, KeyedUse(job.def.workflowId, job.def.nodeName, key, false, db.dedupe[k].result));
      } else if after.uses != db.uses {
        NewUse(kinds, taken, after, KeyedUse(job.def.workflowId, job.def.nodeName, key, true, out.value));
      } else {
        FailedRecord(kinds, taken, after, k, FailureResult(out.cause));
      }
    case HandledOther(r, claim, key, out, failed, buffered) =>
      var job := db.runs[r].queue[claim.id];
      var k := KeyOf(job, key);
      if k in db.dedupe && db.dedupe[k].succeeded {
        SucceededIsPlain(kinds, db, k);
      }
      if failed.Some? && key != "" {
        FailedRecord(kinds, db, after, k, FailureResult(failed.value));
      } else {
        UsesElsewhere(kinds, db, after);
      }
    case Otherwise(runs, buffered) => UsesElsewhere(kinds, db, after);
  }

  lemma UsesElsewhere(kinds: Kinds, db: Db, after: Db)
    requires UsesOk(kinds, db) && after.dedupe == db.dedupe && after.uses == db.uses
    ensures UsesOk(kinds, after)
  {
  }

  ghost predicate IsDeedHistory(lim: Limits, kinds: Kinds, dbs: seq<Db>, deeds: seq<Deed>) {
    && |dbs| == |deeds| + 1
    && forall i :: 0 <= i < |deeds| ==> Can(kinds, dbs[i], deeds[i]) && dbs[i + 1] == Do(lim, kinds, dbs[i], deeds[i])
  }

  /** Along a history the table stays honest, and a record that says succeeded stays the same from then on. */
  lemma {:induction false} DedupeHistory(lim: Limits, kinds: Kinds, dbs: seq<Db>, deeds: seq<Deed>, i: nat, j: nat)
    requires IsDeedHistory(lim, kinds, dbs, deeds) && UsesOk(kinds, dbs[0]) && i <= j < |dbs|
    ensures UsesOk(kinds, dbs[j])
    ensures forall k :: k in dbs[i].dedupe && dbs[i].dedupe[k].succeeded ==> k in dbs[j].dedupe && dbs[j].dedupe[k] == dbs[i].dedupe[k]
  {
    hide UsesOk, Do, Can;
    if j > 0 {
      DedupeHistory(lim, kinds, dbs, deeds, if i < j then i else j - 1, j - 1);
      DedupeKeeps(lim, kinds, dbs[j - 1], deeds[j - 1]);
    }
  }

  /** Of all completions under one key exactly the first really executed, and all stored the same result. */
  lemma ExecutedOnce(kinds: Kinds, db: Db, i: nat, j: nat)
    requires UsesOk(kinds, db) && i < j < |db.uses| && KeyUsed(db.uses[i]) == KeyUsed(db.uses[j])
    ensures !db.uses[j].ran && db.uses[j].result == db.uses[i].result
    ensures exists f: nat :: f <= i && KeyUsed(db.uses[f]) == KeyUsed(db.uses[j]) && db.uses[f].ran
  {
    FirstOf(db.uses, i);
    assert UseOk(kinds, db.uses, db.dedupe, i) && UseOk(kinds, db.uses, db.dedupe, j);
    var f: nat :| f <= i && KeyUsed(db.uses[f]) == KeyUsed(db.uses[i]) && FirstUse(db.uses, f);
    assert UseOk(kinds, db.uses, db.dedupe, f);
  }

  lemma {:induction false} FirstOf(uses: seq<KeyedUse>, i: nat)
    requires i < |uses|
    ensures exists f: nat :: f <= i && KeyUsed(uses[f]) == KeyUsed(uses[i]) && FirstUse(uses, f)
  {
    if !FirstUse(uses, i) {
      var j: nat :| j < i && KeyUsed(uses[j]) == KeyUsed(uses[i]);
      FirstOf(uses, j);
    }
  }

  lemma CommitStores(run: Run, atom: NodeAtom)
    requires CommitAtom(run, atom).Some?
    ensures CommitAtom(run, atom).value.results == run.results[atom.nodeId := atom.result]
  {
    hide Decrement, ReadyJobs, Enqueue;
    var (m, ready) := Decrement(run.remaining, atom.dependents).value;
    var written := run.(results := run.results[atom.nodeId := atom.result], history := run.history + atom.log);
    EnqueueSpec(written.(remaining := m), ReadyJobs(atom.dependents, ready, atom.downstream));
  }

  /** A use of a key is a completed node, with that result stored in its run. */
  lemma UseIsStored(lim: Limits, db: Db, r: string, claim: Claim, key: string, out: Outcome)
    requires r in db.runs && HasJob(db.runs[r], claim.id) && db.runs[r].queue[claim.id].def.nodeType.Plain?
    requires Fits(db.runs[r].queue[claim.id], out)
    ensures var n := db.runs[r].queue[claim.id].nodeId; var after := HandleKeyed(lim, db, r, claim, key, out);
            after.uses != db.uses ==>
              && after.uses == db.uses + [after.uses[|db.uses|]]
              && n in after.runs[r].results && after.runs[r].results[n] == after.uses[|db.uses|].result
  {
    hide EffectiveInput, CommitAtom, RecordFailure;
    var run := db.runs[r];
    var job := run.queue[claim.id];
    var k := KeyOf(job, key);
    var used := if key != "" && k in db.dedupe && db.dedupe[k].succeeded then Output(db.dedupe[k].result) else out;
    if used.Output? {
      var atom := AtomOf(job, claim, Completing(job, None, EffectiveInput(run.results, job), used.value), None);
      if CommitAtom(run, atom).Some? {
        CommitStores(run, atom);
      }
    }
  }

  /** The worker's handling of a claimed job, of any kind, is one of these steps. */
  lemma JobIsDeed(lim: Limits, kinds: Kinds, db: Db, r: string, claim: Claim, key: string, out: Outcome) returns (d: Deed)
    requires r in db.runs && HasJob(db.runs[r], claim.id) && Fits(db.runs[r].queue[claim.id], out)
    requires OfKind(kinds, db.runs[r].queue[claim.id])
    ensures Can(kinds, db, d)
    ensures Do(lim, kinds, db, d) == HandleJob(lim, db.(runs := db.runs[r := Take(db.runs[r], claim)]), r, claim, key, out)
  {
    hide HandleKeyed, FailureOf, Handle, WithFailure;
    var taken := db.(runs := db.runs[r := Take(db.runs[r], claim)]);
    if db.runs[r].queue[claim.id].def.nodeType.Plain? {
      d := HandledPlain(r, claim, key, out);
    } else {
      var actual := if out.WaitFor? then WaitFor(out.signal, out.runAt, OldestPayload(db.buffered, out.signal)) else out;
      var failed := FailureOf(taken.runs[r], claim, actual);
      d := HandledOther(r, claim, key, actual, failed, HandleJob(lim, taken, r, claim, key, out).buffered);
      assert taken.runs[r := Handle(lim, taken.runs[r], claim, actual)] == db.runs[r := Handle(lim, taken.runs[r], claim, actual)];
    }
  }
}
