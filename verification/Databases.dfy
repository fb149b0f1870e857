/** The whole store: every run's rows, the dedupe records and the buffered signals. */
module Databases {
  import opened Values
  import opened Jobs
  import opened Runs
  import opened Handlers

  datatype DedupeKey = DedupeKey(workflowId: string, nodeName: string, key: string)

  datatype DedupeOutcome = DedupeOutcome(succeeded: bool, result: Json)

  datatype Buffered = Buffered(name: string, payload: Json)

  /** A completion under a dedupe key: of which node, whether it really ran, and what was stored. History only. */
  datatype KeyedUse = KeyedUse(workflowId: string, nodeName: string, key: string, ran: bool, result: Json)

  datatype Db = Db(
    runs: map<string, Run>,
    dedupe: map<DedupeKey, DedupeOutcome>,
    buffered: seq<Buffered>,
    uses: seq<KeyedUse>)

  datatype ParkedWait = ParkedWait(runId: string, node: NodeId)

  // ----- signals

  /** The waits parked on a signal name, in runs that are waiting. A wait without a signal matches no name. */
  function ParkedOn(runs: map<string, Run>, name: string): set<ParkedWait> {
    set r, n | r in runs && runs[r].status == Waiting && n in runs[r].parked && runs[r].parked[n].signal == name && name != "" :: ParkedWait(r, n)
  }

  /** The payload of the oldest buffered signal of a name. */
  function OldestPayload(buffered: seq<Buffered>, name: string): (r: Option<Json>)
    ensures r.Some? <==> exists i :: 0 <= i < |buffered| && buffered[i].name == name
  {
    if buffered == [] then None
    else if buffered[0].name == name then Some(buffered[0].payload)
    else
      var rest := OldestPayload(buffered[1..], name);
      assert rest.Some? ==> exists i :: 0 <= i < |buffered[1..]| && buffered[1..][i].name == name && buffered[i + 1] == buffered[1..][i];
      rest
  }

  /** A newly buffered signal is found under its name exactly when no older one of that name is. */
  lemma {:induction false} OldestOfMore(buffered: seq<Buffered>, name: string, payload: Json, n: string)
    ensures OldestPayload(buffered + [Buffered(name, payload)], n) ==
            if n == name && OldestPayload(buffered, n).None? then Some(payload) else OldestPayload(buffered, n)
  {
    if buffered != [] {
      assert (buffered + [Buffered(name, payload)])[1..] == buffered[1..] + [Buffered(name, payload)];
      OldestOfMore(buffered[1..], name, payload, n);
    }
  }

  /** Consuming a signal deletes every buffered entry with the same name and payload. */
  function Without(buffered: seq<Buffered>, gone: Buffered): (r: seq<Buffered>)
    ensures forall b :: b in r <==> b in buffered && b != gone
  {
    if buffered == [] then []
    else if buffered[0] == gone then Without(buffered[1..], gone)
    else [buffered[0]] + Without(buffered[1..], gone)
  }

  datatype Delivery = Resumed(wait: ParkedWait) | Kept | Ambiguous

  /** Deliver a named signal: resume the one wait parked on it, buffer it if there is none, reject it if there are more. */
  ghost function Deliver(db: Db, name: string, payload: Json): (Db, Delivery) {
    var waits := ParkedOn(db.runs, name);
    if waits == {} then (db.(buffered := db.buffered + [Buffered(name, payload)]), Kept)
    else if |waits| == 1 then
      var w :| w in waits;
      (db.(runs := db.runs[w.runId := Resume(db.runs[w.runId], w.node, "signal", payload)]), Resumed(w))
    else (db, Ambiguous)
  }

  /** Handle a claimed wait: an already buffered signal of its name is consumed instead of parking. */
  function HandleWait(lim: Limits, db: Db, r: string, claim: Claim, signal: string, runAt: int): Db
    requires r in db.runs && HasJob(db.runs[r], claim.id) && db.runs[r].queue[claim.id].def.nodeType.Wait?
  {
    var run := db.runs[r];
    var buffered := OldestPayload(db.buffered, signal);
    var after := Handle(lim, run, claim, WaitFor(signal, runAt, buffered));
    var consumed := signal != "" && buffered.Some? && Parks(run, claim) && after.history != run.history;
    db.(runs := db.runs[r := after],
        buffered := if consumed then Without(db.buffered, Buffered(signal, buffered.value)) else db.buffered)
  }

  /** The claimed wait gets as far as its park-or-wake transaction. */
  predicate Parks(run: Run, claim: Claim)
    requires HasJob(run, claim.id)
  {
    (run.status == Running || run.status == Waiting) && !run.queue[claim.id].skip
  }

  // ----- dedupe

  /** Handle a claimed ordinary node whose dedupe key resolved to `key`; an empty key means no contract. */
  function HandleKeyed(lim: Limits, db: Db, r: string, claim: Claim, key: string, out: Outcome): Db
    requires r in db.runs && HasJob(db.runs[r], claim.id) && db.runs[r].queue[claim.id].def.nodeType.Plain?
    requires Fits(db.runs[r].queue[claim.id], out)
  {
    var run := db.runs[r];
    var job := run.queue[claim.id];
    var k := KeyOf(job, key);
    var open := (run.status == Running || run.status == Waiting) && !job.skip;
    var hit := open && key != "" && k in db.dedupe && db.dedupe[k].succeeded;
    var used := if hit then Output(db.dedupe[k].result) else out;
    var after := Handle(lim, run, claim, used);
    var committed := open && used.Output? && after.history != run.history;
    db.(runs := db.runs[r := after],
        dedupe := if key == "" || !open || hit then db.dedupe
                  else if committed then db.dedupe[k := DedupeOutcome(true, used.value)]
                  else if used.Broke? then db.dedupe[k := DedupeOutcome(false, FailureResult(used.cause))]
                  else db.dedupe,
        uses := if key != "" && committed then db.uses + [KeyedUse(job.def.workflowId, job.def.nodeName, key, !hit, used.value)] else db.uses)
  }

  function KeyOf(job: NodeJob, key: string): DedupeKey {
    DedupeKey(job.def.workflowId, job.def.nodeName, key)
  }

  /** Whether handling the claimed job records a failed attempt, and for what cause. */
  function FailureOf(run: Run, claim: Claim, out: Outcome): Option<Cause>
    requires HasJob(run, claim.id) && Fits(run.queue[claim.id], out)
  {
    var job := run.queue[claim.id];
    if (run.status != Running && run.status != Waiting) || job.skip then None
    else
      match out
      case Broke(cause) => Some(cause)
      case WaitFor(signal, _, buffered) =>
        if buffered.Some? && signal != ""
        then OnFailedCommit(run, AtomOf(job, claim, Completing(job, None, job.input, WakeResult("signal", buffered.value)), None))
        else if ClaimValid(run, claim) then None else Some(OtherCause)
      case Output(value) =>
        match job.def.nodeType
        case Switch => if value.JStr? && value.s != "" then None else Some(OtherCause)
        case Foreach =>
          if !value.JArr? then Some(OtherCause)
          else if job.loop.None? then None
          else
            var loop := job.loop.value;
            var counted := run.(remaining := SetRemaining(run.remaining, loop.rejoins, |value.items|));
            OnFailedCommit(counted, ScatterAtom(claim, Completing(job, None, job.input, ItemsResult(value.items)), BodyJobs(job, loop, value.items)))
        case SendSignal => OnFailedCommit(run, AtomOf(job, claim, Completing(job, None, job.input, value), None))
        case RerunFailed => OnFailedCommit(run, AtomOf(job, claim, Completing(job, None, job.input, value), None))
        case _ => None
  }

  function OnFailedCommit(run: Run, atom: NodeAtom): Option<Cause> {
    if CommitAtom(run, atom).None? then Some(OtherCause) else None
  }

  /** A recorded failure of a node with a dedupe key leaves a failed record under it. */
  function WithFailure(dedupe: map<DedupeKey, DedupeOutcome>, job: NodeJob, key: string,
          failed: Option<Cause>): map<DedupeKey, DedupeOutcome> {
    if failed.Some? && key != "" then dedupe[KeyOf(job, key) := DedupeOutcome(false, FailureResult(failed.value))] else dedupe
  }

  /** The handling of one claimed job of any kind, over the whole store. */
  function HandleJob(lim: Limits, db: Db, r: string, claim: Claim, key: string, out: Outcome): Db
    requires r in db.runs && HasJob(db.runs[r], claim.id) && Fits(db.runs[r].queue[claim.id], out)
  {
    var run := db.runs[r];
    var job := run.queue[claim.id];
    if job.def.nodeType.Plain? then HandleKeyed(lim, db, r, claim, key, out)
    else if out.WaitFor? then
      HandleWait(lim, db, r, claim, out.signal, out.runAt).(
        dedupe := WithFailure(db.dedupe, job, key, FailureOf(run, claim, WaitFor(out.signal, out.runAt, OldestPayload(db.buffered, out.signal)))))
    else
      db.(runs := db.runs[r := Handle(lim, run, claim, out)], dedupe := WithFailure(db.dedupe, job, key, FailureOf(run, claim, out)))
  }
}
