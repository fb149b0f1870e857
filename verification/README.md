# A model of the durable run engine

A workflow is written as a Wafer: a list of nodes that name the nodes they depend on. Starting a run
compiles the Wafer into one self-contained, nested job, writes a counter per node ("how many of my
dependencies have not completed") and enqueues the head. Workers claim jobs from a durable queue, execute
them, and commit each completion as one transaction: result, dedupe record, counter decrements, newly ready
jobs, the run's count of pending jobs, and the ack. Two cheap counters thus stand in for "all my
dependencies are done" and "the whole run is done". Waits park a run until a timer or a named signal,
switches skip branches, and a foreach runs its body once per item and collects the results.

This project models that engine and proves that the counters mean what they stand for under every order of
claims, retries, skips, parks and resumes; that every run settles, completes exactly when it should, and
leaves what a simple recursive interpreter would; and that compiling and starting a Wafer sets such a run
up. Two small algorithms of the same repository, edit distance and `$NAME` substitution, are modelled too.

## Layout

| file | content |
|---|---|
| Values, Jobs, Runs, Handlers, Databases | the data, and what each transaction and each handler does, as functions |
| Plans, Invariant, Landing, Preservation, Steps | the run invariant, and that every atomic step and every history keeps it |
| Outcomes, Lineage, Termination, Settling, Restarts | what the invariant says about whole runs: places, completion, inputs, rest, failure and rerun |
| Attempts, Completions, Cancels | what each attempt, each kind of completion and a cancel do, and when a job is given up |
| Interpreter | the engine against a recursive interpreter |
| Foreach, Unfolding | a fan-out as a rewrite of the plan; the plan a run follows against the one it was started with; ordered collection |
| Checks, Redelivery, Steadiness, Latecomers | the completion check as two reads; claims that lapse, are taken again and come back late: what takes effect once, which moves the counters survive, and short histories where they do not |
| Signals, Deliveries | all runs of a store: parking, signals and timers; that no accepted signal is lost |
| Dedupe, Repeats | dedupe keys: what ran and what was repeated |
| Stores, Workers | the store and the worker as objects, each method proved to do what the functions say, keeping the invariants |
| Wafers, Dags | resolving names, references and cycles with arrays and a queue |
| Compilation, Runners, Launches, Markers, Controls | compiling into nested jobs in place, the resulting plan, its collect markers, starting and rerunning |
| WaferRuns, Events | from a Wafer's text to every history of its runs |
| Validation, Refs | edit distance and the nearest name; `$NAME` references |

## Reading the model

- The rows that tables hold for one run id are grouped in one `Run`; a queued job's payload is in `queue`, its
  bookkeeping in `rows`, and timer jobs are in `timers`. Job ids are counted per run. A job whose run row is
  absent is not modelled.
- `history`, `fired`, the place `Dropped`, `uses` and an atom's `log` record what happened; the engine never
  reads them.
- The queue is taken at its word: claiming sets the owner and counts the attempt, an ack succeeds only while
  the claim is valid, a retry returns the job to pending or dead-letters it at the queue's limit.
- One `handle` with its completion check, one timer, one signal or one control-plane call is one atomic step;
  a worker handles one job at a time. Only Checks, Redelivery, Steadiness and Latecomers use finer steps.
- What a node returned or how it failed, a wait's resolved signal and timer, and a resolved dedupe key are
  arguments. A send-signal or rerun-failed node's own effect on other runs is a separate call before its
  completion.
- `Bounded` says that the worker's retry limits are at most the queue's. `RecordFailureExactly` shows what
  happens otherwise; `AttemptExactly` and `JobTried` do not need it.

## Where the code does less than its documentation

- A foreach over an empty list never enqueues its rejoins (`EmptyForeachLoses`), and one that a switch skipped
  enqueues them while their counters still wait for the body (`SkipLoses`). Completing a scheduler is sound
  exactly if it has an item or has no rejoins (`ForeachKeepsExactly`, `SkipKeepsExactly`).
- A failed attempt is recorded without regard to the claim. A worker that comes back late replaces the result of
  a completed node, and when it gives up it fails a healthy, even a completed run (`LateFailure`,
  `FailureExactly`).
- A fan-out sets its rejoins' counters before, and outside, the transaction that carries its ack. A worker that comes
  back late sets them again, though its transaction changes nothing: a rejoin then waits for iterations that are
  gone, and the run is marked completed without it (`LateFanOut`). `FanOutExactly` says when no counter goes wrong.
- The resume transaction does not look whether the wait is still parked. The comment on it calls a repeated resume
  safe (internal/worker/suspend.go:346-352); it is if the first has deleted the continuation before the second
  reads it, but a signal and a timer that both read it complete the wait twice (`LateResume`).
- Consuming a buffered signal is said to take the oldest one (internal/honker/suspend.go:156-158), but it deletes every
  entry with the same name and payload: a signal sent twice before its waits completes only one of them
  (`TwinsAreOne`; `TakesTwins` says when exactly one goes).
- A run whose last completion is a resumed wait stays running with nothing pending: the resume path does not
  check for completion (`CompletedExactly`).
- Rerun `continue` is sound exactly when the dead-lettered job was the only outstanding work
  (`RerunContinueExactly`), and a restart exactly when nothing of the run is live (`StartEstablishes`). Its error
  message says that a run already rerun has nothing saved (internal/runner/runner.go:174), but `continue` keeps what
  is saved, and a second one breaks the run (`ContinueTwice`).
- The completion check reads pending and status separately; what falls between can make it complete a run that
  a signal just resumed, or one just cancelled (`CheckIsNotAtomic`, `DeliveriesExactly`, `LateCheckExactly`).
- A fan-in node's input and skip flag come from the dependency that finished last, so a rejoin is skipped
  if its last parent was, whatever the others did (`SkipCascade`, `JobLineage`).
- The comment on node identifiers says unnamed nodes are referenced by position (internal/wafer/dag.go:8-10),
  but only named nodes can be referenced (internal/wafer/dag.go:56-58); and a node named like an earlier
  unnamed one's position goes unreported (`ClashesMissed`, `ClashResolves`).
- The references across several templates are said to come in order of first appearance, but the templates are
  a map's values, walked in no fixed order (internal/components/refs/refs.go:45-57); the order shows
  (`OrderMatters`) unless the templates' references begin alike (`OrderIsSeen`).

## Model

| member | source | states |
|---|---|---|
| Jobs.ThreadInput | internal/worker/worker.go:984-998 | a successor's input keeps the event unchanged and its steps are the parent's plus the parent's result under the parent's name |
| Jobs.IterIdInjective | internal/worker/worker.go:591-593 | two iterations of a foreach body never share a node id |
| Jobs.IterIdApart | internal/worker/worker.go:591-593 | nor do iterations of differently named bodies, whatever characters the names hold |
| Handlers.CollectedWrite | internal/worker/worker.go:722-743 | storing a result changes the collected array at exactly the entry of that iteration, and not at all for any other node, so it does not depend on the order in which iterations finish |
| Landing.Land | internal/honker/tx.go:218-252 | when a node that is no scheduler completes, the dependents enqueued are exactly those whose other dependencies are all done, each once, and every clause about nodes (counters, places, threaded jobs, parked waits) holds afterwards |
| Preservation.CommitLands | internal/honker/tx.go:180-278 | the success atom of a validly claimed job always goes through and keeps every clause of the invariant but the status one |
| Preservation.FinishPreserves | internal/worker/worker.go:409-414 | committing a node and checking for completion keeps the run invariant and records exactly one completion |
| Steps.RecordFailureExactly | internal/worker/worker.go:1049-1097 | a failed attempt keeps the run invariant if and only if it is the last claim the cause allows (the first for a missing secret, the secret limit for an unreachable source or a stale secret, the general limit otherwise) or the queue allows more; past that the queue dead-letters the job while the run stays running |
| Attempts.AttemptExactly | internal/worker/worker.go:1049-1097 | everything one failed attempt does: a result row that names the cause, the attempt counted, the claim given back; at the cause's last claim, and no earlier, the job is dead-lettered and saved as it ran and the run failed; at the queue's limit it is dead-lettered silently |
| Attempts.JobTried | internal/worker/worker.go:1049-1097 | in every history, for as long as the run is open, a job whose attempts all failed, for whatever causes, was claimed that often, no claim was the last its cause allows, and it is claimable up to the queue's limit |
| Attempts.GivesUpAtLast | internal/worker/worker.go:1035-1097 | in every history of a run that nothing else closes, a job that fails for one cause each time is claimable and the run open before the cause's last claim; from that claim on it is dead-lettered and the run failed |
| Completions.CompletesExactly | internal/worker/worker.go:358-617 | every kind of job, claimed in an open run, with an outcome that completes it: exactly its completion is recorded, and the result stored is the one of its kind (skipped, branch, items, source and payload, or the node's own) |
| Completions.CommitFailsExactly | internal/honker/tx.go:180-278 | a completion's transaction fails if and only if a dependent has no counter or the claim is no longer valid |
| Completions.UncommittedExactly | internal/worker/worker.go:409-413 | then an ordinary node, a switch or a skip changes nothing and is claimed again, and a control node's attempt is recorded as failed |
| Steps.ParkKeeps | internal/worker/suspend.go:107-137 | parking a claimed wait keeps the run invariant, and the completion check after it changes nothing |
| Steps.ResumeKeeps | internal/worker/suspend.go:353-394 | resuming by timer or signal keeps the run invariant, and completes exactly the parked wait if it is parked |
| Steps.TickKeeps | internal/worker/worker.go:299-303 | so does a timer job, early or late |
| Steps.StopKeeps | internal/honker/runs.go:175-194 | so does cancelling |
| Cancels.CancelExactly | internal/honker/runs.go:175-194 | after a cancel the claimable jobs are exactly those whose claim a worker holds, with their rows unchanged; dead-lettered rows are unchanged; the timers left are exactly the claimed ones; nothing is parked; the rest stays |
| Cancels.CancelledStep | internal/worker/worker.go:299-313 | in a cancelled run a claimed job is acked without being run, and a timer or a signal resumes nothing |
| Cancels.OnlyHeldIsHandled | internal/worker/worker.go:305-313 | in every history after a cancel only a job or timer that was claimed before it is ever handled, and what completed, was stored and is counted stays |
| Cancels.RestsAtOnce | internal/honker/runs.go:175-194 | with nothing claimed at the cancel the run is at rest: no job or timer is ever handled again and nothing changes |
| Steps.StepKeeps | internal/worker/worker.go:287-355 | every atomic step (claim and handle, timer, signal, cancel) of a job that is no scheduler keeps the run invariant |
| Steps.HistoryKeeps | internal/worker/worker.go:7-12 | the run invariant holds throughout every history of a foreach-free run, in any order of claims, retries, skips, parks and resumes |
| Outcomes.OnePlace | internal/honker/deps.go:67-89 | every node is in exactly one of: blocked, queued under one id, parked, completed; and its counter is the number of its uncompleted dependencies |
| Outcomes.OnceInOrder | internal/honker/tx.go:218-252 | a node completes at most once, and only after all its dependencies |
| Outcomes.CompletedExactly | internal/worker/worker.go:518-539 | a run is completed if and only if every node completed and the last completion was a worker's commit; the callback ran exactly once then and never otherwise; after a last resume the run stays running at pending zero |
| Outcomes.PendingZero | internal/worker/worker.go:518-539 | pending is zero exactly when nothing is queued; then every node completed unless the run waits; and it waits exactly when something is parked, failure aside |
| Termination.WorkerStepCloser | internal/worker/worker.go:287-355 | each worker step lowers, lexicographically, nodes not completed, then attempts left on live jobs, then timers |
| Termination.Settle | internal/worker/worker.go:266-282 | every schedule of a foreach-free run reaches a state with nothing to claim (total, so every schedule terminates) |
| Termination.AtRest | internal/worker/worker.go:511-539 | a run with nothing to claim that is still running completed every node, the last by a resume, and a waiting one has pending zero |
| Settling.FanLeaves | internal/worker/worker.go:559-617 | a fan-out, also one over nothing, uses up its scheduler and brings in no other |
| Settling.StepNearer | internal/worker/worker.go:287-355 | each supported worker step leaves a scheduler fewer, or as many and the run closer to rest along the same plan |
| Settling.SettleAll | internal/worker/worker.go:266-282 | every schedule of a run with foreach schedulers ends, at rest or about to complete a scheduler that has rejoins but no item for them, still following the plan it was started with |
| Settling.WaferAtRest | internal/worker/worker.go:511-539 | at rest, a run that is still running completed every node of the plan it was started with, the last by a resume; one that waits has nothing pending; a completed one completed every node |
| Lineage.JobLineage | internal/worker/worker.go:404-410 | the job of every enabled node carries the run's event, and its steps hold exactly the nodes of one dependency path from the root, each with the result it completed with |
| Lineage.RunLineage | internal/worker/suspend.go:165-173 | the same for every queued job, against the stored results |
| Lineage.SkipCascade | internal/worker/worker.go:421-475 | a skipped node has a parent that passed the skip on; a node all of whose parents were skipped is skipped; below a lone executed switch exactly the chosen branch runs |
| Lineage.NoSwitchNoSkip | internal/worker/worker.go:444-475 | a node with no switch above it is never skipped, in any schedule |
| Restarts.StartEstablishes | internal/runner/runner.go:234-253 | starting over the rows of an earlier run with the same id establishes the invariant if and only if no job of that id is claimable and no wait of it is parked |
| Restarts.FailedStays | internal/worker/worker.go:305-313 | in a failed run nothing completes and it is never marked completed, whatever step is taken |
| Restarts.FailedThroughout | internal/worker/worker.go:305-313 | the same along every history: it stays failed with what completed and what is pending, until it is cancelled |
| Restarts.PendingCounts | internal/honker/runs.go:69-79 | pending equals live plus dead-lettered plus dropped jobs |
| Restarts.GivingUpSaves | internal/worker/worker.go:1059-1067 | at the last claim its cause allows, any failing job is dead-lettered, the run failed and the job saved as it ran, which is the queued one unless it collects; the invariant holds |
| Restarts.AssembledTwice | internal/worker/worker.go:362-369 | a rejoin saved with its array in its input runs with the same input when it is rerun |
| Restarts.RerunContinueExactly | internal/runner/runner.go:168-207 | rerun continue, of any run that has a saved job, establishes the run invariant if and only if the run was not reported completed, nothing is claimable or parked and the saved job is that of the only open node; unless the run was cancelled, if and only if that job, no longer claimable, was its only outstanding work; history and results stay, so no completed node runs again |
| Restarts.ContinueTwice | internal/runner/runner.go:168-207 | the saved job outlives its rerun: a second continue enqueues it again and resets pending to one, and no plan accounts for the run |
| Restarts.ContinueThenHistory | internal/runner/runner.go:192-207 | after a sound continue every history is one of the engine's ordinary histories, and no node that had completed completes again |
| Interpreter.HistoryAccounted | internal/honker/tx.go:180-278 | along every history, what was recorded plus what queued and parked work will yield is what the interpreter yields |
| Interpreter.EngineRefinesInterpreter | internal/worker/worker.go:358-475 | for a tree-shaped, foreach-free plan with deterministic nodes, every claim order and any number of failed attempts leave, once all nodes completed, exactly the recursive interpreter's results, whatever was stored under the run's id before, if nothing of it is live |
| ForeachRuns.MarksExactly | internal/worker/worker.go:576-585 | whatever a scheduler carries downstream, marked to collect are exactly its rejoins, an id meaning the first job that has it |
| ForeachRuns.RejoinsExactly | internal/worker/worker.go:708-716 | and an iteration leads to exactly the rejoins that are found there, in rejoin order |
| ForeachRuns.ExpandWf | internal/worker/worker.go:586-611 | the plan in which a body is replaced by its iterations is well formed |
| ForeachRuns.ForeachKeeps | internal/worker/worker.go:559-617 | a fan-out leaves a run that keeps the invariant of the rewritten plan, if there is an item or no rejoin |
| ForeachRuns.ForeachKeepsExactly | internal/worker/worker.go:566-611 | and only then: over no items and with rejoins, no plan that still has the other nodes accounts for the run |
| ForeachRuns.SkipKeepsExactly | internal/worker/worker.go:421-439 | completing a skipped scheduler keeps the invariant if and only if it has no rejoins; else they are enqueued while their counters still wait for the body |
| ForeachRuns.ExpandCounts | internal/honker/deps.go:129-137 | overwriting each rejoin's counter with the number of items makes the counters count the uncompleted dependencies of the rewritten plan |
| ForeachRuns.RejoinWaits | internal/honker/deps.go:129-137 | in the rewritten plan a rejoin depends on exactly the iterations it collects |
| ForeachRuns.EmptyForeachLoses | internal/worker/worker.go:566-575 | with no items the rejoins' counters read zero yet they are never enqueued, and a run with nothing else live is marked completed without them |
| Unfolding.UnfoldsFan | internal/worker/worker.go:586-611 | a fan-out unfolds the plan further: earlier fan-outs, their iterations, counters and collect markers persist |
| Unfolding.StepTracks | internal/worker/worker.go:287-355 | every supported step keeps the run invariant, for the plan that the fan-outs so far made of the one the run was started with |
| Unfolding.HistoryTracks | internal/worker/worker.go:7-12 | along every history of supported steps the run follows that chain of plans |
| Unfolding.CompletedWafer | internal/worker/worker.go:518-539 | the run is completed if and only if every node of the plan it was started with completed, a fanned-out body in all its iterations, and the last completion was a commit; the callback ran exactly once then |
| Unfolding.WaferOrder | internal/honker/tx.go:218-252 | a node completes only after all it depends on in the plan the run was started with, a fanned-out body in all its iterations |
| Unfolding.IterationAfterScheduler | internal/worker/worker.go:586-606 | an iteration completes only after its scheduler fanned out |
| Unfolding.OrderedMap | internal/worker/worker.go:559-617 | a foreach is an ordered map, in every history: each iteration is in one place; a rejoin is enqueued exactly when every iteration has completed, is then in one place and completes once; and its input holds, item by item, the result of the iteration that ran on that item with the scheduler's event and steps, waits in bodies included |
| Unfolding.HistoryCompletes | internal/worker/worker.go:518-539 | completion is detected so along every history with foreach schedulers |
| Unfolding.HistoryInOrder | internal/honker/deps.go:67-89 | and nodes complete in that order along every one |
| Redelivery.StaleSubmitIsNothing | internal/honker/tx.go:111-120 | a success atom whose claim is no longer valid changes nothing at all |
| Redelivery.StaleAtomIsNothing | internal/honker/tx.go:180-278 | nor does any other node atom, a fan-out's included |
| Redelivery.FaultInTime | internal/worker/worker.go:1049-1097 | with a valid claim, a recorded failure is what handling the job in one step records |
| Redelivery.ReviveInTime | internal/worker/suspend.go:353-394 | a resume that still finds its wait parked is the resume in one step |
| Redelivery.FanOutInTime | internal/worker/worker.go:559-617 | the fan-out in one step is the counter writes, then the atom, then its check, or else the recorded failure |
| Redelivery.JobStays | internal/honker/queue.go:28-74 | in every history of fine moves, from when a worker read it a job stays queued as it is until its node completes or parks |
| Redelivery.EffectOnce | internal/honker/queue.go:56-74 | of all successes, fan-out transactions and parks submitted for one queued job, by whomever and however often, at most one takes effect |
| Steadiness.TracksIsSteady | internal/honker/deps.go:67-89 | a run that keeps the engine's invariant, and was not cancelled, starts such histories: all its counters and places are right |
| Steadiness.MoveExactly | internal/honker/deps.go:129-137 | any fine move (claims, lapses, successes, counter writes, fan-outs, parks, resumes, failures, drops, late checks, timers) keeps both counters and all places right, for the plan it leads to, if and only if it is harmless: a counter written while its scheduler is queued or as it stands, a fan-out whose rejoins stand at its number of items, a skipped scheduler without rejoins, a resume of a wait still parked, or any other move |
| Steadiness.CountersKeep | internal/honker/tx.go:180-278 | in every history of fine moves both counters and all places are right up to a state if and only if every move before it was harmless |
| Steadiness.FanOutExactly | internal/worker/worker.go:566-611 | a fan-out of a job read any time before: its counter writes, expired or never committed, leave every counter right if and only if it has no rejoins or each already stood at its number of items, and nothing that is read goes wrong also while the scheduler is queued; with a valid claim the run follows the rewritten plan if and only if there is an item or no rejoin |
| Steadiness.FailureExactly | internal/worker/worker.go:1049-1146 | a failed attempt, late or not, leaves the completed nodes' results as they are if and only if its job is still queued or parked or it writes the stored result; and it fails a run with nothing dead-lettered if and only if its worker gives up without a valid claim |
| Steadiness.ResultsHold | internal/worker/worker.go:1122-1146 | as long as every move is harmless and no late failure overwrites a result, the stored results are those of the completed nodes |
| Latecomers.LateFailure | internal/worker/worker.go:1049-1146 | one node and two workers: the late failure of the first replaces the result of the completed node and marks the completed run failed |
| Latecomers.LateFanOut | internal/worker/worker.go:566-611 | one scheduler of two items and two workers: the first, late, sets the rejoin's counter back after an iteration completed; the run is marked completed with nothing left to do and its rejoin never ran; that write is the first harmful move |
| Latecomers.LateResume | internal/worker/suspend.go:353-394 | one wait that a signal and a timer both read as parked: both resume it, the stored result is no longer the one its successor got, and that one's counter falls below zero |
| Checks.CommitIsUnchecked | internal/worker/worker.go:409-415 | after a commit, the check as one step would restore the run invariant |
| Checks.LateCheckExactly | internal/worker/worker.go:518-539 | with any steps between its two reads, the check marks a run completed too early if and only if it read zero pending and then finds the run not waiting with jobs pending (for a run cancelled in between this only says that nodes are missing; `DeliveriesExactly` has the condition that can be looked up before); it repeats the callback if and only if the run was completed in between |
| Checks.DeliveriesExactly | internal/worker/worker.go:518-539 | with only signals, timers and a cancel between the reads, it does so if and only if nothing was pending while the run was parked, the deliveries resumed every parked wait or cancelled the run, and some other node had not completed |
| Checks.CheckIsNotAtomic | internal/worker/worker.go:518-539 | a run parked at one wait before its last node, and a signal between the reads: it is marked completed with that node queued |
| Databases.OldestPayload | internal/honker/suspend.go:159-172 | a buffered signal is found exactly if one of that name is buffered |
| Databases.OldestOfMore | internal/honker/suspend.go:142-154 | a newly buffered signal is found under its name exactly when no older one of that name is, and hides no other |
| Deliveries.RejectedExactly | internal/worker/suspend.go:331-344 | delivering a signal fails if and only if two different waits of waiting runs are parked on its name, and then the store stays as it was |
| Deliveries.NothingLost | internal/worker/suspend.go:331-394 | otherwise the wait parked on the name completes with the payload and nothing else happens, or, if there is none, the signal is buffered behind all others |
| Deliveries.AcceptedArrives | internal/honker/suspend.go:139-180 | in every history of the store an accepted signal completes the wait parked on its name, or stays buffered until a wait of its name completes with its payload, oldest first |
| Deliveries.SentExactly | internal/worker/suspend.go:223-268 | a send-signal node completes exactly if its signal was accepted; otherwise its attempt is recorded as failed and nothing else happens |
| Deliveries.WaitExactly | internal/worker/suspend.go:67-137 | a claimed wait completes with the oldest signal buffered under its name, leaving the others in their order; with none it parks under its name, with a timer job of its own exactly if it has a time |
| Deliveries.TakesTwins | internal/honker/suspend.go:171-177 | it takes every entry equal to that signal, so just the one exactly if there is no other |
| Deliveries.TwinsAreOne | internal/honker/suspend.go:156-177 | the same signal sent twice before its wait completes one wait, and nothing is left for a second |
| Deliveries.TimersThroughout | internal/worker/suspend.go:124-131 | in every history a parked wait with a time has a timer job while its run waits, and whenever that fires it completes exactly that wait, without a payload |
| Databases.Without | internal/honker/suspend.go:171-177 | consuming a signal removes every entry equal to it and no other |
| Signals.EventKeeps | internal/worker/suspend.go:67-137 | over all runs of the store, every step keeps each run's invariant, for an unfolding of the plan it was started with, and never lets a buffered signal coexist with a wait parked on its name |
| Signals.StoreHistoryKeeps | internal/worker/suspend.go:331-394 | so does every history of steps |
| Signals.WaitingIsParked | internal/worker/suspend.go:382-391 | a run is waiting only with a parked wait, and with a parked wait it is waiting unless it failed |
| Signals.LateResumeIsNothing | internal/worker/suspend.go:353-361 | once a wait completed, a signal resume changes nothing and its timer job only removes itself |
| Signals.WaitAndSignalCommute | internal/worker/suspend.go:89-106 | park-then-signal and signal-then-park give the same results, counters, enqueued jobs and pending, up to a leftover timer; the statuses agree if and only if something is left pending or parked, else only the signal-first order completes the run |
| Signals.StoreCommutes | internal/worker/suspend.go:331-344 | the same over the whole store, leaving buffered signals and other runs alone, and the leftover timer is a no-op |
| Signals.WokenBy | internal/worker/suspend.go:353-371 | a resumed wait's stored result tells a signal and its payload from a timer, and the fired timer is gone |
| Signals.JobIsEvent | internal/worker/worker.go:287-355 | handling a claimed job of any kind is one of these steps |
| Dedupe.DedupeKeeps | internal/worker/worker.go:779-789 | each worker step keeps: a key's first success really ran, every later completion did not run and stored that first result; and a succeeded record never changes again |
| Dedupe.DedupeHistory | internal/honker/tx.go:199-216 | the same along every history, a succeeded record staying the same from then on |
| Dedupe.ExecutedOnce | internal/worker/worker.go:370-403 | of two completions under one key the later did not run and has the earlier one's result, and one no later than the earlier really ran |
| Repeats.OthersApart | internal/honker/tx.go:199-216 | handling a job of any kind under a key leaves the record of every other workflow, node name or key as it was, and under an empty key all of them |
| Repeats.KeyedExactly | internal/worker/worker.go:370-403 | an ordinary node whose record says succeeded is handled as if it had returned the recorded result, whatever it would have done; otherwise what it did counts, and its committed success or its failure and cause become its record |
| Repeats.ControlsRecord | internal/worker/worker.go:1119-1146 | any other node runs regardless of its key; a failed attempt leaves a failed record with the cause, and completing, parking or skipping leaves none |
| Repeats.SkippedExactly | internal/honker/tx.go:285-295 | over every history from a store without completions, a node claimed under a key is skipped, and repeats that result, if and only if a node of the same workflow, name and key string completed before |
| Dedupe.UseIsStored | internal/worker/worker.go:376-411 | a completion under a key stores that result as the node's result |
| Dedupe.JobIsDeed | internal/worker/worker.go:1122-1146 | handling a claimed job of any kind is one of these steps |
| Stores.Store.Claim | internal/honker/queue.go:28-37 | afterwards this worker and nobody else holds a valid claim on a claimable job, other claims are as before, and the attempts are one more |
| Stores.Store.Ack | internal/honker/tx.go:111-120 | an ack removes the job exactly if the claim is valid, and says so |
| Stores.Store.RetryClaim | internal/honker/queue.go:67-69 | a retry returns a valid claim to pending, or dead-letters it at the queue's limit |
| Stores.Store.DecrementDependents | internal/honker/deps.go:67-89 | every listed counter is decremented, the ready ones are those that reached zero, and a missing counter is an error |
| Stores.Store.InitRunDeps | internal/honker/deps.go:45-60 | writes one counter per listed node and leaves the others |
| Stores.Store.FanOut | internal/honker/tx.go:85-107 | decrements, then enqueues in order the downstream jobs that are ready, and counts them |
| Stores.Store.CommitNodeAtom | internal/honker/tx.go:180-278 | result, dedupe record, fan-out, pending and ack take effect together, or, on an error in any, runs and dedupe records are as before |
| Stores.Store.CreateRun | internal/honker/runs.go:39-51 | an empty id is an error; else claims on the id's jobs stay as they were, only claimable jobs stay in the books, and the pending count of one is right for the head to come exactly when there are none |
| Stores.Store.CancelRun | internal/honker/runs.go:175-194 | marks the run cancelled; what stays claimable, and which timers stay, is exactly what a worker holds; parked waits are gone, and nothing else changes |
| Stores.Store.BufferSignal | internal/honker/suspend.go:142-154 | the signal is found under its name unless an older one is; every other name finds what it found before |
| Stores.Store.TakeBufferedSignal | internal/honker/suspend.go:159-180 | returns the oldest payload of the name and removes every entry equal to it |
| Workers.Worker.CheckRunComplete | internal/worker/worker.go:518-539 | marks the run completed and fires the callback exactly if pending is zero and the run is not waiting |
| Workers.Worker.Thread | internal/worker/worker.go:455-468 | every successor gets the threaded input, and is a skip-job exactly if the node was skipped or a switch chose another branch |
| Workers.Worker.CommitFailed | internal/worker/worker.go:1122-1146 | writes the failed result row and, under a key, the failed record of that workflow, node name and key, and nothing else |
| Workers.Worker.Fail | internal/worker/worker.go:1049-1097 | records a failed attempt; the run fails exactly at the last claim the cause allows, and the job is dead-lettered there or at the queue's limit, else claimable again |
| Workers.Worker.HandleSkip | internal/worker/worker.go:421-439 | records skipped and cascades |
| Workers.Worker.HandleSwitch | internal/worker/worker.go:444-475 | routes to the chosen branch, or records a failure when the output names none |
| Workers.Worker.AssembleForeachInput | internal/worker/worker.go:722-743 | puts the iterations' results, in order, under the foreach's name |
| Workers.Worker.HandleNode | internal/worker/worker.go:358-415 | does to the store what the keyed handling of an ordinary node says (`Repeats.KeyedExactly`): dedupe skip, run, commit, cascade, or failure |
| Workers.Worker.FindDownstreamJob | internal/worker/worker.go:696-704 | finds the first downstream job of that id |
| Workers.Worker.FindRejoins | internal/worker/worker.go:708-716 | finds the rejoin jobs in rejoin order |
| Workers.Worker.ScatterBodies | internal/worker/worker.go:586-606 | builds one body job per item, each leading to the marked rejoins |
| Workers.Worker.HandleForeach | internal/worker/worker.go:559-617 | does to the store what the fan-out says, rollback and failure included |
| Workers.Worker.CompleteWait | internal/worker/suspend.go:144-160 | completes the wait on the spot, exactly as the success atom would |
| Workers.Worker.HandleWait | internal/worker/suspend.go:67-137 | consumes a buffered signal or parks, the whole transaction or none of it, failures recorded |
| Workers.Worker.ResumeInstance | internal/worker/suspend.go:353-394 | resumes one parked wait, or changes nothing |
| Workers.Worker.HandleTimer | internal/worker/worker.go:299-303 | resumes the timer's wait if it is parked and acks the timer either way |
| Workers.Worker.ResumeBySignal | internal/worker/suspend.go:331-344 | resumes the one wait parked on the name, buffers if there is none, and fails, changing nothing, exactly if two different waits are |
| Workers.Worker.HandleSendSignal | internal/worker/suspend.go:223-268 | delivers the signal, then completes the node, or records a failure exactly when two waits contest the name |
| Workers.Worker.HandleClaimed | internal/worker/worker.go:287-355 | handling any claimed job changes the whole store exactly as its specification says |
| Workers.Worker.Work | internal/worker/worker.go:266-282 | claiming and handling any job does to the store what its specification says and keeps the dedupe invariant; it keeps every run's invariant and the no-missed-signal invariant unless it completes a scheduler that has rejoins but no item for them |
| Workers.Worker.Tick | internal/worker/worker.go:299-303 | so does a timer |
| Workers.Worker.Signal | internal/worker/suspend.go:331-344 | so does a signal from the control plane |
| Workers.Worker.Stop | internal/honker/runs.go:175-194 | so does a cancel |
| Wafers.KnownDeps | internal/wafer/dag.go:61-88 | a node's dependencies are the distinct references that resolve |
| Wafers.OrderedIffFree | internal/wafer/dag.go:97-115 | an order that leaves only stuck nodes out lists exactly the nodes not behind a cycle |
| Wafers.FullIffAcyclic | internal/wafer/dag.go:117-132 | it lists all nodes if and only if the graph has no cycle |
| Dags.IndexNames | internal/wafer/dag.go:42-59 | a name means its first node, and exactly the repeated identifiers are reported |
| Dags.CollectReferences | internal/wafer/dag.go:61-95 | dependency lists, in-degrees and successor lists are those of the graph, and exactly the unknown references are reported |
| Dags.Kahn | internal/wafer/dag.go:97-115 | the order is topological, the nodes it leaves out each wait on another one left out, and exactly they keep a positive in-degree |
| Dags.ResolveDAG | internal/wafer/dag.go:39-135 | exactly the duplicate names, the unknown references and, if and only if there is a cycle, the nodes reachable from one, in list order, are reported; without a cycle the nodes come back as a permutation with every dependency earlier |
| Dags.ClashesMissed | internal/wafer/dag.go:42-59 | where no duplicate is reported, two identifiers clash if and only if an unnamed node's position is the name of a later node |
| Dags.ClashResolves | internal/wafer/dag.go:11-16 | such a list resolves without an issue |
| Runners.LinkDependents | internal/runner/runner.go:82-91 | every job's dependents become exactly, and in run order, the nodes that reference it |
| Runners.SetUpLoops | internal/runner/runner.go:93-130 | the schedulers are set up in run order, or a body is unknown |
| Compilation.LoopExactly | internal/runner/runner.go:98-130 | setting up a scheduler of any shape fails exactly if its body is unknown; else it loses its body and no other dependent, carries the body as it was with the body's dependents as rejoins, and marks and copies exactly these, in order; no other job changes |
| Runners.Nest | internal/runner/runner.go:131-141 | after the reverse loop, if dependents come later in the run order, every job carries the complete trees of all its dependents: no copy is stale |
| Runners.FromWafer | internal/runner/runner.go:48-153 | fails exactly when the Wafer does not resolve; else, if references mean earlier nodes, as they do where no identifiers clash, it compiles the run order from its first root, every nested job carrying its own node, and the head the event |
| Compilation.CompiledCarries | internal/runner/runner.go:60-79 | in the compiled tree of any Wafer every job, at every depth and in loop bodies, carries the workflow, name, type, config, registered command, secrets and dedupe key of the node that its id stands for |
| Launches.TreeEdges | internal/runner/runner.go:131-141 | a job that is no scheduler has as dependents the nodes that reference it, and its downstream is, index by index, their complete trees |
| Launches.SchedulerTree | internal/runner/runner.go:93-130 | a scheduler carries its body's template and rejoins, and leads to the same rejoin trees as its body |
| Launches.NamedByItsDependencies | internal/runner/runner.go:257-269 | the nodes that list a node among their dependents, each once, are exactly the nodes it depends on, whose number is its initial counter |
| Launches.CompiledWf | internal/runner/runner.go:48-153 | a compiled Wafer with one root and supported schedulers is a well-formed plan |
| Launches.CompiledShape | internal/runner/runner.go:93-130 | its schedulers have the shape the engine supports |
| Markers.PlanMarks | internal/runner/runner.go:105-130 | in a compiled Wafer a rejoin collects its own scheduler's body, under that scheduler's variable and name, and a node that is no rejoin collects nothing |
| Controls.InitDeps | internal/runner/runner.go:257-269 | writes a counter for exactly the Wafer's identifiers, where none clash the number of nodes each depends on; fails exactly when the Wafer does not resolve |
| Controls.PlanForIs | internal/runner/runner.go:48-153 | the plan laid down for a Wafer has the Wafer's nodes, each with the dependencies listed for it and a job of that run that carries its name, type, config, registered command, secrets and dedupe key |
| Controls.StartRun | internal/runner/runner.go:234-253 | starts the plan of a runnable Wafer and, over nothing live, establishes the run invariant for that very plan; on any error nothing is written |
| Controls.WaferCompletes | internal/runner/runner.go:234-253 | in every history of a run so started, it is marked completed if and only if every node of the Wafer completed, a foreach body in all its iterations, and the last completion was a commit |
| WaferRuns.TreeShapedPlan | internal/runner/runner.go:48-153 | a Wafer without foreach nodes whose nodes each depend on at most one compiles to a tree that collects nothing |
| WaferRuns.PlainPlan | internal/runner/runner.go:48-153 | one without foreach nodes whose nodes are all named compiles to jobs that thread their input plainly, from a head with the event and no steps |
| WaferRuns.WaferRefines | internal/runner/runner.go:234-253 | from the Wafer to the end: in every history of a run of such a tree, started over nothing live, that completes every node, the stored results are exactly those the interpreter computes from the head and the event |
| WaferRuns.WaferLineage | internal/worker/worker.go:404-410 | from the Wafer to any state of any history: every queued job carries the run's event and exactly the stored results of one dependency path down to it |
| WaferRuns.WaferMaps | internal/worker/worker.go:722-743 | from a Wafer with foreach nodes to any state of any history: a rejoin that runs finds, under its foreach's own identifier, the iterations' results in the order of the items |
| WaferRuns.PlanLoop | internal/runner/runner.go:98-113 | a foreach node of the Wafer becomes a scheduler with the body and the loop variable that its config names, the variable being `item` by default |
| WaferRuns.WaferJobs | internal/runner/runner.go:60-79 | from the Wafer to any state of any history: every queued job, foreach iterations included, carries its own node's workflow, name, type, config, registered command, secrets and dedupe key, and the run's id |
| Events.WaferEvent | internal/worker/worker.go:1099-1117 | in every history, foreach included unless one calls its items `event`, every queued job, parked wait, completion and saved job has the event of the start, so a restart has it again |
| Controls.RerunContinue | internal/runner/runner.go:192-207 | re-enqueues the saved job as the only pending work |
| Controls.RerunFailed | internal/runner/runner.go:168-229 | fails without writing when nothing is saved, the workflow is not registered or does not compile, or the mode is unknown; else continues, restarts or discards |
| Controls.FanRuns | internal/runner/runner.go:93-130 | a Wafer with a foreach, its body and a rejoin is runnable |
| Validation.EditDistance | internal/wafer/validate.go:325-345 | the two-row loop computes the recursive Levenshtein distance |
| Validation.ZeroIffEqual | internal/wafer/validate.go:325-345 | the distance is zero exactly between equal strings |
| Validation.Symmetric | internal/wafer/validate.go:325-345 | it is symmetric |
| Validation.Triangle | internal/wafer/validate.go:325-345 | it satisfies the triangle inequality |
| Validation.NoShorterWay | internal/wafer/validate.go:325-345 | no sequence of single-character edits is shorter than the distance |
| Validation.ShortestWay | internal/wafer/validate.go:325-345 | and some sequence is exactly as long |
| Validation.Nearest | internal/wafer/validate.go:310-323 | the first candidate at the least distance if that is at most two, else the empty string |
| Refs.JoinsBack | internal/components/refs/refs.go:60-84 | the pieces of a template put back together are the template |
| Refs.SplitIsUnique | internal/components/refs/refs.go:60-84 | there is only one way to split a template into texts and longest references |
| Refs.EachRef | internal/components/refs/refs.go:60-84 | reports exactly the references of that split, in order |
| Refs.Substitute | internal/components/refs/refs.go:89-122 | renders that same split token by token |
| Refs.RenderFails | internal/components/refs/refs.go:112-117 | rendering fails exactly when some reference has no value, and names the first such one |
| Refs.FailsWhenReported | internal/components/refs/refs.go:89-122 | substitution fails exactly when the walk reports a name absent from the values |
| Refs.SubstituteItself | internal/components/refs/refs.go:86-122 | substituting every reference by itself gives the template back |
| Refs.ReferencedSecrets | internal/components/refs/refs.go:45-57 | the distinct references, each where it first appears in the walk |
| Refs.OrderIsSeen | internal/components/refs/refs.go:45-57 | the report is the same for every order of the templates if and only if, of any two templates, one's references begin with the other's |
| Refs.OrderMatters | internal/components/refs/refs.go:45-57 | two templates with one reference each, reported in the order they are walked |

## Left out

- Signals.WaitAndSignalCommute: the signal's payload is assumed not to be buffered under the same name already, because consuming a signal deletes every equal entry.
- Interpreter.EngineRefinesInterpreter: trees only, because a fan-in node's input depends on which parent finishes last.
- Steadiness.CountersKeep: cancels and reruns are not among the fine moves; `HistoryTracks` and `LateCheckExactly` have cancels between whole steps.
- Checks.LateCheckExactly: the status read and the status write of the check are one step, where the original has two operations.
- Lineage.RunLineage: plans without foreach schedulers; what a rejoin gets besides is `OrderedMap`.
- Settling.SettleAll: stops before a scheduler that has rejoins but no item for them, where `ForeachKeepsExactly` and `SkipKeepsExactly` show that the counters lose their meaning.
- Workers.Worker.Work: promises the run invariants only where the step is `Supported`, for the same reason.
- Runners.FromWafer: where identifiers clash and a reference means a later node, it does not say what is compiled.
- Controls.InitDeps: where identifiers clash, it says which counters are written, not their values.
- Runners.Nest: a scheduler takes its body's template at its own turn; the original keeps a pointer, which differs only if the body comes before its scheduler in run order. Slices shared between jobs are not modelled either, which matters only for a foreach nested in a foreach.
- Restarts.RerunContinueExactly: the saved job is the queued one; a collecting rejoin is saved with its array in its input, which the invariant does not allow for, and runs just the same (`AssembledTwice`).
- Foreach shapes beyond the supported one: a body or rejoin with other dependencies, nodes after a rejoin, nested bodies.
- Jobs of a run without a row, as cron and poll schedules enqueue them, and schedules themselves.
- Node execution, expressions, subprocesses, Singer bookmarks and MCP calls; times and retry delays; the text of failures.
- JSON encoding and decoding, SQLite, and store errors other than a missing counter and an expired claim.
- Several workers racing on one dedupe key: the lookup and the commit are one step here, and the failed record that a late failure writes under its key is not modelled.
- The HTTP control plane, the command line, the daemon, secrets, webhooks, redaction and configuration editing.
- The schema checks of validation other than the nearest name, and the JSON pointers of issues.
