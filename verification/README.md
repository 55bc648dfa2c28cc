# Saga executor, inbox and outbox

A Dafny model of the saga library's step executor together with its inbox, its outbox and its outbox reader.

A service receives a message, claims `(saga_id, from_step)` in the inbox, runs a user action, writes one outbox row per
topic, and commits all of it in one transaction. Two nested retry loops, an error handler and a failure event surround
that transaction. A reader polls the outbox, publishes rows and counts attempts. The broker may duplicate, drop and
reorder. The proofs say what holds over all of that: for every oracle of faults, every user action, every interleaving.

## How the model is built

| file | content |
|---|---|
| `Message.dfy` | messages, saga identifiers with their text form (section 4 of RFC 9562), JSON trees |
| `Errors.dfy` | error chains; `errors.As` and `errors.Is` as recursive functions |
| `Backoff.dfy` | both backoff policies over `real`, with floor and ceiling |
| `Journal.dfy` | tables, keys, committed transactions (bundles) and their history |
| `ExecutorSpec.dfy` | the executor as functions from world to world |
| `Executor.dfy` | the executor as classes; every method equals its function in `ExecutorSpec` |
| `ExecutorOutcome.dfy`, `StepTheorems.dfy`, `Blame.dfy` | what one execution or compensation can commit |
| `Attempts.dfy`, `Contents.dfy`, `Paths.dfy` | the same in terms of a step's own functions and topics |
| `Budget.dfy`, `Schedule.dfy` | cost of the nested loops, and when each of their tries is made |
| `Progress.dfy`, `Duplicates.dfy` | recovery from faults, and redelivery |
| `Limits.dfy`, `LostAck.dfy`, `SharedKey.dfy`, `Trace.dfy` | where guarantees end |
| `Chains.dfy` | sagas started in one process |
| `Outbox.dfy` | encoding and decoding of rows |
| `Reader.dfy` | the reader as a class over a reused array buffer |
| `System.dfy`, `SystemSafety.dfy`, `SystemTheorems.dfy` | all consumers, readers and the broker as one transition system |
| `Interference.dfy`, `Refinement.dfy`, `ReaderRefinement.dfy`, `ReaderRace.dfy` | executions and polls are runs of that system; the publishing bound is reached |

Everything the library cannot control is an oracle indexed by a clock that no two calls share: failures of begin, claim,
insert and commit, cancellation, random draws, and commits by other replicas. A commit has three outcomes: acknowledged,
failed, or done with its acknowledgement lost. `Definite` excludes the third, `Quiet` excludes other replicas; a theorem
that names neither holds without them. `Lasting` says that a context that is done stays done. Actions and handlers are
arbitrary functions of time, tables, message and error; a handler may return the error it was given.

`atomicRun`, the retried closure of `runErrorHandler` and the transaction of `WriteTx` are one operation, `Attempt`, with
three bodies: an action, a handler, or none. Closures are named by a datatype (`Work`) instead of being passed around, so
that the inner and the outer retrier are the same method, as in the source.

## Where the code and its comments differ

The model follows the code.

- `internal/executor/errors.go:4` and `executor.go:194` say that the infrastructure retrier stops at a user error. An
  `actionError` unwraps, so it stops iff the error inside is not retryable (`Budget.CalledOnceIff`); otherwise attempts
  multiply (`Budget.AttemptsMultiply`).
- `executor.go:31` says that infrastructure errors do not use up the user's retry budget. An exhausted infrastructure run
  stays retryable and uses up one unit each time, so infrastructure faults are survived iff there are fewer than
  U * I of them (`Progress.RecoversIff`, `Budget.UnitsSpent`).
- `executor.go:195` promises acknowledgement of a duplicate without running anything again. That holds for an execution iff
  it has no error topics, or no `OnError` and the duplicate is found in time (`Duplicates.DuplicateSilentIff`). With
  `OnError` and error topics the first redelivery commits a failure event (`Duplicates.FirstRedelivery`), and once those
  rows exist every further one is refused for ever (`Duplicates.RefusedForEver`, `Duplicates.FurtherRedelivery`).
  Compensations: `Duplicates.DuplicateCompensationIff`, `Duplicates.HiccupRefuses`.
- An acknowledged message need not leave a trace in its saga: a failing `OnError` may return a message of another saga, and
  the event then goes there (`Trace.AckWithoutTrace`). `Trace.StrayIff` says which handlers and routes this can happen to.
- `executor.go:23` calls action, transaction and outbox one atomic unit. After a lost commit acknowledgement a step can be
  both committed and compensated, and its message acknowledged (`LostAck.ChargedAndUndone`). `LostAck.SplitIff` says exactly
  when: the step has an error handler, no claim, or no try left to find its own duplicate, and the failure rows fit. If it
  is the error handler's commit, whenever they fit (`LostAck.HandlerSplitIff`). A compensation that is committed in this
  way can be refused (`LostAck.UndoneAndRefused`): iff it has no claim, or neither an error handler nor a further try
  (`LostAck.CompensationUnheardIff`); if it is the handler's commit, no claim or no further try of the handler
  (`LostAck.CompensationHandlerUnheardIff`).
- `inbox.go:16` promises to recognise messages that were processed already. The key is `(saga_id, from_step)`, without the
  receiving step, so of two steps of one service fed by the same sender only one runs, and the other's message is acknowledged
  unless it has both an error handler and error topics; a compensation is lost in the same way (`SharedKey.SharedKeyIff`,
  `SharedKey.CalledIff`, `SharedKey.FanOut`, `SharedKey.CompensationLost`).
- A step without error topics acknowledges a message although a cancelled context kept everything from being done
  (`Limits.CancelledDoesNothing`).
- The failure event claims nothing, so a redelivered message can still execute (`Limits.FailureIsNotFinal`).
- `controller.go:305` says that a chain is interrupted by an error. A failed step is not an error to its chain iff its
  failure event can be written or is not wanted (`Chains.SilentLossIff`); the chain then goes on with an empty message, on
  which a later step without next topics commits under no key at all (`Chains.EmptyStepIff`, `Chains.SeatTaken`).
- The retrier also sleeps after its last failure (`Backoff.DoublingTotal`).
- A failed success-update neither marks the row nor counts an attempt, and an undecodable row counts none
  (`Reader.PollCountsFailures`, and `System.ReaderStep` with its lost updates).

## Model

| member | source | states |
|---|---|---|
| Uuid.PrintParse | internal/outbox/reader.go:326-327 | Parsing the canonical text of an identifier gives the identifier back. |
| Uuid.AcceptedIff | internal/outbox/writer.go:41-44 | A 36-character text names an identifier iff it has dashes in the four places and hexadecimal digits of either case elsewhere. |
| Uuid.ParsePrint | internal/outbox/writer.go:40-44 | An accepted identifier prints as its own text in lower case. |
| Uuid.SameSagaOtherCase | internal/inbox/inbox.go:32-36 | Two accepted texts name the same saga iff they differ only in letter case. |
| Json.ValueRoundTrip | internal/outbox/reader.go:329-331 | A value that JSON can hold comes back as itself, except that integers become floats, at every depth. |
| Json.NormalKeeps | internal/outbox/reader.go:329-331 | A value comes back unchanged iff there is no integer anywhere inside. |
| Errors.InfraErrorIsClean | internal/executor/executor.go:205-208 | A begin, claim, write or commit failure is retryable, hides no user error and is never a duplicate. |
| Errors.ExhaustedKeepsLast | retry/retry.go:64-69 | A used-up retrier reports an error that is a duplicate, retryable or a user error iff the last error was. |
| Errors.FoundActionIsInside | internal/executor/errors.go:6-16 | Unwrapping a user error adds neither retryability nor a sentinel that the chain did not have. |
| Backoff.PlainRange | backoff/backoff.go:30-50 | The plain policy stays in [min, max] for every retry number iff min <= max. |
| Backoff.PlainMonotone | backoff/backoff.go:30-50 | Waits never shrink as retries go on iff there is no cap or min does not exceed it. |
| Backoff.PlainReachesCap | backoff/backoff.go:30-50 | The cap is reached, and every later wait equals it. |
| Backoff.JitterRange | backoff/backoff.go:66-91 | With jitter the wait stays in [min, max] for every random draw, rounding up included. |
| Backoff.JitterSpreads | backoff/backoff.go:52-91 | The values taken over all draws are exactly the whole numbers from min to the capped exponential, rounded up. |
| Backoff.WaitsPlain | backoff/backoff.go:30-50 | The plain wait in so many words: min before the first retry, then min * factor^(n-1) in whole units, two standing for a factor that does not grow, and max once that exceeds a positive max. |
| Backoff.WaitsDrawn | backoff/backoff.go:66-91 | The wait one draw gives: its part of that same value under the cap, at least min, rounded up. |
| Backoff.WaitsJittered | backoff/backoff.go:52-91 | Some draw gives the wait iff it lies between min and that same value under the cap, rounded up. |
| Backoff.NoFloorPlain | backoff/backoff.go:40-43 | From the first retry on a floor that is not positive counts as one. |
| Backoff.NoFloorJittered | backoff/backoff.go:76-90 | With jitter too; the wait may then be as short as the draw makes it. |
| Backoff.UncappedWait | backoff/backoff.go:30-50 | Uncapped with factor two, retry n waits min * 2^(n-1). |
| Backoff.DoublingTotal | retry/retry.go:59-89 | N attempts sleep min * 2^(N-1) in all, because the loop also sleeps after its last failure. |
| Journal.ApplyKeepsValid | internal/outbox/migrations.go:19-33 | A transaction that fits keeps both tables equal to what committed transactions put there, each key once. |
| Journal.AtMostOnce | internal/inbox/inbox.go:56-67 | At most one committed transaction per inbox key, and the key is in the inbox iff there is one. |
| Journal.NoOrphanRow | internal/outbox/writer.go:98-114 | Every outbox row was committed by exactly one transaction, together with all rows of that transaction. |
| Journal.ApplyLowersRemaining | internal/outbox/migrations.go:61-66 | Every transaction that uses a key of a saga strictly lowers the number of keys the saga can still use. |
| ExecutorOutcome.WriteAll | internal/outbox/writer.go:98-114 | Writing succeeds only with exactly one fresh row per topic, all carrying the same message. |
| ExecutorOutcome.AttemptEffect | internal/executor/executor.go:196-240 | One transaction commits its whole bundle or nothing, under every fault, and reports no error only after a commit. |
| Attempts.AttemptEnds | internal/executor/executor.go:196-240 | The nine ends of a transaction, by the surroundings, the tables and the result of its code alone: which errors ask for a retry, which are the user's, which is the duplicate, what is committed, whether code ran. |
| Attempts.FailedInsertIsRetried | internal/executor/executor.go:230-232 | If any insert fails, the error asks for a retry, holds no user error and no duplicate, and nothing is committed. |
| Attempts.RaceIsLost | internal/inbox/inbox.go:56-67 | If another replica commits the message before the transaction begins, the transaction finds the duplicate, calls no code and commits nothing. |
| ExecutorOutcome.LoopEffect | retry/retry.go:53-91 | Retrying, at either level, has the effect of one call: at most one commit if a key protects it or commits answer truthfully. |
| ExecutorOutcome.InfraEffect | internal/executor/executor.go:246-269 | The same for the infrastructure loop, with the user error unwrapped and duplicates still recognisable. |
| ExecutorOutcome.UserEffect | internal/executor/executor.go:274-298 | The same for both loops nested. |
| Blame.NeverMixes | internal/executor/executor.go:305-364 | The message beside an error of a handler is from that same, last handler call, whatever failed in earlier attempts. |
| Blame.HandlerSeesForeign | internal/executor/executor.go:123-125 | An error handler only ever runs on an error from outside the library: given a duplicate, its own claim fails first. |
| StepTheorems.ExecuteEffect | internal/executor/executor.go:88-143 | Only complete main or failure bundles are committed, and no error means one was, or the key is claimed, or there are no error topics. |
| StepTheorems.SingleOutcome | internal/executor/executor.go:88-143 | With truthful commits there is one outcome: main bundle with its message returned, all failure rows, or nothing; an error means nothing. |
| StepTheorems.SingleChange | internal/executor/executor.go:88-143 | If nobody else commits, the database is unchanged or changed by exactly that one bundle, whose body ran on those tables. |
| Contents.ExecutionSends | internal/executor/executor.go:211-240 | Every bundle of a delivered execute message holds what the step's own action or error handler returned for that message on the recorded tables, with one execute row per next topic and no other, or is a failure event for exactly the error topics; alone and with truthful commits the tables change by exactly that. |
| Contents.CompensationSends | internal/executor/executor.go:165-187 | Every bundle of a delivered failed message holds what the compensation or its error handler returned, with one failed row per error topic and no other. |
| Contents.OtherTypesRefused | controller/controller.go:282-284 | A message of any other type is refused and changes nothing. |
| Paths.GoesForward | internal/executor/executor.go:110-112 | If the action succeeds in try k, after k infrastructure faults, the delivery is acknowledged with exactly its result committed and sent. |
| Paths.HandledForward | internal/executor/executor.go:123-128 | If the action fails for good, its error handler gets just that error, and the handler's result is committed and sent in its place. |
| Paths.TurnsBack | internal/executor/executor.go:114-120 | If it fails for good and there is no handler, the incoming message goes to the error topics as failed, or the delivery is refused because that does not fit. |
| Paths.HandlerTurnsBack | internal/executor/executor.go:130-142 | If its handler fails for good too, the event carries the whole message that the handler left, or else the incoming one. |
| Paths.EventOutlastsFaults | internal/executor/executor.go:371-401 | The failure event is retried through infrastructure faults like any other transaction. |
| Paths.GoesBack | internal/executor/executor.go:165-170 | If the compensation succeeds in try k, the delivery is acknowledged with exactly its result committed and sent to the error topics. |
| Paths.HandledBack | internal/executor/executor.go:178-183 | If it fails for good, its error handler gets just that error, and its result is committed and sent in its place. |
| Paths.RefusedBack | internal/executor/executor.go:172-176 | Without a handler the delivery is refused with an error that holds the compensation's own, and nothing changes. |
| Paths.HandlerRefusedBack | internal/executor/executor.go:185-187 | With a handler that fails for good too, the error returned holds the handler's. |
| Paths.CompensationErrorKept | internal/executor/executor.go:172-187 | Whatever made a compensation fail, errors.Is and errors.As find in the returned error what they find in that of its last phase. |
| StepTheorems.OnceDespiteLostAcks | internal/executor/executor.go:88-143 | Whatever commits answer, a keyed execution commits its main bundle at most once and the failure rows at most once; LostAck.SplitIff says when both. |
| StepTheorems.StartCommitsOnce | internal/executor/executor.go:211-237 | The start of a saga claims nothing, yet its first outbox row stops a second commit after a lost acknowledgement. |
| LostAck.RunUnheard | internal/executor/executor.go:235-240 | If the k-th try of a keyed run commits, its acknowledgement is lost and nothing fails later, the run commits just that bundle and fails; with a claim it reports a duplicate iff a further try was left. |
| LostAck.SplitIff | internal/executor/executor.go:114-142 | Such an execution publishes its failure event as well iff it has an error handler, no claim or no try left, and the event fits; it is refused iff the event is wanted and does not fit, and silent otherwise. |
| LostAck.HandlerSplitIff | internal/executor/executor.go:348-352 | If the error handler's own commit goes unheard, its bundle is the only one before the failure event, which joins it iff it fits; otherwise the execution is refused iff it has error topics. |
| LostAck.CompensationUnheardIff | controller/controller.go:286-292 | A compensation whose commit goes unheard is committed once; it is acknowledged iff it has a claim, and an error handler or another try. |
| LostAck.CompensationHandlerUnheardIff | internal/executor/executor.go:165-187 | The same for the commit of its error handler: acknowledged iff it has a claim and the handler another try. |
| LostAck.UndoneAndRefused | internal/executor/executor.go:165-187 | A concrete compensation that is committed and refused. |
| LostAck.ChargedAndUndone | internal/executor/executor.go:114-142 | A concrete delivery that is acknowledged with both its action and its failure event committed. |
| StepTheorems.CompensateOutcome | internal/executor/executor.go:146-188 | No error iff one compensation bundle was committed (truthful commits); otherwise the database is unchanged. Contents.CompensationSends says what the bundle holds, LostAck.CompensationUnheardIff says what a lost acknowledgement does. |
| StepTheorems.AckLeavesTrace | controller/controller.go:264-294 | An acknowledged failed message has its key in the inbox; an acknowledged execute message too, or has all its failure rows, or has no error topics. |
| Schedule.UserStops | retry/retry.go:53-91 | If the first k tries of both loops are missed and the next stops, the run ends with what that try returns, at its scheduled time, after k + 1 transactions. |
| Schedule.UserMisses | retry/retry.go:53-91 | If all U * I tries are missed, each was made, and the error stays retryable. |
| Limits.CancellationIsPrompt | retry/retry.go:60-62 | Once the context is done both loops end within two ticks, whatever user code and database do. |
| Limits.CancelledIff | retry/retry.go:59-89 | A run that never gets through ends with the context's own error iff the context was done when it ended, and otherwise with an error that still asks for a retry. |
| Budget.ExecuteBudget | internal/executor/executor.go:74-143 | At most U * I action calls and U * I + 2 * I transactions. |
| Budget.CompensateBudget | internal/executor/executor.go:146-188 | A compensation calls its action at most U * I times and opens at most U * I + I transactions. |
| Budget.ExecuteSleep | retry/retry.go:53-91 | Total sleep of an execution is at most U infrastructure loops with the pauses between them, and two loops more. |
| Budget.CompensateSleep | retry/retry.go:53-91 | Total sleep of a compensation is at most U infrastructure loops with the pauses between them, and one loop more. |
| Budget.PauseAfterTry | retry/retry.go:77-83 | After its n-th failed try a loop of either level asks for the wait of retry n under its own policy, draw included. |
| Budget.CalledOnceIff | internal/executor/errors.go:3-16 | With a second try at hand and no faults, the infrastructure run stops at a failed action, calling it once, iff the error is not retryable. |
| Budget.AttemptsMultiply | internal/executor/executor.go:246-298 | An action that always asks for a retry is called exactly U * I times under any policies; with plain policies the sleep is the exact nested sum. |
| Budget.UnitsSpent | internal/executor/executor.go:284-298 | One unit of the user budget is one infrastructure run; the next one starts only after a retryable error, and, while the context lives, always. |
| Budget.NestedDoubling | retry/retry.go:59-89 | With doubling and no cap that sleep is U * minI * 2^(I-1) + minU * 2^(U-1). |
| Duplicates.DuplicateIff | internal/inbox/inbox.go:56-67 | A run on a key already in the inbox reports the duplicate iff one of its U * I tries gets past begin and claim while the context lives, whichever tries failed before. |
| Duplicates.BlockedExecution | internal/executor/executor.go:114-142 | Under any faults a repeated execution calls no user code; it ends silently if there is no OnError and the duplicate is found, and is exactly a failure event otherwise. |
| Duplicates.DuplicateSilentIff | internal/executor/executor.go:114-142 | A repeated execution is acknowledged with nothing committed iff it has no error topics, or no OnError and finds its duplicate in time. |
| Duplicates.DuplicateSilentByStep | internal/executor/executor.go:114-142 | Without failing begins, claims or contexts: iff it has no OnError or no error topics. |
| Duplicates.DuplicateCommitsIff | internal/executor/executor.go:123-142 | With OnError set, some run of a repeated execution commits something iff its failure rows fit the outbox. |
| Duplicates.RefusedForEver | internal/executor/executor.go:142 | If they do not fit, every redelivery is refused and the database never changes. |
| Duplicates.DuplicateCompensationIff | controller/controller.go:286-292 | A repeated compensation calls no user code and commits nothing under any faults, and is acknowledged iff its last phase finds the duplicate. |
| Duplicates.DuplicateCompensationByStep | controller/controller.go:286-292 | Without failing begins, claims or contexts every repeated compensation is acknowledged and changes nothing. |
| Duplicates.FirstRedelivery | internal/executor/executor.go:123-142 | A concrete redelivery that commits a failure event although nothing fails. |
| Duplicates.FurtherRedelivery | internal/executor/executor.go:142 | A concrete one that is refused at every further redelivery although nothing fails. |
| Duplicates.HiccupPublishes | internal/executor/executor.go:114-120 | A concrete redelivery without OnError that publishes a failure event because one begin failed. |
| Duplicates.HiccupRefuses | internal/executor/executor.go:172-187 | A concrete compensation that finds its duplicate and is still refused, because begin then failed for its handler. |
| SharedKey.CalledIff | internal/inbox/inbox.go:48-67 | Without faults the action of a step is called for a message iff the key of its saga and sender is not in the inbox. |
| SharedKey.SharedKeyIff | internal/inbox/inbox.go:48-67 | After one step has claimed, a message of the same saga and sender runs no other step, forward or backward, and is acknowledged all the same iff it is a compensation or the step has no OnError or no error topics. |
| SharedKey.FanOut | internal/inbox/inbox.go:48-54 | A concrete fan-out without faults: both messages are acknowledged, only the first step happens. |
| SharedKey.CompensationLost | internal/inbox/inbox.go:48-54 | A concrete compensation without faults that is acknowledged and never run. |
| Progress.WritesIff | internal/outbox/writer.go:73-114 | All rows are written iff the message can be stored, no insert fails, no topic repeats and no key is taken. |
| Progress.ReadyIff | internal/executor/executor.go:205-233 | A transaction is ready to commit iff begin and claim succeed, the key is free, the body succeeds and all rows can be written. |
| Progress.AttemptSucceedsIff | internal/executor/executor.go:196-240 | An attempt reports success iff it is ready to commit and the commit is acknowledged. |
| Progress.PassingIff | internal/executor/executor.go:205-237 | The infrastructure faults (begin, claim, an unwritable row, a commit that does not go through) are exactly the failures without a commit that ask for a retry and are not the user's. |
| Progress.RecoversIff | retry/retry.go:53-91 | A run whose first m tries fail in begin, claim, write or commit, wherever in the two loops, commits exactly its bundle iff m < U * I, and nothing otherwise. |
| Progress.ExecutionRecovers | internal/executor/executor.go:88-112 | An execution under any retry policy that recovers within U * I tries returns the message its action committed, and no fallback runs. |
| Progress.FailureLeaves | internal/executor/executor.go:305-364 | A handler that fails for good at its k-th try, after k passing faults, leaves its own message and error. |
| Progress.FailureEventCarriesLeft | internal/executor/executor.go:123-142 | Whatever made the action fail, the failure event then carries what OnError left, or else the incoming message, and claims nothing. |
| Limits.CancelledDoesNothing | retry/retry.go:60-63 | Cancelled from the start, an execution under an infrastructure retrier does nothing, and returns no error iff there are no error topics. |
| Limits.OutageSpendsUserBudget | retry/retry.go:60-76 | While begin fails, whatever else happens, exactly U * I transactions are tried and the action is never called. |
| Limits.AtMostOneCommitIff | internal/executor/executor.go:211-237 | A successful action commits at most once in every run iff its plan has a claim or a topic, or there is only one try. |
| Limits.FailureIsNotFinal | internal/executor/executor.go:371-401 | After a failure event a redelivery can commit the action exactly when it could before. |
| Trace.AckWithoutTrace | internal/executor/executor.go:133-142 | A concrete acknowledged execution that leaves no trace in its own saga. |
| Trace.StrayIff | internal/executor/executor.go:133-142 | An error handler on a route can lose the trace of a message iff the failure rows can be written, the saga is an identifier, and the handler can fail leaving a storable message of another saga. |
| Chains.SilentLossIff | controller/controller.go:325-331 | A failed first step can go unnoticed by its chain iff its failure event can be written or there are no error topics. |
| Chains.AfterFailure | controller/controller.go:325-331 | After a published failure the next step runs on the empty message, and whatever it commits of its own is under no key. |
| Chains.EmptyStepIff | internal/executor/executor.go:211-237 | A step whose action can succeed on the empty message can commit it iff it has no next topics. |
| Chains.SeatTaken | controller/controller.go:306-332 | A concrete saga whose first step fails and whose second step still commits its business change, without an error and without a key. |
| Chains.ChainKeepsSagaIff | controller/controller.go:325-331 | In one run without an error, the saga is kept iff every step went forward; otherwise the empty message was returned. |
| Chains.ChainLinks | controller/controller.go:303-332 | A chain that keeps its saga commits one main bundle per step, each on the committed result of the step before, and returns the last result. |
| Chains.StartedSaga | controller/controller.go:306-332 | A started saga returns its own identifier iff every step was committed under it. |
| Chains.ChainStops | controller/controller.go:325-330 | If a step is the first to return an error, the call ends in that step's world with that error, and no later step runs. |
| Chains.ChainCompletesIff | controller/controller.go:306-332 | The call returns no error iff there is a step and none returns one, and then returns the last result. |
| Chains.SeatKept | controller/controller.go:325-330 | A concrete saga whose call returns an error and whose second step, which could have committed, never runs. |
| Executor.Database.BeginTx | internal/executor/executor.go:205-209 | Opens a transaction on the tables as other replicas left them, or reports the failure. |
| Executor.Tx.Claim | internal/inbox/inbox.go:32-67 | Stages the key, or reports a malformed saga, a retryable failure, or a duplicate; nothing else changes. |
| Executor.Tx.WriteMessages | internal/outbox/writer.go:98-114 | The loop stages what the writer function says, or returns its first error. |
| Executor.Tx.Commit | internal/executor/executor.go:235-237 | Publishes claim, tables and rows together, or nothing; an error may follow either. |
| Executor.StepExecutor.Attempt | internal/executor/executor.go:196-240 | The transaction in steps equals the specified attempt, its captured variables included. |
| Executor.StepExecutor.Retry | retry/retry.go:53-91 | The loop equals the recursive specification: budget, cancellation, pauses and the last error. |
| Executor.StepExecutor.RunWithInfraRetry | internal/executor/executor.go:246-269 | Equals the specified infrastructure run: the user error unwrapped, the left message kept only beside it. |
| Executor.StepExecutor.RunWithUserRetry | internal/executor/executor.go:274-298 | Equals the specified user run. |
| Executor.StepExecutor.PublishEvent | internal/executor/executor.go:371-401 | Equals the specified failure event: no topics, no event; no claim. |
| Executor.StepExecutor.ExecuteStep | internal/executor/executor.go:88-143 | Equals the specified execution, about which the theorems above speak. |
| Executor.StepExecutor.CompensateStep | internal/executor/executor.go:146-188 | Equals the specified compensation. |
| Executor.Controller.Deliver | controller/controller.go:265-293 | Equals the specified dispatch and acknowledgement decision, and commits only forward bundles and failure events for execute messages, only compensations for failed ones. |
| Executor.Controller.StartSagaWithSteps | controller/controller.go:306-332 | The loop over the steps equals the specified chain. |
| Outbox.MetaRoundTrip | internal/outbox/reader.go:321-327 | The stored metadata decode to the written ones, the omitted empty fields included. |
| Outbox.PayloadRoundTrip | internal/outbox/reader.go:329-331 | The stored payload decodes to the written one up to JSON typing. |
| Outbox.StoredForm | internal/outbox/writer.go:46-54 | The documents of a stored row, field by field; empty trace fields are left out. |
| Outbox.DecodableIff | internal/outbox/reader.go:316-337 | A row can be decoded iff its documents have the expected types; the columns name sender and saga. |
| Outbox.OutboxRoundTrip | internal/outbox/writer.go:40-70 | Whatever the writer stores decodes to the written message, with the row's step and the canonical text of the same saga. |
| Outbox.ForwardedUnchanged | internal/outbox/writer.go:40-70 | A step that sends on what it received writes a row that decodes to exactly the message it addressed. |
| SystemSafety.CommitKeeps | internal/executor/executor.go:235-239 | In every interleaving a transaction that reaches its commit fits the tables, since pending keys exclude each other. |
| SystemSafety.MoveIsLater | internal/outbox/reader.go:247-269 | No move deletes or changes a row, a claim or a committed transaction. |
| SystemSafety.MeterKeeps | internal/outbox/reader.go:184-217 | No reader step breaks the bound on attempts, marks and copies in flight. |
| SystemTheorems.AtMostOneEffect | internal/inbox/inbox.go:48-67 | In every reachable state at most one committed transaction claimed a key, and the key is in the inbox iff one did. |
| SystemTheorems.NoOrphanDelivery | internal/outbox/reader.go:184-196 | Whatever is delivered came from another service or decodes from a row committed with all its sibling rows. |
| SystemTheorems.BoundedPublishing | internal/outbox/reader.go:228-260 | With R unlocked readers a row is published at most maxAttempts - 1 + R times plus lost updates, and every mark has its own publish that returned no error. |
| SystemTheorems.FreshRow | internal/outbox/writer.go:73-96 | A row that is not committed yet was never published and has no attempts and no marks. |
| SystemTheorems.NothingUndone | internal/outbox/reader.go:271-314 | From a reachable state on, no row is deleted or changed and no attempt or mark is taken back. |
| SystemTheorems.FaultsArePossible | internal/outbox/reader.go:150-172 | Loss, redelivery, foreign messages, rollback, crashed readers and skipped rows are possible at any time, so the theorems hold in spite of them. |
| SystemTheorems.RowPhase | internal/executor/executor.go:224-230 | A row is in the execute phase iff its message has type execute, in the compensate phase iff failed, and names the step that wrote it. |
| SystemTheorems.NeverTurnsBack | internal/executor/executor.go:165-180 | Everything that descends from a failed message, through any number of transactions, only sends failed messages. |
| SystemTheorems.FiniteSagas | internal/outbox/migrations.go:19-33 | Under any routing, cycles included, a saga commits at most steps + 2 * topics keyed transactions in one database. |
| SystemTheorems.KeyedBundleCounts | internal/executor/executor.go:211-237 | Every committed transaction with a claim or a topic is among those counted. |
| ReaderRace.BoundIsAttained | internal/outbox/reader.go:228-260 | For any numbers of readers and attempts a reachable state exists in which a row was published maxAttempts - 1 + R times with no lost update. |
| Refinement.ReplayBundle | internal/executor/executor.go:196-240 | One committed bundle is a run of the system: open, claim, body, rows, commit. |
| Interference.ExecuteTrail | internal/executor/executor.go:88-143 | While an execution runs, the database changes only by its own bundles and those of other replicas, whole and fitting. |
| Refinement.ExecuteIsRun | internal/executor/executor.go:88-143 | An execution with its retries and fallbacks, the commits of other replicas meanwhile and other transactions half done, is a run of the system that ends in the same database. |
| Refinement.CompensateIsRun | internal/executor/executor.go:146-188 | So is a compensation. |
| Refinement.DeliveryStaysReachable | controller/controller.go:265-293 | A delivery leaves a database that the system can reach, so the system theorems hold of the executor. |
| Refinement.ChainIsRun | controller/controller.go:325-331 | So is a chain of local steps, if steps without next topics return messages of known senders. |
| Refinement.StartStaysReachable | controller/controller.go:306-332 | A saga started in this process leaves a reachable database too. |
| Reader.OutboxReader.constructor | internal/outbox/reader.go:85-111 | The buffer has exactly as many slots as the query limit, defaults included. |
| Reader.OutboxReader.ScanBatch | internal/outbox/reader.go:339-387 | The first slots hold exactly the rows read in full, in order; at most one further slot is touched. |
| Reader.OutboxReader.ProcessMessage | internal/outbox/reader.go:184-196 | An undecodable row is neither published nor counted; any other is published once and its row updated. |
| Reader.OutboxReader.HandlePublishError | internal/outbox/reader.go:198-204 | Counts on the stored counter, schedules by the scanned one, or leaves the table alone if the update fails. |
| Reader.OutboxReader.HandlePublishSuccess | internal/outbox/reader.go:206-217 | Marks the row; a row that is gone is counted as an error; a failed update changes nothing. |
| Reader.OutboxReader.Poll | internal/outbox/reader.go:161-172 | Exactly the rows of this scan are published, in order, whatever the buffer held before. |
| Reader.AllForward | internal/outbox/reader.go:271-314 | A poll adds and removes no row, takes back no counter or mark, keeps all message columns, and leaves other rows alone. |
| Reader.EachHandledOnce | internal/outbox/reader.go:167-171 | Every row of a batch is handled once, on the state the scan saw. |
| Reader.PollCountsFailures | internal/outbox/reader.go:198-226 | A failed publish counts one attempt, never beyond the limit, and is postponed by between min and max (Reader.PauseGrows says by how much); a lost update changes nothing. |
| Reader.PauseGrows | internal/outbox/reader.go:219-226 | A counted failure of a row scanned with n attempts postpones it by min for n = 0, then by min * factor^(n-1) in whole units, up to a positive max. |
| Reader.JitteredPauseGrows | internal/outbox/reader.go:219-226 | With jitter the pauses over all draws are exactly those from min to that same value, rounded up. |
| Reader.UndecodableStays | internal/outbox/reader.go:184-188 | An undecodable row costs no call and keeps every column, so every later query finds it due again. |
| Reader.DoneForGood | internal/outbox/reader.go:237-239 | A row that is marked, or has used up its attempts (five by default), is read by no later query. |
| Reader.NotBeforeItsTime | internal/outbox/reader.go:237-239 | A postponed row is read by no query before its time. |
| Reader.FreshRowIsDue | internal/outbox/writer.go:56-69 | A row the writer made is due from its creation on, with no attempts and no mark. |
| Reader.EveryRowPublished | internal/outbox/reader.go:184-196 | A poll of rows made by the writer makes exactly one publish call per row, in order, with the decoded message. |
| ReaderRefinement.RowAgrees | internal/outbox/reader.go:184-217 | Handling a row and the two moves of the system leave table, counters and broker in agreement. |
| ReaderRefinement.RowStaysReachable | internal/outbox/reader.go:184-217 | From any reachable state, whatever others did since the scan, handling the next row is a run of the system that counts its publish, its success and its lost update; a failed publish may have arrived. |
| ReaderRefinement.PollStaysReachable | internal/outbox/reader.go:161-172 | A whole poll is a run of the system with one call a row: table and broker agree afterwards, and the counters of publishes, successes and lost updates grow by exactly its rows. |
| ReaderRefinement.PollIsBounded | internal/outbox/reader.go:228-260 | With R unlocked readers a row was published, before and in this poll, at most maxAttempts - 1 + R times plus the updates lost before and in this poll. |
| ReaderRefinement.ReachableMirrors | internal/outbox/writer.go:40-70 | Every reachable state of the system stands for a table of rows that the writer made. |
| ReaderRefinement.CommitMirrors | internal/outbox/writer.go:73-114 | A commit adds to that table exactly the rows that the writer encodes. |

## Left out

- Refinement.DeliveryStaysReachable: commits of other replicas are replayed whole, at the begin that sees them, and each must
  be one that a source available from the start calls for; transactions of others may be half done, but hold no key that the
  execution wants, since its inserts would have to wait for them.
- Refinement.ExecuteIsRun: likewise. Refinement.CompensateIsRun too.
- Refinement.StartStaysReachable: likewise; where a step has no next topics, its user code must return a known sender or none.
- ReaderRefinement.PollStaysReachable: without moves of others between its rows; ReaderRefinement.RowStaysReachable covers
  one row after any such moves.
- Trace.StrayIff: for consumers working alone; StepTheorems.AckLeavesTrace gives the implication with other replicas at work.
- Duplicates.DuplicateCommitsIff: for a consumer working alone. Duplicates.RefusedForEver too.
- Progress.RecoversIff: for a consumer working alone whose context lives. LostAck.SplitIff likewise, for one lost acknowledgement.
- LostAck.HandlerSplitIff: likewise. LostAck.CompensationUnheardIff and LostAck.CompensationHandlerUnheardIff too.
- SharedKey.CalledIff: for a consumer working alone.
- Paths.GoesForward: for a consumer working alone, and so for the other paths; Contents.ExecutionSends holds with others at work.
- Attempts.FailedInsertIsRetried: likewise; Attempts.AttemptEnds holds with others at work.
- Chains.SilentLossIff: for a first message without a sender and with a payload that can be stored.
- Uuid.ParsePrint: only the 36-character form; the parser also accepts a URN prefix, braces and 32 bare digits.
- Uuid.SameSagaOtherCase: likewise.
- Outbox.OutboxRoundTrip: payloads are preserved up to JSON typing, since every number decodes as a float.
- Budget.NestedDoubling: exact sleep only for an action that always asks for a retry; Budget.ExecuteSleep bounds all runs.
- The MySQL claim, which rests on the driver's affected-row counts; the Postgres claim is modelled.
- Broker adapters, connection pools, SQL text and placeholders: tables, keys and the result of each statement are modelled.
- Text-level JSON: documents are trees; replacement of invalid UTF-8 and the exact bytes are not part of this model.
- Rounding of float64 and overflow of durations: backoff is computed over real numbers.
- Clocks and time zones: one logical clock for the executor, one time value per handled row for the reader.
- Sleep counts the requested time; cancellation during a pause is an oracle value.
- Error texts and the depth of wrapping: a chain keeps what errors.As and errors.Is can see.
- Business tables are one opaque value that an action reads and replaces; user SQL on the inbox or outbox tables is excluded.
- Aliasing of buffer slots: a slot is a value that a scan overwrites. A slot spoilt by a half-read row is modelled.
- Steps built without an action or a compensation, which the constructor accepts: calling the missing function panics.
- `WithRetry`, custom backoff policies, and panics in user code.
- Tracing, metrics and logging; the two trace fields of a message are carried, injection is not modelled.
- Configuration defaults other than batch size and attempts, constructors, getters, migrations, `Start` and `Close`.
- Generation of the saga identifier, which is an input of `StartSaga`; a generator error returns before anything is done.
- Liveness: that every row is published in the end is false for undecodable and exhausted rows.
