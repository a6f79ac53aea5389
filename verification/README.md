# VideoOps control plane: a Dafny model

The repository is a control plane for video generation. An API creates projects, shots and
generation attempts; workers claim attempts, submit them to an executor and store what comes back;
an operator service recommends actions on failures; a browser follows it all over an event stream.
This project models that control plane and proves what holds of it over whole runs, on all inputs.

| file | models |
|---|---|
| `Domain`, `ControlPlane` | records, transition tables, and every transaction as a function from the stored rows to the rows it commits or the error it throws |
| `Transactions` | the same transactions as the services run them, one write after another, with rollback |
| `Lifecycle`, `LifecycleSteps`, `EventLog`, `Runs` | the cross-entity invariant, its preservation by every transaction, and what follows for all runs |
| `Outcomes` | what each failure, verdict, creation and retry leaves behind, and when it commits |
| `Leases` | what a lease protects and when it lapses; keys and prompts that no two attempts share |
| `Completion` | when a completed project has all its shots accepted, and what a submitted run does to it |
| `Submission`, `SubmissionRuns`, `Resubmission` | several workers claiming, announcing and submitting, with crashes, stale leases and recovery, over whole runs, and when an attempt is submitted again |
| `SampleRuns`, `SubmissionWitnesses` | concrete reachable runs, the inputs of what is found false below |
| `WorkerAnswers`, `Worker` | one worker processing an attempt while everyone else commits, and which answer warrants which of its transactions |
| `Overlaps` | two creations, and two acceptances, that overlap |
| `Observer`, `EventQueue`, `EventStream` | de-duplicating executor messages, the queue behind the stream, the socket callbacks |
| `Json`, `JsonReader`, `CanonicalJson`, `BraceScanner` | canonical JSON, a reader for it, and the scan for the last object in a text |
| `Idempotency`, `OperatorRuns` | at-most-once work by key and by trigger event |
| `Bridge`, `ServerSentEvents`, `RunPages`, `Money` | object graphs across the frame boundary, event frames and polling, run listings, dollar amounts |

A transaction is atomic: it commits all of its writes or leaves the store as it was. Clocks, lease
times, identifiers, the executor's answers, evaluator verdicts and the order in which anyone acts are
parameters, so each theorem is about every choice of them. Rows are kept in creation order and a row's
position is its identifier.

## What the proofs found

Some properties one would expect are false of the code. For each there is a concrete input and the
exact condition under which the code meets it.

- A submission is not always announced first. A worker that stalls past its lease before it loads its
  attempt finds the row queued again, skips the announcing transaction (its guard asks for a claimed
  row) and submits (`SubmissionWitnesses.UnannouncedSubmission`). For an attempt in progress the
  announcement precedes the submission exactly when the stored row has left the queue, which it has
  whenever the worker loaded anything but a queued row (`SubmissionRuns.SubmissionFollowsIntent`).
- An attempt can be submitted twice. The announcing transaction does not look at who holds the lease, and
  the check before submitting looks at the status the claim returned, not at the row loaded since. So a
  worker that claimed the attempt again after another one's lease had run out loads the row the other one
  announced, and both submit it (`SubmissionWitnesses.TwoSubmitters`). Of two submissions of an attempt in
  progress at most one was announced (`SubmissionRuns.OneAnnouncedSubmission`). An attempt in flight may be
  submitted again exactly when some worker that once claimed it from the queue has not yet decided
  (`Resubmission.ResubmittedExactly`); for an attempt in any status, however often it was submitted, the
  condition is `Resubmission.SubmittedLaterExactly`.
- So an attempt recovered in flight, without history, may still be submitted again, though never by the
  worker that recovered it (`SubmissionWitnesses.RecoveredIsResubmitted`,
  `SubmissionRuns.RecoveredIsNotResubmitted`), under that same condition.
- An attempt can be submitted after it has ended (`SubmissionWitnesses.EndedIsSubmitted`): exactly when such
  a worker has already loaded its row (`Resubmission.EndedSubmittedExactly`).
- An attempt can await review while its shot is still queued (`SampleRuns.SilentRunStrands`): a passing
  finish takes the shot along exactly when the running transaction had committed before
  (`Runs.ReviewNeedsRunning`). Otherwise no later accept or reject can ever succeed for it
  (`Runs.StrandedForEver`).
- A completed project can end up with a shot that is not accepted and that no attempt can be created for.
  Over any run a completed project has all of its shots accepted exactly if none was added to it after it
  had completed (`Completion.CompletedAcceptedExactly`). The request that adds one is POST /v1/runs with an
  invalid revision: its 422 answer commits the shot, while the attempt of a valid revision is refused and
  takes the shot with it (`Completion.RunOnCompleted`, `Completion.CompletedWithOpenShot`).
- Two overlapping creations in a project that already generates both commit, because that branch leaves the
  project version alone, and the first charge is lost; the attempts of a project can then cost more than its
  budget (`Overlaps.CreationsOverlapExactly`, `Overlaps.OverlapConservesExactly`, `Overlaps.LostCharge`).
  Conservation of spend is therefore proved over atomic transactions.
- Two overlapping acceptances of the last two shots of a project both commit, and neither completes it,
  because whether the other shots are accepted is read without a lock and the project is not written. It
  then never completes unless another shot is added to it (`Overlaps.AcceptancesOverlapExactly`,
  `Overlaps.CompletionMissedExactly`, `Overlaps.MissedForEver`, `Overlaps.MissedCompletion`).
- An idempotency reservation whose completion or release fails, or whose request crashes, blocks its key for
  ever, and nothing else does (`Idempotency.StrandsExactly`, `Idempotency.StrandedForEver`).
- The outbox dispatcher commits what a consumer wrote before the program threw; an inline operator run
  cut short between its writes breaks the one-recommendation rule, and nothing else does
  (`OperatorRuns.DispatchedGood`). An exception that does it is the one of the default identifier generator,
  in an adapter configured without its own: it is first asked for an identifier after the run was updated
  (apps/api/src/operator.ts:500-504 and 1028-1036; `OperatorRuns.ThrowAfterUpdateBreaks`).
- An event whose first poll comes after one with the same or a higher sequence was delivered never reaches
  the client; every other event reaches it once (`ServerSentEvents.LostExactly`,
  `ServerSentEvents.DeliveredOnce`).

A response with a null body would be recorded but never replayed (`Idempotency.LaterRequests`). That is a
property of the idempotency wrapper alone: every handler in `apps/api` answers with an object.

Claims, heartbeats, releases and stale recovery are modelled from the SQL in `packages/db`. Making a
project ready and adding a shot are parts of the one transaction of POST /v1/runs, which
`ControlPlane.SubmitRun` is; they are steps of their own as well. The steps therefore allow more runs than
the program has, and what is proved of all of them holds of the program's
(`Completion.SubmitRunIsReachable`).

## Model

| member | source | states |
|---|---|---|
| Domain.TerminalIsAbsorbing | packages/domain/src/index.ts:1079-1089 | an attempt status is terminal exactly when the transition table leaves it no move |
| Transactions.Database.CreateProject | apps/api/src/application.ts:109-140 | the project row in whatever status is asked for and its events, as specified, or the same error |
| Transactions.Database.PrepareDirectRun | apps/api/src/application.ts:215-243 | promotes a project that has not started, with its event; any other project is left alone |
| Transactions.Database.CreateShot | apps/api/src/application.ts:163-206 | an implicit approved shot and its event |
| Transactions.Database.CreateAttempt | apps/api/src/generation.ts:593-748 | checks in order, then attempt, shot, charged project and events; the first failing check decides the error |
| Transactions.Database.SubmitRun | apps/api/src/app.ts:2495-2632 | project, shot and attempt of a run in one transaction; an invalid revision commits the shot |
| Transactions.Database.RetryAttempt | apps/api/src/generation.ts:1276-1325 | only finished attempts are retried, uncertain ones only when resolved, and the new attempt names its source |
| Transactions.Database.AcceptAttempt | apps/api/src/generation.ts:1089-1186 | attempt and shot accepted together, the project completed with its last shot, events in order |
| Transactions.Database.RejectAttempt | apps/api/src/generation.ts:1196-1252 | attempt and shot rejected together, with the reason recorded |
| Transactions.Database.PinAttempt | apps/api/src/generation.ts:962-1013 | moves only the pin; the accepted attempt stays |
| Transactions.Database.UnpinAttempt | apps/api/src/generation.ts:1015-1047 | removes the pin if it is this attempt's, and otherwise writes nothing |
| Transactions.Database.RecoverStale | packages/db/src/index.ts:2540-2555 | exactly the claimed rows with an expired lease go back to the queue |
| Transactions.Database.SubmitIntent | apps/api/src/generation.ts:1712-1751 | the claimed to submitting commit with its event; a terminal row is left as it is |
| Transactions.Database.PersistSubmitted | apps/api/src/generation.ts:2106-2143 | records a prompt once, refuses a prompt another attempt has |
| Transactions.Database.MarkRunning | apps/api/src/generation.ts:2145-2182 | the attempt runs and a queued shot generates; submitting is refused by the table |
| Transactions.Database.FinishSuccess | apps/api/src/generation.ts:2347-2510 | artifact, transitions up to evaluating, verdict, second attempt update, shot, project and events, as specified |
| Transactions.Database.FailAttempt | apps/api/src/generation.ts:2515-2600 | attempt, shot and project end as the failure says; a terminal attempt is left alone |
| Transactions.Database.WithTransaction | packages/db/src/index.ts:3610-3626 | commits all of the specified transaction or restores the store, and keeps the lifecycle invariant |
| LifecycleSteps.CreationKeepsExactly | apps/api/src/application.ts:109-140 | creating a project in some status agrees with the invariant exactly when neither an attempt nor a shot has to account for the status |
| LifecycleSteps.StepKeeps | apps/api/src/generation.ts:593-2600 | every transaction, committed or refused, keeps the whole cross-entity invariant |
| Runs.ReachableHolds | apps/api/src/generation.ts:593-2600 | the invariant and the log property hold of every store any run reaches |
| Runs.ExactlyOneLiveAttempt | apps/api/src/generation.ts:612-724 | a queued, generating or in-review shot has exactly one attempt in progress, any other has none |
| Runs.ProjectStatusJustified | apps/api/src/generation.ts:2348-2580 | each project status is justified by an attempt before review or by a shot in the matching status |
| Runs.SpendIsConserved | apps/api/src/generation.ts:643-724 | spend equals the cost of the project's attempts and never exceeds the budget |
| Runs.AttemptLimitHolds | apps/api/src/generation.ts:643-660 | no shot has more attempts than the limit |
| Runs.SourceChainsAreAcyclic | apps/api/src/generation.ts:1276-1370 | chains of source attempts strictly descend and stay within one shot |
| EventLog.StepLogs | apps/api/src/generation.ts:1444-1479 | every transaction keeps the log equal to the outbox and to the stored statuses |
| Runs.LogReplaysToStatus | apps/api/src/generation.ts:2393-2508 | replaying an attempt's events gives its stored status, a claim reading as queued, and no attempt rests between generation and evaluation |
| Runs.LastReviewFindsFinalReview | apps/api/src/generation.ts:1144-1165 | the last unaccepted shot in review finds its project awaiting final review |
| Runs.AcceptCommitsExactly | apps/api/src/generation.ts:1094-1165 | accepting commits exactly when attempt and shot are both in review |
| Runs.LastAcceptanceCompletes | apps/api/src/generation.ts:1144-1180 | the last acceptance is never refused, completes the project and finds all its shots accepted |
| Runs.CompletedTakesNoAttempts | apps/api/src/generation.ts:707-719 | no attempt can be created for a shot of a completed project |
| Outcomes.FailureLeaves | apps/api/src/generation.ts:65-73 | a failure before review commits exactly in the statuses the table allows for its ending; attempt, shot and project end as the seven retryable codes, a cancellation or any other code say |
| Outcomes.FailureIsFinalExactly | apps/api/src/generation.ts:2543-2580 | the shot stays open exactly after one of the seven codes and no cancellation; otherwise no later store has another attempt of it |
| Outcomes.RetryAfterFailure | apps/api/src/generation.ts:1276-1325 | right after a failure a retry commits exactly after one of those codes, uncertain ones when resolved, unless the project is over or attempts, money, workflow or key stand in the way |
| Outcomes.LostForEver | apps/api/src/generation.ts:612-630 | no creation or retry ever commits again for a shot that failed or was cancelled, over any run |
| Outcomes.IntentLeaves | apps/api/src/generation.ts:1712-1751 | the announcement commits exactly for a claimed attempt, leases it to the worker and logs one event; an ended attempt is left alone |
| Outcomes.RecordLeaves | apps/api/src/generation.ts:2106-2143 | a prompt is recorded exactly for an announced attempt and if no other has it; recording it again changes nothing |
| Outcomes.StartLeaves | apps/api/src/generation.ts:2145-2182 | a start commits exactly outside submitting, and takes a queued or submitted attempt and its shot along |
| Outcomes.ProgressLeaves | apps/api/src/generation.ts:2184-2203 | progress is one event of an attempt that has not ended |
| Outcomes.FinishLeaves | apps/api/src/generation.ts:2347-2510 | a finish before review commits exactly outside submitting; a pass leads to review, a rejection by the evaluator fails the attempt for its media, its shot and a generating project |
| Outcomes.RejectLeaves | apps/api/src/generation.ts:1196-1252 | a rejected attempt leaves its shot open to a retry and the project alone |
| Outcomes.AnnotationsLeave | apps/api/src/generation.ts:962-1080 | a pin, an unpin and a review each change one column, and nothing when there is nothing to unpin |
| Outcomes.CreateCommitsExactly | apps/api/src/generation.ts:593-748 | a creation commits exactly for an open shot of a project under way, with a usable workflow and a new key, within limit and budget |
| Outcomes.RetryCommitsExactly | apps/api/src/generation.ts:1276-1325 | a retry commits exactly where a creation does, from a rejected, failed or timed out attempt, uncertain ones when resolved |
| Outcomes.RunCommitsExactly | apps/api/src/app.ts:2495-2632 | a run of a valid revision commits exactly in a new project or one that is not over, and leaves one queued attempt of one new shot |
| Leases.LeaseProtects | packages/db/src/index.ts:2416-2555 | until a lease expires, nobody else's claim, recovery, heartbeat or release touches the attempt |
| Leases.ClaimsExactly | packages/db/src/index.ts:2416-2495 | a claim and a recovery take an attempt exactly when it is queued or in flight, no lease on it lasts and the worker holds none that lasts |
| Leases.ClaimTakesOne | packages/db/src/index.ts:2416-2495 | a worker that has just claimed works on that attempt alone |
| Leases.OwnerKeepsOrReleases | packages/db/src/index.ts:2497-2538 | the owner prolongs its lease or gives it up, requeueing an attempt that was only claimed |
| Leases.StaleAreRequeued | packages/db/src/index.ts:2540-2555 | exactly the claimed attempts with an expired lease are requeued |
| Leases.KeysAndPromptsIdentify | packages/db/migrations/0001_phase2_domain.sql:169-171 | in every reachable store no two attempts share a key or a prompt |
| Completion.SettledStep | apps/api/src/generation.ts:593-2600 | a project with nothing in progress keeps its row under every transaction, and its shots stay accepted exactly unless one is added |
| Completion.CompletesAll | apps/api/src/generation.ts:1144-1180 | whatever transaction completes a project finds all of its shots accepted |
| Completion.CompletedAcceptedExactly | apps/api/src/application.ts:163-206 | over any run a completed project has all its shots accepted exactly if none was added after it had completed |
| Completion.SubmitRunIsReachable | apps/api/src/app.ts:2495-2632 | what a submitted run commits, its parts commit one after the other, so the invariants cover it |
| Completion.RunOnCompleted | apps/api/src/app.ts:2530-2600 | a run submitted to a completed project commits exactly when its revision is invalid, and leaves an unaccepted shot |
| Completion.CompletedWithOpenShot | apps/api/src/app.ts:2573-2588 | a reachable completed project with all shots accepted, and the one it becomes by such a run |
| Runs.RejectCommitsExactly | apps/api/src/generation.ts:1196-1252 | rejecting commits exactly when attempt and shot are both in review |
| Runs.AcceptedForEver | apps/api/src/generation.ts:986-1165 | an accepted shot keeps its accepted attempt for ever, and that attempt passed its evaluation |
| Runs.TerminalForEver | packages/domain/src/index.ts:380-396 | no later transaction changes a terminal status |
| Runs.ReviewNeedsRunning | apps/api/src/generation.ts:2418-2432 | a passing finish takes the shot into review exactly when the attempt was running, and otherwise strands the attempt |
| SampleRuns.SilentRunStrands | apps/api/src/generation.ts:2011-2076 | a reachable store with a stranded attempt |
| Runs.StrandedForEver | apps/api/src/generation.ts:1089-1252 | a stranded attempt can never be accepted or rejected, whatever happens |
| Overlaps.CreationsOverlapExactly | apps/api/src/generation.ts:612-724 | overlapping creations both commit exactly with their own shots and keys, and their own projects or one already generating |
| Overlaps.OverlapConservesExactly | packages/db/src/index.ts:2006-2045 | when both commit, the spend of the second's project is the cost of its attempts exactly if the first was free or elsewhere |
| Overlaps.LostCharge | apps/api/src/generation.ts:663-724 | a reachable project whose attempts then cost more than its budget |
| Overlaps.AcceptancesOverlapExactly | apps/api/src/generation.ts:1144-1169 | overlapping acceptances in one project both commit exactly when it was not generating |
| Overlaps.CompletionMissedExactly | apps/api/src/generation.ts:1144-1169 | together they accept every shot exactly if one after the other they would have completed the project, and never complete it |
| Overlaps.MissedForEver | apps/api/src/generation.ts:1144-1169 | such a project never completes, over any run that adds no shot to it |
| Overlaps.MissedCompletion | apps/api/src/generation.ts:1144-1169 | a reachable store with two such acceptances |
| Submission.DoFits | apps/api/src/generation.ts:1521-1877 | every move of every worker and everyone else keeps log, rows and workers in agreement |
| SubmissionRuns.OneIntentEver | apps/api/src/generation.ts:1712-1751 | at most one worker ever commits an attempt's move to submitting |
| SubmissionRuns.SubmissionFollowsIntent | apps/api/src/generation.ts:1712-1820 | a submission for an attempt in progress follows the intent exactly when the stored row has left the queue |
| SubmissionWitnesses.UnannouncedSubmission | apps/api/src/generation.ts:1712-1820 | a reachable submission with no intent in the log |
| SubmissionRuns.UnannouncedIsNotRecorded | apps/api/src/generation.ts:2106-2143 | the prompt of such a submission cannot be recorded while the row waits in the queue |
| SubmissionRuns.OneAnnouncedSubmission | apps/api/src/generation.ts:1712-1820 | of two submissions of an attempt in progress at most one was announced; the other was made by a worker that went on from a loaded row that was not claimed |
| SubmissionWitnesses.TwoSubmitters | apps/api/src/generation.ts:1712-1820 | a reachable attempt announced once and submitted twice |
| SubmissionRuns.RecoveredIsNotResubmitted | apps/api/src/generation.ts:1773-1783 | the worker that recovered an attempt in flight does not submit it itself |
| Resubmission.SubmittedLaterExactly | apps/api/src/generation.ts:1521-1820 | whatever its status, an attempt may be submitted again exactly when it waits in or is claimed from the queue, or some worker that once claimed it is still able to |
| Resubmission.ResubmittedExactly | apps/api/src/generation.ts:1712-1820 | an attempt in flight may be submitted again exactly when some worker that once claimed it from the queue has not yet decided |
| Resubmission.EndedSubmittedExactly | apps/api/src/generation.ts:1647-1820 | an attempt that has ended may be submitted exactly when such a worker has already loaded its row |
| SubmissionWitnesses.EndedIsSubmitted | apps/api/src/generation.ts:1773-1820 | a reachable attempt that has ended and is submitted once more |
| SubmissionWitnesses.RecoveredIsResubmitted | apps/api/src/generation.ts:1773-1820 | a reachable attempt recovered in flight that is submitted once more |
| SubmissionRuns.RecoveredEndsUncertain | apps/api/src/generation.ts:1773-1783 | without history it ends failed as uncertain |
| Worker.GenerationWorker.ProcessAttempt | apps/api/src/generation.ts:1623-1877 | everything the worker tries is warranted by the answers it has heard, and a normal return leaves the attempt settled the way the last answer says, unless the worker is stopping, within the polling and sleeping bounds |
| WorkerAnswers.AnswerDecides | apps/api/src/generation.ts:1955-2104 | a told error fails the attempt, an interruption cancels it, a verdict finishes it, and silence, a lost signal, drift, an unusable workflow or a refused submission each end it with their own code |
| Worker.GenerationWorker.HandleEvent | apps/api/src/generation.ts:2003-2031 | each event of the stream is answered by the transaction it warrants, an end only by the first event that tells one |
| Worker.GenerationWorker.Reconcile | apps/api/src/generation.ts:2053-2104 | at most maxReconnects + 1 polls and 10 * (2^maxReconnects - 1) ms of sleep, then a timeout |
| Worker.GenerationWorker.FinishSuccess | apps/api/src/generation.ts:2205-2515 | a normal return leaves the attempt settled, whoever else finished or failed it in between |
| Observer.ComfyObserver.Observe | apps/api/src/generation.ts:428-448 | passes a message exactly when its prompt has not ended and its key is new, and remembers both |
| Observer.KindTable | apps/api/src/generation.ts:382-425 | which message text tells which event |
| Observer.KeyIsInjective | apps/api/src/generation.ts:432-437 | the key promptId:type:data identifies the message, whatever the prompt identifier contains |
| Observer.PassesExactly | apps/api/src/generation.ts:428-448 | a message passes exactly when no earlier one equals it or ended its prompt |
| Observer.OutputIsClean | apps/api/src/generation.ts:428-448 | no repeats, at most one terminal event for a prompt and nothing of it afterwards |
| Observer.DuplicatesChangeNothing | apps/api/src/generation.ts:428-448 | repeating an earlier message anywhere later leaves the whole output unchanged |
| EventQueue.AsyncEventQueue.Push | packages/comfy-client/src/index.ts:274-282 | the value goes to the first waiting call or the buffer, never both sides filled; ignored once closed |
| EventQueue.AsyncEventQueue.Close | packages/comfy-client/src/index.ts:284-293 | every waiting call ends as the first close says |
| EventQueue.AsyncEventQueue.Next | packages/comfy-client/src/index.ts:295-309 | the k-th call gets the k-th accepted value, and past those the way the queue was closed |
| EventStream.FirstEndingDecides | packages/comfy-client/src/index.ts:1440-1561 | no callback after the first ending one changes the outcome |
| EventStream.EndedExactly | packages/comfy-client/src/index.ts:1467-1561 | the stream has ended exactly when some callback was an ending one |
| EventStream.EndsAsFirstEnding | packages/comfy-client/src/index.ts:1467-1561 | cleanly by a terminal message, a return or an abort without reason, else with the reason, a protocol error, a disconnection or an open timeout, as the first ending callback says |
| EventStream.TerminalEndsCleanly | packages/comfy-client/src/index.ts:1503-1531 | a terminal message is the last one delivered and ends the stream cleanly |
| EventStream.OpenStreamLosesNothing | packages/comfy-client/src/index.ts:1503-1531 | an open stream has delivered every matching message in order |
| EventStream.OutcomesAreFinal | packages/comfy-client/src/index.ts:274-309 | what a call of next() came to stays, whatever callbacks follow |
| EventStream.EventStream.CallsGetWhatWasTold | packages/comfy-client/src/index.ts:1440-1561 | each call of next() gets what the specification of the callbacks leaves for it, however calls and callbacks interleave |
| EventStream.EventStream.CallsGetMessagesThenEnd | packages/comfy-client/src/index.ts:1440-1561 | once a callback has ended the stream, the calls get the messages up to it one each and then its end or its error |
| EventStream.EventStream.OnMessage | packages/comfy-client/src/index.ts:1503-1531 | the queue follows the specification of the callbacks so far |
| EventStream.EventStream.OnAbort | packages/comfy-client/src/index.ts:1488-1496 | an abort ends an open stream with its reason, also if closing the socket calls back at once |
| EventStream.EventStream.OnTimer | packages/comfy-client/src/index.ts:1467-1480 | an open timeout ends a stream that was never opened |
| JsonReader.PrintedReads | packages/workflow-compiler/src/canonical.ts:23-70 | reading what was printed gives the value and leaves the text after it |
| CanonicalJson.CanonicalRoundTrip | packages/workflow-compiler/src/canonical.ts:23-70 | a reader recovers the value, keys sorted, from its canonical text |
| CanonicalJson.RefusedExactly | packages/workflow-compiler/src/canonical.ts:23-70 | canonicalization is refused exactly when something in the value is not JSON |
| CanonicalJson.BeforeExactly | packages/workflow-compiler/src/canonical.ts:57-66 | keys are ordered by their first differing code unit, a prefix first |
| CanonicalJson.EscapesAre | packages/workflow-compiler/src/canonical.ts:23-30 | the escape of each code unit of a string |
| CanonicalJson.CanonicalTextIdentifies | packages/workflow-compiler/src/canonical.ts:19-70 | two values have one canonical text exactly when they differ at most in key order |
| CanonicalJson.EnvelopeIdentifies | packages/workflow-compiler/src/canonical.ts:72-90 | equal canonical envelopes mean equal profile, graph and parameters |
| BraceScanner.LastBalancedJsonObject | apps/api/src/operator.ts:1528-1559 | the five-variable scan agrees with a recursive lexer on every text |
| BraceScanner.LastObjectIsFound | apps/api/src/operator.ts:1528-1559 | of several printed objects between prose the last one is found |
| BraceScanner.CanonicalObjectIsRecovered | apps/api/src/operator.ts:1528-1559 | a canonical object between prose is found exactly and parses back to itself |
| Idempotency.IdempotencyRecords.ExecuteIdempotent | apps/api/src/app.ts:1378-1435 | reservation, mutation and completion commit or roll back together |
| Idempotency.IdempotencyRecords.ExecuteIdempotentDeferred | apps/api/src/app.ts:1451-1519 | its own completion or release finds its reservation untouched by other requests |
| Idempotency.IdempotencyRecords.Mutate | packages/db/src/index.ts:1858-1935 | reservation, completion and release at every level below the request: the application's key and the repository's |
| Idempotency.IdempotencyRecords.ExecuteNested | apps/api/src/workflow.ts:207-291 | the transaction of a request around these levels |
| Idempotency.FailedLeavesNothing | packages/db/src/index.ts:1917-1935 | a mutation that fails at any level leaves no reservation, even where nothing rolls it back |
| Idempotency.NestedTogether | apps/api/src/workflow.ts:390-448 | every key consulted is answered with one resource, made now or replayed, or nothing is stored |
| Idempotency.MutatedExactly | packages/db/src/index.ts:1858-1935 | a mutation succeeds exactly when no level repeats a key and the insert, or the replay of the first taken level, gives a resource, which is its result |
| Idempotency.NestedExactly | apps/api/src/workflow.ts:390-448 | so a request is answered with that resource exactly then, and otherwise as the record of its own key says |
| Idempotency.TransactionalExactly | apps/api/src/app.ts:1378-1435 | without levels: the mutation's response under a free key, the recorded one under a matching key, and an unchanged table when it fails |
| Idempotency.DoKeeps | packages/db/src/index.ts:3501-3590 | every move of every request keeps table, holders and answers in agreement |
| Idempotency.OneWorker | apps/api/src/app.ts:1451-1519 | at most one request at a time works under a key |
| Idempotency.OneResponse | packages/db/src/index.ts:3553-3575 | one response is recorded for a key, and everyone answered got it for the same request |
| Idempotency.LaterRequests | packages/db/src/index.ts:3508-3551 | later requests are answered, kept waiting or refused exactly by match and by a null body |
| Idempotency.WorksExactly | apps/api/src/app.ts:1461-1486 | a request starts working exactly when no record holds its key |
| Idempotency.FinishAnswers | apps/api/src/app.ts:1489-1519 | a request whose work came back is answered with it, and it is recorded |
| Idempotency.StrandsExactly | apps/api/src/app.ts:1489-1519 | of all moves of all requests, exactly a crash of the one holding the key, or a completion or release of it that fails, strands the key |
| Idempotency.ReleaseFreesKey | packages/db/src/index.ts:3577-3584 | after a release that commits the key is free again |
| Idempotency.StrandedForEver | apps/api/src/app.ts:1489-1506 | a record nobody holds and nobody answered blocks its key for ever |
| OperatorRuns.OperatorService.PersistOutcome | apps/api/src/operator.ts:992-1095 | run, recommendation and event in order, guarded by version and uniqueness |
| OperatorRuns.OperatorService.RunDeferred | apps/api/src/operator.ts:738-793 | a deferred run that found work leaves its trigger with exactly one recommendation, whoever wrote it |
| OperatorRuns.LateDeferredChangesNothing | apps/api/src/operator.ts:728-737 | of several prepared runs the first to persist wins and the others change nothing |
| OperatorRuns.DispatchedGood | packages/db/src/index.ts:5143-5178 | a delivered claim keeps the rule exactly when no exception of the program cuts the inline run short |
| OperatorRuns.ThrowAfterUpdateBreaks | apps/api/src/operator.ts:1028-1036 | a first delivery whose identifier generator throws after the run was updated |
| OperatorRuns.OneRecommendationEach | apps/api/src/operator.ts:538-793 | under any interleaving: at most one recommendation a trigger, as many created events, a terminal run exactly with it |
| OperatorRuns.EndsWithItsCall | apps/api/src/operator.ts:1009-1095 | exactly a persist that gets through ends a run, succeeded or failed as its call, with one recommendation and one event |
| OperatorRuns.EndedRunTellsResult | apps/api/src/operator.ts:1009-1027 | over any run of the system the status of an ended run is the result of the call whose outcome was committed |
| OperatorRuns.DeliveryLeavesWork | apps/api/src/operator.ts:538-727 | an inline delivery leaves one recommendation, any other a run to prepare |
| Bridge.IsJsonValue | integrations/comfyui-videoops/web/bridge-contract.js:73-115 | terminates on every graph, restores the shared set, and accepts exactly when every path is fine |
| Bridge.IsJson | integrations/comfyui-videoops/web/bridge-contract.js:69-115 | true exactly when no cycle is reachable and everything reachable is JSON |
| Bridge.BridgeMessageGuard.Accept | integrations/comfyui-videoops/web/bridge-contract.js:340-364 | refuses a key exactly when it is among the last 512 let through |
| Bridge.NoRepeatWithinWindow | integrations/comfyui-videoops/web/bridge-contract.js:350-360 | no key gets through twice within the window |
| ServerSentEvents.ParseSseFrames | apps/web/src/api.ts:749-775 | the nested loops compute the events of the frames |
| ServerSentEvents.RoundTrip | apps/api/src/app.ts:3323-3344 | parsing what was rendered gives exactly the events after the cursor (section 9.2 of the WHATWG HTML Living Standard) |
| ServerSentEvents.Poll | apps/web/src/App.tsx:1239-1262 | over whatever logs the polls find, the loop delivers what is specified and keeps the highest sequence as its cursor |
| ServerSentEvents.DeliveredExactly | apps/web/src/App.tsx:1239-1262 | an event is delivered by some poll exactly when its sequence is above the cursor at the first poll that finds it |
| ServerSentEvents.LostExactly | apps/web/src/App.tsx:1239-1262 | it is lost exactly when one with the same or a higher sequence was delivered before it appeared |
| ServerSentEvents.DeliveredOnce | apps/web/src/App.tsx:1239-1262 | no event is delivered twice |
| ServerSentEvents.GrowingLogIsDelivered | apps/web/src/App.tsx:1239-1262 | of a log with increasing sequences that grows at its end, every event is delivered once, in order |
| ServerSentEvents.LateEventIsLost | apps/web/src/App.tsx:1239-1262 | an event committed after a higher sequence was polled is delivered by no later poll, whatever follows |
| RunPages.LoadRunAggregate | apps/api/src/app.ts:870-940 | the cache, missing rows included, gives the same aggregate as reading |
| RunPages.AggregateTellsExactly | apps/api/src/app.ts:919-937 | an aggregate tells exactly the events that name the run, its shot or its revision, and the creation of a project made for it |
| RunPages.SortIsStable | apps/api/src/app.ts:917-937 | the events of an aggregate are in sequence, and those of one sequence keep the order of the log |
| RunPages.ListRuns | apps/api/src/app.ts:2764-2831 | a page is the first matching runs after the cursor, with a cursor exactly when more are left |
| RunPages.FollowPages | apps/api/src/app.ts:2764-2831 | following nextSince from any cursor gives every matching run after it once, in order, in full pages but the last |
| RunPages.PagesShowExactly | apps/api/src/app.ts:2754-2820 | the pages show exactly the runs passing every filter, of projects, columns, pins and evaluations, newest first |
| RunPages.PagesBeforeExactly | apps/api/src/app.ts:2784-2795 | from a timestamp the pages show exactly the runs among them created before it |
| RunPages.PagesAfterExactly | apps/api/src/app.ts:2784-2795 | from a run the pages show exactly the runs among them behind it |
| RunPages.UnknownCursorIsRefused | apps/api/src/app.ts:2784-2795 | a run cursor is refused exactly when no candidate has it |
| Money.ParseDecimal | packages/domain/src/index.ts:547-573 | a decimal parses to its amount in millionths, or overflows |
| Money.ParseMalformed | packages/domain/src/index.ts:547-573 | everything that is not a decimal is refused as malformed |
| Money.RoundTrip | packages/domain/src/index.ts:608-615 | formatting and parsing gives every safe amount back |
| Money.FormatIsNormal | packages/domain/src/index.ts:608-615 | formatting gives one normal form, equal exactly for equal amounts |

## Left out

- Database isolation below a transaction: only `Overlaps` looks at two overlapping transactions; everywhere else transactions are atomic.
- HTTP routing, request schemas, authentication, problem documents, telemetry and metrics: no invariant of their own.
- Regenerating an attempt: the same creation as a retry, without the option to resolve an uncertain one.
- The step-by-step form of the lease statements: a claim, a heartbeat and a release are one SQL statement each and are modelled as one row function each.
- Which queued row a claim takes: any claimable row may be taken, because rows locked by others are skipped.
- The columns of an attempt that no property here depends on (seed, sizes, correlation and trace identifiers, timestamps).
- The eleven media failure codes of an evaluation, which are one code here.
- Coercions of progress values and error texts in executor messages: a canonical event carries the message's data.
- The deterministic fake executor: a test double whose behaviour the model takes as arbitrary answers.
- WebSocket construction failures, which close the queue before any callback exists.
- JSON numbers other than safe integers, and JSON white space in the reader: canonical text has neither.
- The hash of canonical text: equality of texts is what is proved.
- What a nested workflow mutation writes besides its reservation (drafts and revisions).
- The texts, severities and action tables of recommendations, and fenced code blocks in model answers: finite tables and string clean-up.
- Byte limits, field lists and credential patterns of bridge messages: independent checks on one message.
- Sequences missing from a stored event, which the stream replaces by the position in the list.
- The artifact of a run aggregate: a lookup by the attempt.
- The window of the last 100 delivered events that the panel keeps, and polls that fail: a failed poll changes nothing.
- Timestamps and identifiers in run listings are numbers ordered the way their texts are.
- String inputs of money amounts only: a JavaScript number is first turned into text.
