# Supervisor protocols in Dafny

A model of the message supervisor's stateful protocols and proofs of what they promise. Each
module is one component, in the component's own form: where the source updates fields in place
there is a class whose methods state their whole new state through a pure specification
function, and the promises are lemmas about that function over every run.

| component | modules |
|---|---|
| the linked-device send queue and the origin of observed messages | `SendQueue`, `SendQueueRuns`, `SessionRecord` |
| conversation ownership: state machine, two stores, takeover driver | `Ownership`, `OwnershipStore`, `FileOwnershipStore`, `PostgresOwnershipStore`, `OwnershipReplay`, `TenantFiles`, `Takeover` |
| outbound attribution: two stores and the mutex per key | `Attribution`, `AttributionStores`, `KeyedMutex` |
| the model gateway: slots, circuits, retries and fallback | `GatewayRules`, `DecideCalls`, `GatewayExecution`, `ModelGateway` |
| durable jobs and the worker | `Jobs`, `JobRuns`, `JobQueue` |
| durable ingress and the redelivering spool | `Ingress`, `Spool`, `SpooledIngress` |
| the event stream: printer and incremental reader | `Sse`, `SsePeers` |
| policy and orchestration | `PermissionEngine`, `Orchestrator`, `Sorting` |
| the tenant indexes | `TenantStore` |
| the inbox: conversation log and ownership column | `ConversationLog`, `OwnershipProjection` |

## Reading the models

- The code between two awaits is one step. A run is any sequence of steps by any callers; a step
  whose guard does not hold leaves the state alone. Failures are steps too, before or after the
  effect of the call that fails.
- Times are integers and the clock does not go back; it is positive where 0 means "unset".
- Foreign calls (providers, `sendMessage`, handlers, the network, the disk) are outcomes chosen
  by parameters. Random ids and clock readings are parameters or a supply of fresh numbers.
- Ids are already trimmed and composite keys are injective: no separator occurs inside a part.
- `localeCompare` is a parameter `collate` that maps a string to a position; strings it maps to
  the same position are ties.

## Where the code is weaker than its documentation or its names suggest

The models follow the code. Each of these is a lemma with a concrete input, beside the exact
condition under which the promise does hold:

- docs/POLICY_V2.md says that declaration order never changes authority; with duplicate rule ids
  it does, and a live `act` can then run a rule other than the one that was permitted.
- A job can be claimed more than `max_attempts` times, in two ways, for no claim looks at the
  limit: an expired lease is taken over with the attempts spent, or a late `fail` of an earlier
  attempt queues the spent row. A run exceeds the limit exactly when it does one of the two, and
  only a finished job that no answer below the limit can revive is safe from both.
- Answers are matched by job id alone, so a late `fail` disturbs another worker's claim or revives
  a finished job.
- A rejected tenant update unregisters the tenant and can leave entries behind.
- Adding a number to a tenant with flat fields can drop its phone number id.
- A takeover that is replayed after a release is answered with its first result.
- A completion that takes effect without being acknowledged is followed by `fail`, which revives
  the finished job.
- A claim whose failure comes after its effect, or that is made for a message whose event cannot
  be built, loses the message.
- A failed append or enqueue is reported with status 200, on which the spool removes its file and
  a webhook sender stops: the message is lost although the claim was given back.
- A message observed with two customers forces two takeovers under one id.
- A spool write that fails after creating its file loses the message.
- Two tenants whose ids are sanitised to the same name share one conversation log.

## Model

| member | source | states |
|---|---|---|
| SendQueueRuns.EveryRunIsSafe | workers/whatsapp-web/src/session-manager.js:240-379 | In every interleaving of admissions, starts, returns, failures, echoes, timeouts and prunes: a `worker_api` label names an operation whose send got that very message id back; sends leave the queue one at a time in admission order; `pendingSends` is the number of unsettled calls and within `maxSendQueue`; the active slot is empty unless a send runs; the cache stays within its cap; each send starts at least the interval after every earlier success |
| SendQueueRuns.StepKeepsInv | workers/whatsapp-web/src/session-manager.js:323-379 | Every single step of the protocol keeps the invariant behind those claims |
| SendQueueRuns.EarlyEchoIsDecidedByItsSend | workers/whatsapp-web/src/session-manager.js:251-274 | An echo with the peer and text of the active send is, within the resolution time and whatever else happens, labelled exactly when that send returns its id |
| SendQueueRuns.CallsAreTheSubmissions | workers/whatsapp-web/src/session-manager.js:323-356 | In every run call i is the i-th admitted `sendText`: its recipient, with `@c.us` behind a bare number, its text and its operation id without outer white space; the active slot shows the call in flight |
| SendQueueRuns.EarlyEchoOfASubmission | workers/whatsapp-web/src/session-manager.js:251-274 | The same from outside: while an admitted `sendText` with an operation id is in flight, a message that shows its text at its recipient is labelled with that operation exactly when the send returns the message's id |
| SendQueueRuns.SendsStartOnTime | workers/whatsapp-web/src/session-manager.js:332-349 | A call whose turn has come starts at once if the interval since the latest success has passed, sleeps exactly until then otherwise, and fails unsent if the session is no longer ready |
| SendQueueRuns.SleepersWake | workers/whatsapp-web/src/session-manager.js:336-349 | A sleeping call starts at the first wake-up from its time on |
| SendQueueRuns.CallsSettleAs | workers/whatsapp-web/src/session-manager.js:351-371 | A call settles with the id and time of its return, as failed by what it threw, or as not ready |
| SendQueueRuns.ReadyIsTheLastReport | workers/whatsapp-web/src/session-manager.js:326 | The session is ready exactly when it was last reported so |
| SendQueueRuns.WaitingEndsUnlabelled | workers/whatsapp-web/src/session-manager.js:251-258 | A waiting message loses its chance of a label exactly at its deadline |
| SendQueueRuns.UnknownIsUnlabelled | workers/whatsapp-web/src/session-manager.js:261-267 | An unexpired cache entry or a matching active send is needed for any label |
| SendQueueRuns.DecidedOriginsAreFinal | workers/whatsapp-web/src/session-manager.js:261-274 | A decided origin is never revised |
| SendQueueRuns.LateEchoIsLabelled | workers/whatsapp-web/src/session-manager.js:240-264 | An echo after its send returned is labelled as long as its cache entry can be neither expired nor evicted, whatever its peer and text |
| SendQueueRuns.EverySendCanSettle | workers/whatsapp-web/src/session-manager.js:332-379 | From every reachable state each admitted call can settle, even if all sends fail |
| SendQueueRuns.PruneKeepsEntry | workers/whatsapp-web/src/session-manager.js:240-249 | Pruning drops neither an unexpired entry nor one of the newest `maxRecent` |
| SessionRecord.Record.SendText | workers/whatsapp-web/src/session-manager.js:323-332 | Admission: what is queued is the recipient, text and operation of the caller; which refusal is given when; the bound, the place in the queue, the whole new state |
| SessionRecord.Record.BeginSend | workers/whatsapp-web/src/session-manager.js:332-349 | A queued send fails at once, waits out the interval, or takes the active slot and starts |
| SessionRecord.Record.WakeSend | workers/whatsapp-web/src/session-manager.js:336-349 | A send that slept starts |
| SessionRecord.Record.SendReturned | workers/whatsapp-web/src/session-manager.js:351-371 | A returned send sets the clock of the last success, remembers its id, settles its echoes and clears its own slot |
| SessionRecord.Record.SendThrew | workers/whatsapp-web/src/session-manager.js:364-371 | A failed send settles its echoes without a label and does not count for the spacing |
| SessionRecord.Record.CloseSend | workers/whatsapp-web/src/session-manager.js:374-378 | The place is given back once, the counter never goes below zero |
| SessionRecord.Record.PruneRecentApiMessages | workers/whatsapp-web/src/session-manager.js:240-249 | The two loops leave the newest unexpired entries |
| SessionRecord.Record.ObserveFromMe | workers/whatsapp-web/src/session-manager.js:261-267 | Classification up to the await: cached id first, then the active send |
| SessionRecord.Record.ResolutionTimedOut | workers/whatsapp-web/src/session-manager.js:251-258 | The timeout leaves the message without a label |
| Ownership.HumanIsLeftOnlyByRelease | src/domain/conversation-ownership.js:69-106 | `HUMAN_ACTIVE` is left exactly by `release_to_agent` under a new transition id |
| Ownership.VersionCountsChanges | src/domain/conversation-ownership.js:92-105 | A transition that keeps the state changes nothing; any other adds one to the version and stores its id |
| Ownership.AgentIsRestoredExplicitly | src/domain/conversation-ownership.js:69-78 | The agent gets control back only by the command meant for the state |
| Ownership.MovesAreThese | src/domain/conversation-ownership.js:69-106 | Under a new id every state is newly reached by the listed pairs of state and command and by no others, with a record made of the command's own data; every other pair keeps the record |
| Ownership.RefusedIff | src/domain/conversation-ownership.js:80-106 | A transition is refused exactly for a missing or unknown command, a missing id or actor, or a move with a blank reason |
| OwnershipStore.AppliedMovesAreThese | src/core/file-conversation-ownership-store.js:88-131 | In both stores: an accepted new id makes the listed move and no other, adds one entry with its data, and touches no other conversation |
| OwnershipStore.RequestIsRefusedIff | src/core/file-conversation-ownership-store.js:88-108 | Exactly which requests are refused and with which error; refused requests and known ids change nothing |
| OwnershipStore.InputErrorsAre | src/core/conversation-ownership-store.js:11-24 | The first missing part of an input is the one reported |
| OwnershipStore.BatchFailsIff | src/core/file-conversation-ownership-store.js:66-72 | A batch fails exactly when it asks for something and the tenant or a conversation id is missing |
| OwnershipStore.ModelStartsIff | src/jobs/inbound-decision-handler.js:53-73 | The model is started exactly when no transition was accepted yet or the last one left the conversation with the agent; a fresh conversation is the agent's |
| OwnershipStore.GetIsTheFold | src/core/file-conversation-ownership-store.js:61-131 | After any requests `get` is the fold of `transitionOwnership` over the accepted inputs, the version counts the effective ones, and an accepted `expectedVersion` was the version it replaced |
| OwnershipStore.RetriesGetTheFirstAnswer | src/core/file-conversation-ownership-store.js:93-97 | A transition id that was answered once gets the same answer after any other requests, and changes nothing |
| OwnershipStore.HumanStaysUntilReleased | src/domain/conversation-ownership.js:69-106 | If a conversation is no longer with the human after a run, an effective release happened at some point of it |
| OwnershipStore.NoModelCallAfterTakeover | src/jobs/inbound-decision-handler.js:53-73 | After an effective takeover no later ownership check starts a model call until an effective release |
| OwnershipStore.TakeoverGivesHuman | src/domain/conversation-ownership.js:70-105 | An accepted takeover always leaves the conversation with the human |
| FileOwnershipStore.Store.Transition | src/core/file-conversation-ownership-store.js:88-131 | The ledger gives the result or error of the abstract store and the same later history |
| FileOwnershipStore.Store.GetMany | src/core/file-conversation-ownership-store.js:66-86 | One pass over the ledger answers each id like a single `get` |
| PostgresOwnershipStore.Store.Transition | src/storage/postgres-conversation-ownership-store.js:81-192 | The row and transition tables give the result or error of the abstract store; a failure rolls both back |
| PostgresOwnershipStore.Store.GetMany | src/storage/postgres-conversation-ownership-store.js:61-79 | The batched select answers each id like a single `get` |
| PostgresOwnershipStore.TablesFollow | src/storage/postgres-conversation-ownership-store.js:138-185 | After a commit the rows hold the latest record and the transitions every answer given |
| OwnershipReplay.Replay | src/storage/postgres-conversation-ownership-store.js:81-192 | On every request sequence both stores give the same answers, one for one, and the same owners |
| TenantFiles.Utf8IsInjective | src/core/file-conversation-ownership-store.js:16-18 | Different tenant ids have different UTF-8 bytes |
| TenantFiles.DecodeInvertsBase64Url | src/core/file-conversation-ownership-store.js:16-18 | Unpadded base64url (section 5 of RFC 4648) can be decoded |
| TenantFiles.EncodedNamesDiffer | src/core/file-conversation-ownership-store.js:16-18 | Two tenants never append to the same file |
| TenantFiles.OwnNamesDiffer | src/core/file-conversation-ownership-store.js:12-18 | A tenant's legacy name is shorter than its encoded name, so its two files differ |
| TenantFiles.AppendIsRead | src/core/file-conversation-ownership-store.js:48-59 | One append adds one entry to its own tenant's ledger and nothing to any other, name collisions included |
| TenantFiles.LedgersAreExact | src/core/file-outbound-attribution-store.js:45-55 | After any appends by any tenants a ledger is what it was, then the tenant's own appends in order |
| Takeover.EveryRunTakesOverOnce | src/app.js:79-260 | In every run: a 200 answer rests on the takeover in the ledger or on a read of `HUMAN_ACTIVE`, a hinted message stays ignored, no message is answered 200 twice, and, if its observations name one conversation and whoever else uses its id takes over that conversation, the whole history holds its takeover at most once |
| Takeover.OneTakeoverPerMessage | src/app.js:79-104 | Over all retries, conflicts, failures and claim releases at most one takeover per tenant, session and platform message id, if all its observations name one conversation and other users put its id only on takeovers of that conversation |
| Takeover.TwoCustomersTakeOverTwice | src/app.js:35-40 | Counterexample: for any message observed with two customers a run, with no other user of the store, ends with two effective takeovers under one id |
| Takeover.OneTakeoverIff | src/app.js:81-92 | Two observations of a message give at most one takeover in every run if and only if they name one conversation |
| Takeover.OnlyClaimHoldersTakeOver | src/app.js:209-217 | Only a handler that holds the claim writes a takeover |
| Takeover.AttributedIsIgnored | src/app.js:191-207 | An attributed or hinted message never changes ownership, whatever comes later |
| Takeover.FailuresRelease | src/app.js:214-260 | A handler at work goes on, or is about to release the claim that it still holds |
| Takeover.FailingCallsRelease | src/app.js:214-260 | Whichever of its calls fails, the claim is released next |
| Takeover.ConflictsAre | src/app.js:93-104 | Only the first write is forgiven a version that has changed since it was read |
| Takeover.UndisturbedHandlersFinish | src/app.js:214-254 | A handler that has claimed its message and is not disturbed ends as observed, with its takeover in the ledger |
| Takeover.HandlersWriteTakeovers | src/app.js:79-104 | A handler writes at most one entry: a takeover of its observation's conversation in the operator's name, under the id of session and message, for the version it read |
| Takeover.MessagesAreKeyedBy | src/app.js:191-217 | Attribution and claim are looked up by tenant, session and message id |
| Takeover.AcceptedTakeoverHolds | src/app.js:79-104 | A takeover answered with success leaves the conversation with the human exactly when its id was not answered before or the human still has it |
| Takeover.ReplayAfterRelease | src/app.js:83-96 | Counterexample: a replayed takeover after a release reports success while the agent keeps control |
| Attribution.FirstRecordAndFirstEchoWin | src/storage/postgres-outbound-attribution-store.js:39-94 | For every history a key holds its first record, with its own echo time or that of the first echo after it |
| Attribution.KeysAreIndependent | src/core/file-outbound-attribution-store.js:57-93 | What is stored for a key depends only on the operations on that key |
| Attribution.OrderPerKeyIsEnough | src/core/file-outbound-attribution-store.js:61-74 | Executions that agree on the order per key give every operation the same answer, which is what a lock per key preserves |
| Attribution.ChecksAre | src/domain/outbound-attribution.js:22-40 | Only complete keys and records are accepted, and the first missing field is reported |
| AttributionStores.FileStore.Record | src/core/file-outbound-attribution-store.js:95-113 | Recording on the ledger answers as the map does, and keeps at most one record and one later echo per key |
| AttributionStores.FileStore.ConsumeEcho | src/core/file-outbound-attribution-store.js:119-139 | Consuming an echo on the ledger answers as the map does; a preset echo time is kept |
| AttributionStores.FileStore.Find | src/core/file-outbound-attribution-store.js:76-93 | The first record under the first echo is what the map holds |
| AttributionStores.PostgresStore.Record | src/storage/postgres-outbound-attribution-store.js:39-63 | The upsert returns the old row on a conflict |
| AttributionStores.PostgresStore.ConsumeEcho | src/storage/postgres-outbound-attribution-store.js:78-94 | COALESCE keeps the first echo time |
| AttributionStores.PostgresStore.Find | src/storage/postgres-outbound-attribution-store.js:65-76 | The select answers as the map does |
| AttributionStores.Replay | src/storage/postgres-outbound-attribution-store.js:39-94 | On every operation sequence the two stores give the same answers, one for one |
| AttributionStores.AppendKeepsLedgers | src/core/file-outbound-attribution-store.js:76-93 | An append for one key keeps every key's entries in step with the map |
| KeyedMutex.SectionsAreExclusiveAndInOrder | src/core/file-outbound-attribution-store.js:61-74 | In every interleaving: critical sections on a key never overlap and run in call order, the lock table holds exactly the keys with an unfinished call, and the oldest waiting call may start |
| KeyedMutex.EventsDo | src/core/file-outbound-attribution-store.js:61-74 | A call joins behind all others, one that may start opens its section, an open one closes it, and nothing else happens |
| KeyedMutex.LockTable.Enter | src/core/file-outbound-attribution-store.js:62-66 | A call takes the tail it finds and leaves its own |
| KeyedMutex.LockTable.Proceed | src/core/file-outbound-attribution-store.js:67-69 | The awaited tail has resolved: the section opens |
| KeyedMutex.LockTable.Leave | src/core/file-outbound-attribution-store.js:70-73 | Release, and forget the key only if no later call has come |
| GatewayRules.SlotsAreFairAndExact | src/ai/model-gateway.js:66-99 | In every run `active` counts the unreleased handles and is at most `maxConcurrent`, calls wait only when every slot is taken, and slots go to calls in order of arrival |
| GatewayRules.HandleCalledKeeps | src/ai/model-gateway.js:90-99 | When a handle is called `active` is positive, so the clamp at zero never matters |
| GatewayRules.ReleaseIsFinal | src/ai/model-gateway.js:90-99 | A call that gave its slot back, or withdrew, never holds one again |
| GatewayRules.EveryEndGivesTheSlotBack | src/ai/model-gateway.js:75-99 | In the slot queue a call whose deadline comes or that finishes is over, and a finishing holder frees its slot or hands it on |
| DecideCalls.EverySlotIsPaidBackOnce | src/ai/model-gateway.js:190-209 | In every interleaving of calls, grants, deadlines, results and clean-ups a call that is done called its handle exactly once if it was ever granted a slot and never otherwise; with all calls done no slot is taken and nobody waits |
| DecideCalls.DeadlineEndsTheCall | src/ai/model-gateway.js:194-208 | The deadline alone brings every call through its `finally`, whatever it waits for |
| DecideCalls.StepKeepsInv | src/ai/model-gateway.js:190-209 | A slot is held from its grant to the one call of its handle, and only a waiter withdraws |
| GatewayRules.CircuitIsItsHistory | src/ai/model-gateway.js:105-130 | For every history of outcomes: `failures` counts the retryable ones since the last success, `openedAt` is the time of the latest one from the threshold on, other errors change nothing |
| GatewayRules.AttemptsAreAllowedWhen | src/ai/model-gateway.js:105-113 | An attempt is allowed exactly when the circuit is closed, or open long enough with no probe granted |
| GatewayRules.OneProbeAtATime | src/ai/model-gateway.js:105-113 | After a probe is granted every attempt is refused until the key's next success or retryable failure |
| ModelGateway.Gateway.Acquire | src/ai/model-gateway.js:66-88 | A call takes a free slot or joins the end of the queue |
| ModelGateway.Gateway.OnAbort | src/ai/model-gateway.js:75-79 | A waiter whose deadline passes leaves the queue |
| ModelGateway.Gateway.CallHandle | src/ai/model-gateway.js:90-99 | A handle works once and passes the slot to the oldest waiter |
| ModelGateway.Gateway.AskCircuit | src/ai/model-gateway.js:105-113 | Asking an open circuit in time grants its one probe |
| ModelGateway.Gateway.RecordFailure | src/ai/model-gateway.js:119-130 | A retryable failure is counted and may open the circuit |
| ModelGateway.Gateway.RecordSuccess | src/ai/model-gateway.js:115-117 | A success forgets the circuit |
| GatewayExecution.RunsAreExact | src/ai/model-gateway.js:132-161 | For all providers, clocks, aborts and interference: at most `maxRetriesPerCandidate + 1` calls of this candidate, each with the reply of its own time, another one only after a retryable error, in time, and where the circuit allowed it once that error was recorded, its circuit recording every outcome in between, and the candidate is left only for its answer, the deadline, or an error that cannot or must not be retried |
| GatewayExecution.ResolvesWhen | src/ai/model-gateway.js:59-64 | A provider answers to its own name, and `tabitoken` and `anthropic` stand in for each other |
| GatewayExecution.CircuitsAreSeparate | src/ai/model-gateway.js:101-103 | Two models of one provider have separate circuits, and so have providers whose names have no colon |
| GatewayExecution.OthersKeepTheirCircuit | src/ai/model-gateway.js:101-130 | What happens to one candidate never changes whether another may be tried |
| GatewayExecution.NormalizedKeepsTheError | src/ai/model-gateway.js:154 | A normalised error keeps its code and retryability and names a provider |
| ModelGateway.Gateway.RunCandidate | src/ai/model-gateway.js:132-161 | The retry loop makes exactly those calls and leaves exactly those circuits |
| GatewayExecution.ExecutionsAreExact | src/ai/model-gateway.js:163-188 | For all inputs: the named route is taken, else `standard`, up to `maxCandidates`; candidates are visited in route order and no two calls at once; one is passed over exactly when its provider is unknown or its circuit refuses at that moment; the first answer in time is returned; otherwise there is one failure per examined candidate in order; it times out exactly when the signal is aborted at the end or the last candidate said so |
| ModelGateway.Gateway.Execute | src/ai/model-gateway.js:163-188 | The loop makes exactly that execution |
| Jobs.RetryDelayIsBoundedAndMonotone | src/jobs/postgres-job-queue.js:121-126 | The delay is between min(max, base * 2^(n-1)) and the maximum, and does not shrink as the attempts grow |
| Jobs.BackOffDoubles | src/jobs/postgres-job-queue.js:121-126 | The capped back-off starts at the base and doubles with every attempt |
| Jobs.JitterAddsUpToAFifth | src/jobs/postgres-job-queue.js:121-126 | The delay lies between the back-off and a fifth more, and reaches both |
| Jobs.StepKeepsInv | src/jobs/postgres-job-queue.js:42-157 | Every statement keeps the invariant of rows and claims |
| JobRuns.AttemptsAreClaims | src/jobs/postgres-job-queue.js:83-96 | In every run `attempt_count` is the number of claims handed out |
| JobRuns.FailedJobsWait | src/jobs/postgres-job-queue.js:144-156 | After a failure of attempt n below the limit the job is neither eligible nor claimed before `min(max, base * 2^(n-1))` has passed, as long as no other claim of it is answered, and is eligible exactly from the retry delay on |
| JobRuns.ClaimedJobsAreLeased | src/jobs/postgres-job-queue.js:66-96 | A claimed job is not claimed again before the lease time has passed, as long as no claim of it is answered |
| JobRuns.NewJobsAreReady | src/jobs/postgres-job-queue.js:42-58 | A new job has its own data, at least one attempt, and can be claimed at once |
| JobRuns.LimitIsExceededIff | src/jobs/postgres-job-queue.js:66-96 | A run claims a job more than `max_attempts` times if and only if it takes over an expired lease of a job whose attempts are spent, or a `fail` of an attempt below the limit comes when they are spent and the queued row is claimed after that |
| JobRuns.LimitIsKeptIff | src/jobs/postgres-job-queue.js:60-157 | From a state within the limit every run stays within it if and only if the job is finished and no claim of it below the limit is still to be answered |
| JobRuns.ReclaimIgnoresTheLimit | src/jobs/postgres-job-queue.js:66-76 | Counterexample, first way: an expired lease is claimed again beyond `max_attempts` |
| JobRuns.LateFailIgnoresTheLimit | src/jobs/postgres-job-queue.js:134-155 | Counterexample, second way: the late `fail` of attempt 1 queues a job whose two attempts are spent, and the third claim takes over no lease |
| JobRuns.LiveClaimHoldsUnlessDisturbed | src/jobs/postgres-job-queue.js:107-157 | A live unanswered claim has its job to itself exactly when no other claim of the job has been answered since it was made |
| JobRuns.TimelyAnswersExclude | src/jobs/postgres-job-queue.js:60-157 | If no answer comes after its lease has run out, no job under a live claim is eligible for another one |
| JobRuns.LateFailExposesALiveClaim | src/jobs/postgres-job-queue.js:146-155 | Counterexample: a late `fail` puts a job that is running elsewhere back into the queue |
| JobRuns.FinishedJobsStayIff | src/jobs/durable-job-worker.js:37-45 | A finished job stays finished in every run if and only if no claim of it below the limit is still to be answered, the one that completed it without being acknowledged included |
| JobRuns.SettledJobsStay | src/jobs/postgres-job-queue.js:52-53 | A finished job with no answer outstanding stays exactly as it is, also when it is enqueued again |
| JobRuns.LostAcknowledgementRevives | src/jobs/durable-job-worker.js:37-45 | Counterexample: a completion that takes effect but is not acknowledged is followed by `fail`, and the finished job is handed out again |
| JobRuns.LateFailRevives | src/jobs/postgres-job-queue.js:134-155 | An outstanding answer below the limit queues the job again whatever its row says by now, and at the limit makes it dead |
| JobRuns.EnqueueFindsTheRow | src/jobs/postgres-job-queue.js:52-57 | Enqueueing a key that exists changes nothing |
| JobRuns.PunctualJobsEnd | src/jobs/postgres-job-queue.js:60-157 | If every claim of the job is answered before its lease expires, then in every run it is claimed at most `max_attempts` times, at most `Measure` events change it, and the measure is zero exactly when it is completed or dead with nobody left to answer |
| JobRuns.PunctualFromTheStart | src/jobs/postgres-job-queue.js:60-157 | From the empty table, every run in which each claim of the job is answered within its lease leaves what that needs: no lease taken over, no claim overtaken, at most `max_attempts` claims |
| JobRuns.PunctualJobsCanMove | src/jobs/postgres-job-queue.js:66-96 | A job that is not over can move on in time: it waits to be claimed, or its one claim can be answered now |
| JobRuns.EveryPunctualJobCanEnd | src/jobs/postgres-job-queue.js:60-157 | From wherever a punctual past has left it every job can be brought to completed or dead in time |
| JobRuns.RunningIsOwed | src/jobs/postgres-job-queue.js:83-96 | A running row is held by a claim that is still to be answered |
| JobRuns.UnfinishedJobsCanMove | src/jobs/postgres-job-queue.js:66-76 | No unfinished job is stuck: some later time makes it eligible |
| JobQueue.Queue.Enqueue | src/jobs/postgres-job-queue.js:42-58 | Insert or find: the result is the row that has the key |
| JobQueue.Queue.SelectNext | src/jobs/postgres-job-queue.js:66-76 | The earliest eligible unlocked row by availability and creation, or none when there is none |
| JobQueue.Queue.ClaimNext | src/jobs/postgres-job-queue.js:60-105 | The claimed row runs under a live lease with one more attempt |
| JobQueue.Queue.Complete | src/jobs/postgres-job-queue.js:107-119 | Completion by id alone, acknowledged or not |
| JobQueue.Queue.Fail | src/jobs/postgres-job-queue.js:128-157 | Dead at the limit, else queued: exactly the step that `FailedJobsWait` is about |
| JobQueue.WorkedLeaves | src/jobs/durable-job-worker.js:32-46 | The job ends completed and answered exactly when it has a handler, the handler succeeds and the completion is acknowledged; in every other case the worker fails it, also after its own completion took effect |
| JobQueue.Worker.RunOnce | src/jobs/durable-job-worker.js:32-46 | One run claims the next job and makes exactly those one or two answers; it is idle exactly when no row is eligible |
| Ingress.EveryRunIngestsOnce | src/app.js:144-177 | Under any redeliveries and failures: at most one root event and one job per message, a `queued` answer leaves the claim held with one of each, and every decision names its message's only root as cause and correlation |
| Ingress.IngestedStays | src/app.js:154-163 | A message once queued keeps its claim and its job whatever happens later |
| Ingress.ClaimsAreExact | src/app.js:144-177 | In every run a message is claimed exactly when one delivery of it is under way, has queued its job, or threw and left the claim behind, and at most one does |
| Ingress.DeliveryIsAdmittedIff | src/app.js:145-149 | A delivery whose claim call works gets to the append exactly when nobody keeps the message and its event can be built |
| Ingress.LostClaimTurnsDeliveriesAway | src/app.js:144-149 | Counterexample: a claim that fails after taking effect, or made for a message whose event cannot be built, turns every later delivery away and adds no job |
| SpooledIngress.RemovedFilesAreIngestedIff | workers/whatsapp-web/src/spool.js:60-78 | In every run a file that was removed was answered as queued, duplicate or failed, and its message is ingested exactly unless its own delivery was turned away, failed to append, or failed to enqueue without effect, and no other delivery of the message got through both calls |
| SpooledIngress.LostForGoodIff | src/app.js:168-175 | Once no file is left and every delivery has ended, a message is lost in every run without a new sight of it if and only if each of them was turned away, failed to append, or failed to enqueue without effect |
| SpooledIngress.ResponsesAre | workers/whatsapp-web/src/spool.js:60-78 | Only status 200 in time counts as accepted, whatever the body says |
| SpooledIngress.AcceptedWhen | src/channels/whatsapp-linked-device.js:13-28 | What the endpoint processes at all: a registered session with message id, sender and text |
| SpooledIngress.ReportedFailureLosesTheMessage | src/app.js:339-340 | Counterexample: for any acceptable message one failed append, reported with status 200, loses it for good |
| SpooledIngress.MalformedMessageIsADuplicate | src/app.js:146-149 | Counterexample: a message without a sender throws after its claim; the next delivery is told it is a duplicate and no job ever comes |
| SpooledIngress.KeptFileCanBeIngested | workers/whatsapp-web/src/spool.js:80-89 | As long as the file is there and nobody keeps the claim, posting it again can ingest the message |
| SpooledIngress.StepKeepsInv | workers/whatsapp-web/src/spool.js:60-78 | Every move of worker and supervisor keeps posts, files and deliveries in step |
| Ingress.NewRowKeepsEvents | src/storage/postgres-domain-event-store.js:34-65 | The idempotent insert keeps one row per tenant, type and key |
| Ingress.CanonicalIsTheRoot | src/storage/postgres-domain-event-store.js:46-64 | The returned row is the message's root event, new or old |
| Ingress.DecideKeeps | src/jobs/inbound-decision-handler.js:3-22 | A decision derived from the job's event names the stored root |
| Ingress.NewJobKeeps | src/jobs/postgres-job-queue.js:42-58 | After the enqueue the message has exactly one job |
| Ingress.CountBatch | src/app.js:298-317 | Each batch satisfies received = processed + duplicates + failures, with the failed ids in order |
| Spool.MessageIsKeptIff | workers/whatsapp-web/src/spool.js:29-78 | A message is in the spool or accepted for ever after its enqueue exactly when it was accepted before, or no unreadable file has its name and its write works |
| Spool.UnreadableStays | workers/whatsapp-web/src/spool.js:45-58 | An unreadable file stays and is never delivered |
| Spool.ReadableAreListed | workers/whatsapp-web/src/spool.js:43-58 | A flush delivers exactly the readable files of the listing, in its order |
| Spool.DiskInboundSpool.EnqueuePayload | workers/whatsapp-web/src/spool.js:29-43 | Exclusive creation: an existing file is left alone |
| Spool.DiskInboundSpool.DeliverItem | workers/whatsapp-web/src/spool.js:60-78 | A file is removed only after the supervisor accepted it |
| Spool.DiskInboundSpool.ListPending | workers/whatsapp-web/src/spool.js:45-58 | The readable files, each once, in order |
| Spool.DiskInboundSpool.FlushOnce | workers/whatsapp-web/src/spool.js:80-89 | Every readable item is delivered or retained, and as many files are gone as were delivered |
| Sse.SeparatorIsPrefixStable | ui/src/hooks/useRealtime.ts:76-98 | A separator found in a prefix is the one found in the whole text |
| Sse.SeparatorsAre | ui/src/hooks/useRealtime.ts:81 | The four separators and their lengths |
| Sse.DrainSplit | ui/src/hooks/useRealtime.ts:76-98 | Draining a text in two parts gives the blocks of draining it at once |
| Sse.ChunkingIsInvisible | ui/src/hooks/useRealtime.ts:76-98 | Any chunking of any text gives the same blocks and the same rest |
| Sse.PrintedStreamDrains | src/realtime/sse-broadcaster.js:43-55 | The printed stream reads back as its frames with nothing left over |
| Sse.AnyChunkingDeliversTheFrames | ui/src/hooks/useRealtime.ts:28-98 | However the printed text is cut, the client delivers exactly the frames in order, without heartbeats and empty data |
| Sse.FramesComeBackUnchanged | ui/src/hooks/useRealtime.ts:28-36 | Frames without outer white space come back unchanged |
| Sse.MeaningIs | ui/src/hooks/useRealtime.ts:76-98 | What each printed frame makes the client report: online for heartbeats, type and payload for what parses, both for `connected` |
| Sse.TypeIsTheLast | ui/src/hooks/useRealtime.ts:28-36 | The last type line names the block's type |
| Sse.UntypedBlocksAreMessages | ui/src/hooks/useRealtime.ts:28-36 | A block without a type line is a `message` |
| Sse.DataAreJoined | ui/src/hooks/useRealtime.ts:28-36 | Data lines are joined in order with line breaks |
| Sse.LinesAreTheText | ui/src/hooks/useRealtime.ts:28-36 | The lines are the block without its line breaks |
| SsePeers.Broadcaster.AddClient | src/realtime/sse-broadcaster.js:22-41 | A new client first gets the `connected` frame; a response that throws on it is not added |
| SsePeers.Broadcaster.Broadcast | src/realtime/sse-broadcaster.js:43-55 | Every working client gets the frame once; a broken one is removed and stops nobody |
| SsePeers.Reader.OnChunk | ui/src/hooks/useRealtime.ts:76-98 | After each chunk the reader has reported what the chunks so far say |
| SsePeers.Reader.Parse | ui/src/hooks/useRealtime.ts:28-36 | The parser's loop gives the block's last type and joined data |
| SsePeers.ReaderReportsTheFrames | ui/src/hooks/useRealtime.ts:76-98 | A reader that has read all its client was sent has reported exactly the client's frames |
| PermissionEngine.OrderMattersOnlyForTies | src/domain/permission-engine.js:87-98 | For every policy and answer, all declaration orders permit the same if and only if no rule is consulted or the rules tied for the decision agree |
| PermissionEngine.DistinctIdsMakeOrderIrrelevant | src/domain/permission-engine.js:87-98 | With ids that the collation tells apart, declaration order never changes authority |
| PermissionEngine.DuplicateIdsMakeOrderMatter | src/domain/permission-engine.js:87-98 | Counterexample: two rules that share id, effect and priority |
| PermissionEngine.StrictestEffectWins | src/domain/permission-engine.js:153-187 | The effect is the greatest of the matching rules or the default; only `allow` yields anything but `human`; the granted authority is the lesser of the rule's and the requested one |
| PermissionEngine.PermissionIs | src/domain/permission-engine.js:153-187 | For every policy that is not rejected: one matching `deny` denies, else one `require_approval` asks, else one `allow` allows, by the rule of that effect with the highest priority and the first id; the model lowers an allowed action by the listed pairs only; else the default; nothing without the confidence |
| PermissionEngine.CeilingIsTheTable | src/domain/permission-engine.js:7-26 | The model's request is taken exactly for the listed pairs of request and allowed action |
| PermissionEngine.MatchesWhen | src/domain/permission-engine.js:79-85 | A rule matches by intent, channel and confidence floor |
| PermissionEngine.EvaluationFailsIff | src/domain/permission-engine.js:153-187 | Exactly which policies and answers make the evaluation throw |
| PermissionEngine.EvaluationErrorsAre | src/domain/permission-engine.js:153-187 | And with which error |
| PermissionEngine.RuleErrorsAre | src/domain/permission-engine.js:56-77 | The first defect of a rule, in the order of the checks |
| PermissionEngine.ReasonCodesAre | src/domain/permission-engine.js:108-187 | The reason code is the rule's own or names the case |
| PermissionEngine.DenyIsFinal | src/domain/permission-engine.js:87-118 | A matching deny rule leaves the message to a human whatever else matches |
| PermissionEngine.ReasonsAreTruthful | src/domain/permission-engine.js:100-187 | Each reason is given exactly in its own case, an intended action only for approval |
| PermissionEngine.SelectedDecides | src/domain/permission-engine.js:79-98 | Filter, sort and head select a matching rule that no other matching rule precedes |
| Sorting.SortSorts | src/domain/permission-engine.js:91-97 | The sort permutes its input and orders it by the comparator |
| Sorting.SortPutsTheFirstTopFirst | src/domain/permission-engine.js:91-97 | Stability: of the elements tied for the first place the earliest gets it |
| Orchestrator.Supervisor.Handle | src/core/orchestrator.js:90-160 | Exactly which sends, executions and audit entries a request makes, and what each result says about the request |
| Orchestrator.OutsideEffectsAre | src/core/orchestrator.js:90-140 | The only message sent is the model's reply, word for word, to the customer who wrote, exactly when a live request may reply and the reply is not blank; a capability runs exactly when a live request may act |
| Orchestrator.ModesAre | src/core/orchestrator.js:13-18 | The modes that may be asked for, and what a shadow tenant makes of them |
| Orchestrator.DryRunsDoNothing | src/core/orchestrator.js:13-18 | Shadow and simulation call neither sender nor action gateway, and no request lifts a tenant's shadow |
| Orchestrator.ActRunsTheSelectedRuleIff | src/core/orchestrator.js:121-128 | A live `act` runs the selected rule exactly when no rule declared before it has its id |
| Orchestrator.DistinctIdsRunTheSelectedRule | src/core/orchestrator.js:121-128 | With distinct ids it always does |
| Orchestrator.DuplicateIdRunsAnotherRule | src/core/orchestrator.js:125-127 | Counterexample: an allowed `act` runs a denying rule of the same id |
| Orchestrator.FindRuleFinds | src/core/orchestrator.js:125 | The lookup gives the first declared rule of the id |
| TenantStore.LookupsAreSound | src/core/tenant-store.js:42-163 | After any writes, rejected ones included: each registered tenant is found by each of its ids, no two share one, any hit lists the id; if none was rejected the indexes hold nothing else |
| TenantStore.RejectionIsCleanIff | src/core/tenant-store.js:49-67 | A rejected write leaves the tenant unregistered, and leaves no stray entry exactly when its very first id is the taken one |
| TenantStore.RejectedUpdateLosesTheTenant | src/core/tenant-store.js:49-67 | Counterexample: a rejected update makes the tenant disappear and blocks an id nobody has |
| TenantStore.AddingKeepsTheIdsIff | src/core/tenant-store.js:115-152 | Adding a number keeps all session ids, and all phone number ids exactly when the flat one is not dropped by the migration |
| TenantStore.UpdateIsAPatch | src/core/tenant-store.js:90-104 | An accepted update replaces the patched fields and no others, and never the id |
| TenantStore.CreationIs | src/core/tenant-store.js:81-88 | A creation stores the data under the given id or the slug, trimmed, or is refused |
| TenantStore.DeletionIs | src/core/tenant-store.js:106-111 | A deletion frees exactly the tenant's ids |
| TenantStore.RemovalIs | src/core/tenant-store.js:154-163 | An accepted removal takes out exactly the named number, keeping the order of the others |
| TenantStore.AdditionIs | src/core/tenant-store.js:115-152 | An accepted addition puts the number last, behind the list or the one number made of the flat fields |
| TenantStore.RefusedBeforeIndexing | src/core/tenant-store.js:90-163 | Which writes are refused before any id is entered |
| TenantStore.IndexingIsRefusedIff | src/core/tenant-store.js:49-69 | A tenant is refused exactly when one of its ids is another tenant's, and the error names the first one |
| TenantStore.IdsAre | src/core/tenant-store.js:6-19 | By which ids a tenant is reached |
| TenantStore.StepKept | src/core/tenant-store.js:81-163 | Every write keeps the invariant, every accepted one the exactness |
| TenantStore.InMemoryTenantStore.Deindex | src/core/tenant-store.js:42-47 | The loops remove all ids of the tenant and the tenant |
| TenantStore.InMemoryTenantStore.IndexTenant | src/core/tenant-store.js:49-67 | The loops enter the ids up to the first taken one, nothing undone |
| TenantStore.InMemoryTenantStore.CreateTenant | src/core/tenant-store.js:81-88 | Creation with its refusals |
| TenantStore.InMemoryTenantStore.UpdateTenant | src/core/tenant-store.js:90-104 | Merge and index again |
| TenantStore.InMemoryTenantStore.DeleteTenant | src/core/tenant-store.js:106-111 | Deletion frees the ids |
| TenantStore.InMemoryTenantStore.AddWhatsAppNumber | src/core/tenant-store.js:115-152 | The checks, the migration of the flat fields and the update |
| TenantStore.InMemoryTenantStore.RemoveWhatsAppNumber | src/core/tenant-store.js:154-163 | Removal by number id |
| ConversationLog.InboxIsPerCustomer | src/core/file-conversation-store.js:156-222 | Every thread describes its customer's events, each customer has exactly one, newest first, and together they hold every message |
| ConversationLog.ThreadDescribes | src/core/file-conversation-store.js:168-211 | A thread shows the mode last set, the last name, time, action, intent and confidence given, and all messages of its customer in order with their fields |
| ConversationLog.ModeStands | src/core/file-conversation-store.js:132-162 | The mode set for a customer stands through any writes until the next one for it in the same file |
| ConversationLog.ManualOutboundIsRecorded | src/core/file-conversation-store.js:111-130 | What an operator's message adds to the log, when it is a repetition, and when it is refused |
| ConversationLog.ListingIsAPrefix | src/core/file-conversation-store.js:214-221 | The listing is the first `limit` threads with their count and preview |
| ConversationLog.FileConversationStore.List | src/core/file-conversation-store.js:168-222 | The single pass builds that listing |
| ConversationLog.FileConversationStore.GetControl | src/core/file-conversation-store.js:156-162 | The loop gives the mode of the customer's latest control event, or `ai` |
| ConversationLog.FileConversationStore.RecordManualOutbound | src/core/file-conversation-store.js:111-130 | An operator's message with a known id is not recorded again |
| ConversationLog.FileConversationStore.AppendEvent | src/core/file-conversation-store.js:46-51 | One event at the end of the tenant's file, or the refusal |
| ConversationLog.ManualRetriesAddNothing | src/core/file-conversation-store.js:111-130 | Seen again after any other writes it adds nothing and gives the first event |
| ConversationLog.ReadsOwnEventsIff | src/core/file-conversation-store.js:42-51 | A tenant reads back exactly its own events if and only if no other tenant with the same sanitised name has written |
| ConversationLog.CollidingTenantsShareALog | src/core/file-conversation-store.js:4-6 | Counterexample: `a b` and `a_b` read each other's events |
| OwnershipProjection.ProjectOwnership | src/management/router.js:139-171 | Row i carries the record that `get` gives for row i under any interleaving of tenants; it fails exactly when a row lacks customer or tenant |
| OwnershipProjection.GroupByTenant | src/management/router.js:144-150 | Every row is in its tenant's group exactly where the batch will answer it |

## Left out

- HTTP servers, authentication, routing, JSON and UTF-8 decoding, configuration, health checks and the command line: plumbing around the protocols.
- Provider clients, the WhatsApp clients, browser runtimes and the Graph API: their answers are parameters.
- SQL syntax, transactions' isolation below one statement or one transaction, hashing and file I/O: tables are maps or sequences with the stated unique keys, files are append-only sequences, hashed names are distinct.
- The filters of `handleInbound` before classification, among them the self-chat test: they select messages and carry no state.
- Ingress without a job queue: the decision then runs inside the delivery and has no separate redelivery.
- The version 1 policy evaluator: the first rule by intent, without sorting. Priorities and confidence floors that are not finite numbers.
- The takeover driver and the ingress are modelled on values as interleavings of many handlers, not as classes: several calls are in progress at once and their local variables are part of the state.
- Reconnecting a session makes a new record; the guarantees are per record. Sleeping may take longer than asked, never less.
- The moderator does not consult ownership, so the statement about model calls after a takeover is about inbound decisions only.
- Lone surrogates in ids: a Dafny `char` is a Unicode scalar value.
- Partial writes of two concurrent processes to one ledger file, and two flushes of one spool at the same time.
- The polling loop of the worker around `RunOnce`, and the fields `lastError`, `leaseOwner` and `updatedAt` that no decision reads.
- Attribution clocks that give no valid date: the two stores then refuse at different times.
- Fields of a listed message that are copied without being looked at (`thinking`, `proactiveOffer`, `modelName`, `provider`).
