# FxFill banking agent: a verified model

This project models the parts of the agent that decide whether money moves, and proves what holds on every
run. Dafny 4.11 verifies it with `dafny verify dfyconfig.toml`.

| Files | What they model |
|---|---|
| `HitlStore`, `GrantRepo`, `IdempotencyStore` | the three durable tables; every SQL statement plus commit is one atomic step |
| `ApprovalMachine`, `ApprovalInvariant`, `ApprovalRuns`, `ApprovalSafety` | `approve` and `reject` as programs that interleave at every `await`, any number of them on any number of sessions, each free to stop anywhere; the inserting endpoint and the expiry sweep run among them |
| `ApprovalExecutor`, `ApprovalOutcomes`, `ApprovalEndpoint` | the executor as a class over the three stores, shown to be one of those runs and to send the same call; every way an undisturbed call can end, column by column; what the endpoint stores, and that an undisturbed approver carries it out |
| `ToolNode`, `ToolAnswers`, `AgentLoop` | the graph's tool node, what it answers and records case by case, and the model/tool loop |
| `DispatchBound`, `AgentDispatch`, `OverlappingPasses` | the life of one idempotency key over all passes and executor turns, in whole agent runs, and when passes and executors overlap |
| `Ledger`, `LedgerOutcomes`, `LedgerProofs` | accounts, transfer drafts, transactions and completed keys; when each call succeeds and what it writes; what holds over all sequences of calls |
| `CycleDetection`, `CycleOrders`, `PlanValidator` | the three-colour search, the iteration orders that make it raise, and the plan checks |
| `RateLimiter`, `AuditChain`, `ProviderRetry`, `SchemaMigration` | the smaller algorithms |

How the model stands for the program:

* Clock readings, approver identities, tool replies, model answers and authorisation decisions are inputs,
  so every theorem is for all of them. A crash is an actor that is never advanced again, or a tool-node pass
  cut at an `await`; the pass then leaves only what it has written to the idempotency table.
* SHA-256 of tool arguments is a free constructor; in the audit chain the hash is any injective function
  whose text has no `|`. JSON objects are maps. Amounts and times are exact reals or integers. UUIDs are ids
  not yet in use.
* Iteration over a Python set is a sequence in arbitrary order, and the theorems hold for every order.

Where the code and its documents differ, the model follows the code:

* `docs/hitl-transfer-flow.md` and `docs/THREAT_MODEL.md` promise that idempotency keys prevent duplicate
  execution. A normally approved call goes out twice, once from the executor and once from the resumed graph
  (`DispatchBound.ApprovedCallIsDispatchedTwice`). A failing call goes out once per replay of its pass, without
  bound (`AgentDispatch.FailedKeyIsUnbounded`); the executor alone uses a key once
  (`ApprovalSafety.ExecutorUsesAKeyOnce`). A key is protected exactly while its record is EXECUTING, UNKNOWN or
  SUCCEEDED (`DispatchBound.NeverAgainIffSettled`), and otherwise has no bound (`DispatchBound.BoundedIffSettled`).
  The ledger still moves the money once (`LedgerProofs.ReplaysMoveNothing`).
* The flow document says that expired sessions cannot be approved. A deadline counts only when the session is read
  (`ApprovalExecutor.DeadlineCountsAtTheLoad`), and the sweep does not stop an approver that has read it
  (`ApprovalEndpoint.SweptSessionStillExecutes`). Deadlines enter only through the store's own `insert`: the one
  endpoint that inserts sessions stores none, and nothing under `src` calls the sweep.
* The transfer workflow says that it lets the graph run the tools its first response asks for, but the graph begins
  with the model node and runs only calls proposed after that (`AgentLoop.OnlyOwnCallsAreSent`,
  `AgentLoop.FirstCallsAreDropped`). A run leaves all calls
  answered exactly when its start did (`AgentLoop.AllAnsweredIffAtStart`); a new message on a suspended session
  starts the graph in the same way.
* RESUMED is not final; it is left in exactly two ways (`ApprovalSafety.ResumedIsLeftIffRelabelled`).
* The validator can raise instead of reporting a cycle, for exactly the graphs of
  `CycleOrders.FailsInSomeOrderIffEntered`.
* `_migrate_v3` asks for manual reconciliation when it fails. A repair of the rows lets it succeed only if it had
  failed before it created its replacement table (`SchemaMigration.RetryWorksIffFailedBeforeCreate`).

## Model

| member | source | states |
|---|---|---|
| HitlStore.SqliteHITLStore.UpdateStatus | src/fxfill_banking_agent/hitl_store.py:131-151 | succeeds exactly when the row has the expected version; then sets the status and adds one to the version; every other row stays |
| HitlStore.SqliteHITLStore.ExpireStaleSessions | src/fxfill_banking_agent/hitl_store.py:165-175 | marks exactly the PENDING rows past their deadline, keeps all versions, returns their number |
| GrantRepo.GrantRepository.AtomicConsume | src/fxfill_banking_agent/grant_repo.py:96-161 | returns the row, now CONSUMING, exactly when it was APPROVED, matched every parameter and was unexpired; otherwise changes nothing |
| GrantRepo.GrantRepository.ApprovePending | src/fxfill_banking_agent/grant_repo.py:215-228 | moves PENDING at the expected version to APPROVED under the given actor, or changes nothing |
| IdempotencyStore.SqliteIdempotencyStore.Reserve | src/fxfill_banking_agent/idempotency_store.py:82-101 | inserts a RESERVED record or leaves the existing one, and returns what is stored |
| IdempotencyStore.SqliteIdempotencyStore.MarkSucceeded | src/fxfill_banking_agent/idempotency_store.py:113-122 | stores the result from EXECUTING only |
| IdempotencyStore.SqliteIdempotencyStore.MarkFailed | src/fxfill_banking_agent/idempotency_store.py:124-133 | overwrites any status with FAILED |
| ApprovalInvariant.StepOther | src/fxfill_banking_agent/approval_executor.py:115-235 | no step of one actor upsets what another actor on the same session relies on, unless both held the grant; and no second actor comes to hold it |
| ApprovalRuns.EveryRunKeepsInv | src/fxfill_banking_agent/approval_executor.py:61-245 | the invariant that ties every program counter to its session and grant rows, with one grant holder per session, unique keys and an exact dispatch log, holds after every interleaving with crashes |
| ApprovalSafety.AtMostOneDispatch | src/fxfill_banking_agent/approval_executor.py:115-182 | in every run no session and no grant idempotency key, the empty one included, is dispatched twice by the executor |
| ApprovalSafety.ExecutorUsesAKeyOnce | src/fxfill_banking_agent/approval_executor.py:150-182 | in every run the executor dispatches at most once under a durable key among sessions that carry a key, and at most twice under any key at all |
| ApprovalSafety.GrantsOnlyClimb | src/fxfill_banking_agent/grant_repo.py:120-228 | between any two moments of a run grant rows persist, keep their request columns and climb the fixed rank, REJECTED and RECONCILIATION_REQUIRED are entered only before a claim, and keys are unique |
| ApprovalSafety.RejectionIsFinal | src/fxfill_banking_agent/approval_executor.py:217-235 | a reject that wins its update from a PENDING snapshot leaves the session REJECTED in every continuation, and no dispatch of it ever occurs, before or after, even if the grant was already APPROVED |
| ApprovalSafety.ClosedIsFinal | src/fxfill_banking_agent/hitl_store.py:142-151 | a session row at version 2 or more that is neither APPROVED nor RESUMED never changes again |
| ApprovalSafety.ClaimRunsToItsEnd | src/fxfill_banking_agent/approval_executor.py:132-215 | the read-back after a claim always finds the CONSUMING row, and the last session write at version plus one always succeeds and leaves the pair of statuses that the tool's reply calls for |
| ApprovalSafety.ClaimRefusedOnlyForMismatch | src/fxfill_banking_agent/approval_executor.py:132-146 | a claim is refused if and only if the grant does not match the session or has expired, never because it was already consumed |
| ApprovalSafety.NoClaimForAnother | src/fxfill_banking_agent/grant_repo.py:120-147 | from any tables, a named approver claims no grant that someone else approved |
| ApprovalSafety.ResultsMatchRows | src/fxfill_banking_agent/approval_executor.py:145-215 | after each result, at once and for ever: executed is (CONSUMED, RESUMED or relabelled later), failed and denied are (FAILED, FAILED), unknown is (UNKNOWN, FAILED), and a cached answer leaves the grant CONSUMING |
| ApprovalSafety.ResultTellsDispatch | src/fxfill_banking_agent/approval_executor.py:181-215 | a finished actor has dispatched if and only if its result is executed, tool failed or outcome unknown |
| ApprovalSafety.DispatchedAsRequested | src/fxfill_banking_agent/approval_executor.py:133-182 | tool, arguments, user, thread and call id of a dispatch equal those stored at any earlier moment, the recorded approver is the actor that dispatched, and the grant was live when claimed |
| ApprovalSafety.EmptyCallIdNeverRuns | src/fxfill_banking_agent/approval_executor.py:86-108 | a session with an empty tool-call id is never dispatched and its grant is never approved, claimed or consumed |
| ApprovalSafety.ClosedAfterDispatch | src/fxfill_banking_agent/hitl_store.py:51-58 | the closed row of a dispatched session is FAILED, or a RESUMED row relabelled at a later version |
| ApprovalSafety.ResumedIsLeftIffRelabelled | src/fxfill_banking_agent/hitl_store.py:51-64 | in every reachable state the row of an executed session is changed by an action if and only if that is the write of a reject, or of an approval that finds the session expired, with a snapshot of the row's version; it then becomes REJECTED or EXPIRED |
| ApprovalExecutor.HITLApprovalExecutor.ApproveOne | src/fxfill_banking_agent/approval_executor.py:61-215 | an undisturbed approval changes the three tables as `Approval` says, sends one call exactly when its result is the tool's, and sends the claimed grant's tool and arguments |
| ApprovalExecutor.HITLApprovalExecutor.RejectOne | src/fxfill_banking_agent/approval_executor.py:217-245 | an undisturbed rejection changes the tables as `Rejection` says |
| ApprovalOutcomes.LoneApprovalIsExact | src/fxfill_banking_agent/approval_executor.py:61-215 | an undisturbed approval, from any tables: every way it can end, each under its own condition on the rows, with what it answers and exactly which columns of session, grant and key record it writes; the operator gets the tool's own words if and only if the call went out, and the call has the grant's tool and arguments |
| ApprovalOutcomes.EndsTellTheReply | src/fxfill_banking_agent/approval_executor.py:181-215 | the result is executed with a text, failed with an error or unknown if and only if the call was made and the tool said that text, that error, or raised |
| ApprovalOutcomes.LoneRejectionIsExact | src/fxfill_banking_agent/approval_executor.py:217-245 | the same for a rejection: a refused, unidentified or carried-out one, the session REJECTED at the next version, a PENDING or APPROVED grant REJECTED and any other left, nothing sent |
| ApprovalExecutor.SoloSends | src/fxfill_banking_agent/approval_executor.py:115-215 | an actor left alone that has not yet dispatched sends exactly one call, built from its session's grant row, if and only if its result says what the tool did; one that has dispatched sends no more |
| ApprovalExecutor.ApprovalIsARun | src/fxfill_banking_agent/approval_executor.py:61-215 | the world and result of `Approval` are what the interleaving machine reaches when it advances one actor alone, statement by statement, and the log grows by that one call or not at all |
| ApprovalExecutor.RejectionIsARun | src/fxfill_banking_agent/approval_executor.py:217-245 | the same for `Rejection` |
| ApprovalExecutor.FreshRequestIsExecuted | src/fxfill_banking_agent/approval_executor.py:115-215 | from the snapshot of a fresh, matching, live request an approver alone reaches the tool and records its reply in grant and session; a success leaves the idempotency key RESERVED |
| ApprovalExecutor.SweepDecidesNoCall | src/fxfill_banking_agent/hitl_store.py:165-175 | in any configuration and at any point of its program, an undisturbed approver leaves the same log of dispatches after a sweep as without it |
| ApprovalExecutor.DeadlineCountsAtTheLoad | src/fxfill_banking_agent/approval_executor.py:73-147 | a fresh request is dispatched if and only if its session is read before the session's deadline and its grant is claimed before the grant's; the session's deadline counts at no later time |
| ApprovalEndpoint.StoredRequestIsCarriedOut | src/fxfill_banking_agent/api.py:321-371 | a request stored under new ids and approved without interference adds exactly one dispatch, by that approver, with the tool and arguments of the interrupt, and result, session and grant agree with the tool |
| ApprovalEndpoint.StoredRows | src/fxfill_banking_agent/api.py:326-371 | what the endpoint stores, column by column: user, thread, tool, arguments, digest, call id, key, no deadline, session and grant PENDING at version 1 |
| ApprovalEndpoint.SweptSessionStillExecutes | src/fxfill_banking_agent/hitl_store.py:165-175 | from every reachable state: a request read in time and then marked EXPIRED by the sweep is dispatched all the same, and the mark is overwritten |
| ApprovalEndpoint.ExecutedSessionCanBeRejected | src/fxfill_banking_agent/hitl_store.py:51-58 | from every reachable state: a request that was dispatched successfully can then be rejected; the session says REJECTED while the grant is CONSUMED |
| ToolNode.Node.RunPass | src/fxfill_banking_agent/graph.py:146-306 | the loop over the calls leaves messages, executed ids, durable records and dispatches as the call-by-call specification says, also when cut short |
| ToolNode.MessagesAnswerCalls | src/fxfill_banking_agent/graph.py:146-306 | a completed pass answers every call once, in order, with matching ids and names; a cut one answers a proper prefix |
| ToolNode.HandleShape | src/fxfill_banking_agent/graph.py:151-297 | a call is dispatched if and only if it is valid, unexecuted, authorised at once or by an approved resume, allowed by its durable record, and the process gets that far |
| ToolAnswers.HandleIsExact | src/fxfill_banking_agent/graph.py:151-301 | each call, from any record: the condition of every refusal, cached answer and dispatch with its own message, what is remembered, where the pass stops, and exactly what is left in the durable record |
| ToolAnswers.PassIsExact | src/fxfill_banking_agent/graph.py:146-306 | a pass handles its calls in order in just that way until it stops at one |
| ToolAnswers.AnswersTellWhatHappened | src/fxfill_banking_agent/graph.py:277-297 | in every pass a call is answered with a tool result or a tool error if and only if it went out and the tool replied with that content or that error |
| ToolAnswers.KindIsExact | src/fxfill_banking_agent/graph.py:322-329 | a registered tool reads without a side effect, transfers if it is critical, and writes otherwise |
| ToolNode.DispatchesAreJustified | src/fxfill_banking_agent/graph.py:151-301 | every dispatch of a pass is justified by its own call with the approved arguments, follows call order, and no non-empty id is dispatched twice or after being executed |
| DispatchBound.LifeOfAKey | src/fxfill_banking_agent/idempotency_store.py:82-143 | over any passes and executor turns the dispatches of a side-effecting key are paid out of a potential of its record (absent 2, RESERVED 1, otherwise 0) until one is recorded as failed; FAILED is never left; an EXECUTING, UNKNOWN or SUCCEEDED record never changes |
| DispatchBound.AtMostTwoDispatches | src/fxfill_banking_agent/graph.py:247-289 | from an empty table a side-effecting key is dispatched at most twice unless a dispatch of it was recorded as failed |
| DispatchBound.NeverAgainIffSettled | src/fxfill_banking_agent/graph.py:247-289 | a side-effecting graph key is never dispatched again, by any passes and executor turns, if and only if its record is EXECUTING, UNKNOWN or SUCCEEDED |
| DispatchBound.BoundedIffSettled | src/fxfill_banking_agent/graph.py:247-289 | from any history, the further dispatches of a side-effecting graph key have any bound at all if and only if its record is EXECUTING, UNKNOWN or SUCCEEDED |
| DispatchBound.FirstDispatchIsLastIffRaised | src/fxfill_banking_agent/approval_executor.py:150-197 | the executor's first use of a key rules out every later dispatch if and only if the tool call raised and that was recorded |
| DispatchBound.ApprovedCallIsDispatchedTwice | src/fxfill_banking_agent/api.py:418-436 | the executor's success followed by the endpoint's resume dispatches the call exactly twice, and only then is the record SUCCEEDED |
| DispatchBound.ExecutorTurnIsTheMachines | src/fxfill_banking_agent/approval_executor.py:150-197 | an executor turn, whole or cut at any point, leaves the record and the number of dispatches that the approval machine leaves when it advances an actor that far from its look at the key |
| AgentDispatch.LifeIsAHistory | src/fxfill_banking_agent/graph.py:247-297 | the tool passes of a whole agent run, with the executor's turns between its invocations, form one history of dispatches under the durable records |
| AgentDispatch.LifeAloneIsTheRun | src/fxfill_banking_agent/graph.py:355-365 | without executor turns that history is what the agent loop's own run sends and records |
| AgentDispatch.AgentDispatchesAtMostTwice | src/fxfill_banking_agent/graph.py:247-289 | over a whole agent run with any suspensions, crashes and executor turns, a side-effecting key is dispatched at most twice unless a dispatch of it was recorded as failed |
| AgentDispatch.FailedKeyIsUnbounded | src/fxfill_banking_agent/idempotency_store.py:124-133 | for every n > 0 there is an agent run with one model call, replayed after n crashes behind the record of the failure, that dispatches one key n times |
| OverlappingPasses.AloneIsTheNode | src/fxfill_banking_agent/graph.py:247-289 | a pass that nothing overlaps does, await by await, what the tool node does with the call, also when the call raises |
| OverlappingPasses.AloneIsTheTurn | src/fxfill_banking_agent/approval_executor.py:150-197 | an executor that nothing overlaps takes, await by await, one executor turn |
| OverlappingPasses.OverlapIsBoundedByCapacity | src/fxfill_banking_agent/graph.py:252-289 | when n passes and m executors over one key may overlap, and nothing fails, a number bounds the dispatches of every schedule if and only if it is at least n + m for a missing or FAILED record, n for a RESERVED one, and 0 otherwise; so the bound of two breaks exactly when three get through |
| AgentLoop.RunEndsWell | src/fxfill_banking_agent/graph.py:71-120 | from every start state, over all suspensions and resumptions, the step count grows by one per model call and no call is made beyond the limit; a run ends with the last message as final answer, at the limit, or suspended with calls to do |
| AgentLoop.TranscriptIsExact | src/fxfill_banking_agent/graph.py:71-120 | from every start state: a run leaves a model message answered, directly behind it and in order, if and only if the run itself added it and is not suspended at it, or it is the one the run was resumed at, or it was answered before the run began |
| AgentLoop.AllAnsweredIffAtStart | src/fxfill_banking_agent/graph.py:355-365 | a run that is not suspended ends with every call answered if and only if every call was answered at its start, apart from the message it was resumed at |
| AgentLoop.OnlyOwnCallsAreSent | src/fxfill_banking_agent/graph.py:143-301 | from every start state, whatever a run dispatches is a call of the message it was resumed at or of a model message that it added; calls proposed before its start are never run |
| AgentLoop.RunIsSaid | src/fxfill_banking_agent/graph.py:98-120 | the transcript only grows, and every model message a run adds is the model's response, content and calls, to the messages before it |
| AgentLoop.UnfinishedRunHasNoAnswer | src/fxfill_banking_agent/graph.py:115-118 | a run that is suspended or stopped at the limit has the final answer it started with, whatever the model said beside its calls |
| AgentLoop.PassIsSavedWholeOrNotAtAll | src/fxfill_banking_agent/graph.py:303-306 | a completed pass saves its messages and its executed ids and nothing else; a cut one saves nothing |
| AgentLoop.InvocationSendsOnce | src/fxfill_banking_agent/graph.py:143-306 | over all passes of one invocation no non-empty call id is sent twice, nor one that its start names as executed |
| AgentLoop.FirstCallsAreDropped | src/fxfill_banking_agent/agent.py:579-613 | the transfer workflow starts the graph behind a first response; if that asks for tools and the model then simply answers, the run finishes, nothing is sent and those calls stay unanswered |
| AgentLoop.ModelCallsAreBounded | src/fxfill_banking_agent/graph.py:93-95 | from every start node and state a run makes at most the limit minus the initial step count model calls, and exactly that many when it ends with the step-limit error |
| AgentLoop.PassAnswersTheLast | src/fxfill_banking_agent/graph.py:303-306 | a completed tool pass answers all calls of the last message, in order, before the next model message |
| Ledger.BankingRepository.CreateTransferDraft | src/fxfill_banking_agent/banking/repository.py:81-138 | stores a DRAFT exactly when every check passes, in the code's order of errors |
| Ledger.BankingRepository.SubmitTransfer | src/fxfill_banking_agent/banking/repository.py:140-184 | debits, completes, records and remembers the key exactly when every check passes; expiry alone among the failures changes the draft |
| LedgerOutcomes.CreateIsExact | src/fxfill_banking_agent/banking/repository.py:81-138 | a request becomes a draft if and only if account, owner, payee, amount, currency, balance and key allow it; the draft has the request's columns and half an hour; otherwise nothing changes and the first objection is reported |
| LedgerOutcomes.SubmitIsExact | src/fxfill_banking_agent/banking/repository.py:140-184 | a submit succeeds if and only if the draft is open, the caller's, in time, covered and its key unused; then it moves exactly the amount and appends exactly one transaction; an overdue draft becomes FAILED; any other refusal changes nothing |
| LedgerOutcomes.SubmitRefusals | src/fxfill_banking_agent/banking/repository.py:140-161 | which refusal a submit meets, each under its own condition |
| LedgerOutcomes.CancelIsExact | src/fxfill_banking_agent/banking/repository.py:186-195 | an owner cancels an undecided draft; every other attempt is refused with its reason and changes nothing |
| LedgerOutcomes.DraftIsPaidInTime | src/fxfill_banking_agent/banking/repository.py:81-184 | whatever other calls come between, an accepted request is paid when its owner submits it within half an hour with key and balance free, and fails and moves nothing when submitted later |
| LedgerProofs.MoneyIsConserved | src/fxfill_banking_agent/banking/repository.py:81-195 | over any calls balance plus completed debits, and balance minus recorded transactions, stay constant per account; balances never rise nor go below zero; drafts stay within the limit; no non-empty key has two COMPLETED drafts |
| LedgerProofs.LossIsTheSumOfCompletedDrafts | src/fxfill_banking_agent/banking/repository.py:162-184 | from books without drafts, with any accounts and histories: an account's loss is the sum of its COMPLETED drafts and the negated sum of the transactions the run appended to its history, which is otherwise kept |
| LedgerProofs.OneSubmitDecides | src/fxfill_banking_agent/banking/repository.py:140-184 | after any submit of a draft by its owner no later submit of it succeeds, by anyone, at any time, after any calls |
| LedgerProofs.DraftIsDebitedOnce | src/fxfill_banking_agent/banking/repository.py:146-168 | every run debits a draft at most once |
| LedgerProofs.KeyIsDebitedOnce | src/fxfill_banking_agent/banking/repository.py:158-182 | every run debits drafts of one non-empty key at most once in all |
| LedgerProofs.ReplaysMoveNothing | src/fxfill_banking_agent/api.py:418-436 | dispatching one submit any number of times leaves balances, transactions and keys as the first dispatch left them |
| CycleDetection.Detector.RunDfs | src/fxfill_banking_agent/orchestration/validator.py:122-137 | the recursive method with its shared colours, path and errors computes the specified search |
| CycleDetection.Detector.DetectCycles | src/fxfill_banking_agent/orchestration/validator.py:110-143 | the root loop computes the specified detection |
| CycleDetection.DetectionIsExact | src/fxfill_banking_agent/orchestration/validator.py:110-143 | for every iteration order no error is returned if and only if the graph is acyclic; then the finishing order is a topological order of all ids; every reported cycle is real; the lookup failure happens only on cyclic graphs, after a reported cycle |
| CycleDetection.StaleGrayRaises | src/fxfill_banking_agent/orchestration/validator.py:128-131 | a concrete graph and root order on which the lookup in the path fails |
| CycleOrders.FailsInSomeOrderIffEntered | src/fxfill_banking_agent/orchestration/validator.py:110-143 | some iteration order of the dependencies and roots makes the path lookup raise if and only if a known id outside some cycle depends on an id in it |
| PlanValidator.Validate | src/fxfill_banking_agent/orchestration/validator.py:42-107 | reports exactly the violations the plan has and exactly its warnings, only real cycles, and passes if and only if the plan satisfies every declared condition including acyclicity; it raises only on plans where a step outside a cycle depends on one in it |
| PlanValidator.ValidPlanIsExecutable | src/fxfill_banking_agent/orchestration/validator.py:73-85 | a passing plan has an execution order of all its steps in which each follows everything it depends on |
| PlanValidator.LastStepCounts | src/fxfill_banking_agent/orchestration/validator.py:116 | among steps of one id the dependencies of the last one are the ones that count |
| RateLimiter.RateLimitMiddleware.Dispatch | src/fxfill_banking_agent/api.py:557-574 | accepts if and only if fewer than the maximum of the key's recorded times are less than a window old; adds the new time then, and otherwise leaves the list; other keys stay |
| RateLimiter.AcceptedIffRoom | src/fxfill_banking_agent/api.py:565-572 | over the whole history: a request is accepted if and only if fewer than the maximum of the earlier requests of its key were accepted and are less than one window old |
| RateLimiter.NoIntervalExceedsMax | src/fxfill_banking_agent/api.py:565-572 | no half-open interval of the window's length holds more than the maximum of accepted requests |
| AuditChain.BuildEvidenceBundle | src/fxfill_banking_agent/audit/models.py:102-139 | reports the chain as verified if and only if every event but the first carries the hash of its record and its predecessor's hash |
| AuditChain.ContentIsInjective | src/fxfill_banking_agent/audit/models.py:71 | the joined text determines all five fields although `details` may contain the separator |
| AuditChain.ContentIsInOrder | src/fxfill_banking_agent/audit/models.py:71 | the joined text has id, time, kind, details and previous hash in this order, with one separator between |
| AuditChain.SameHeadSameHistory | src/fxfill_banking_agent/audit/models.py:111-124 | two verified chains with the same last hash agree on hashes over their common length and on records over all of it but the first place |
| AuditChain.BarredStartHidesRewriting | src/fxfill_banking_agent/audit/models.py:62-72 | without a separator-free starting hash this fails: two verified chains with the same last hash differ in the details of an event that is not the first |
| AuditChain.RewritingIsDetectedIffHashed | src/fxfill_banking_agent/audit/models.py:62-72 | rewriting an event other than the first keeps the chain verified if and only if id, timestamp, kind and details are unchanged |
| AuditChain.OverlappingChainsJoin | src/fxfill_banking_agent/audit/models.py:111-124 | chains that share an event join into a verified chain if and only if both are verified |
| ProviderRetry.RequestWithRetry | src/fxfill_banking_agent/providers/deepseek.py:138-168 | retries exactly exceptions and the statuses 408, 429, 500, 502 and 503; returns the first other status, else the last attempt's outcome, after at most the retries plus one posts; the raise behind the loop is reached if and only if the retry count is negative |
| ProviderRetry.TotalSleepIsBounded | src/fxfill_banking_agent/providers/deepseek.py:151-162 | k sleeps add up to between b(2^k - 1) and one and a half times that |
| ProviderRetry.SleepIsExact | src/fxfill_banking_agent/providers/deepseek.py:151-152 | the first sleep starts from the configured backoff, each next doubles it, and jitter adds up to half |
| SchemaMigration.Store.InitDatabase | src/fxfill_banking_agent/db.py:80-111 | runs the steps between the stored and the wanted version, commits each, stops at the first failure and writes the version last |
| SchemaMigration.MigrationComposes | src/fxfill_banking_agent/db.py:80-111 | going through an intermediate version gives the same tables and the same error as going directly |
| SchemaMigration.RebuildIsExact | src/fxfill_banking_agent/db.py:265-319 | create, copy row by row under the constraints, drop and rename put the very rows under the new constraints if and only if they satisfy them; a failed copy leaves the rows, and the empty replacement beside them |
| SchemaMigration.MigrationKeepsRows | src/fxfill_banking_agent/db.py:298-360 | no step, whether it succeeds or fails, loses, reorders or rewrites a row: grants stay as they are, and each session keeps its columns and gets an empty tool-call id exactly if that column was added |
| SchemaMigration.ConstraintsAreExact | src/fxfill_banking_agent/db.py:284-287 | which rows v3 and v5 admit: no session or key twice, three decisions, eight statuses, and RECONCILIATION_REQUIRED from v5 on |
| SchemaMigration.FailureIsExact | src/fxfill_banking_agent/db.py:233-377 | on a well-formed database a migration fails if and only if it passes v3 with grants that v3 rejects or with a replacement table left over; how it fails is determined; v5 never rejects |
| SchemaMigration.RetryWorksIffFailedBeforeCreate | src/fxfill_banking_agent/db.py:254-300 | after a first failure and a repair of the rows, the same migration succeeds if and only if it had failed at the duplicate checks; after a failed copy it keeps failing because the table exists |
| SchemaMigration.MigratedDatabase | src/fxfill_banking_agent/db.py:87-91 | lower targets are refused unchanged, a failure keeps the stored version, and a database brought to v3 or later has unique session ids and keys |

## Left out

- DispatchBound.LifeOfAKey: the turns of one key come one after the other; what overlaps is the subject of
  `OverlappingPasses`, for passes with one call under the key.
- ApprovalMachine.Apply: sessions enter as PENDING at version 1, as the one inserting endpoint does.
- HitlStore, GrantRepo: timestamps that no condition reads, and the free-text authorisation columns.
- Rewriting `args` inside the stored model message on an approved resume; the dispatched arguments are modelled.
- SchemaMigration.Store.InitDatabase: indexes, the tables no step rewrites, and a process that dies within a step.
- PlanValidator.Validate: in which order and how often an error is listed, the wording of errors, and `str.strip` on the goal, which is an input.
- Ledger: `load_fixtures` after start-up, the read-only getters, and aliasing of the returned objects.
- AgentLoop: metrics, prompts and provider messages; the model is an arbitrary function of the conversation.
- LangGraph checkpoints beyond restarting the tool node from the saved state; asyncio, SQLite and HTTP.
- `reliability.py`: the circuit breaker's properties can be read off its three short methods.
- Event persistence, which is best effort and swallows its errors.
- Intent routing, RAG, memory, governance, redaction, RBAC/ABAC policies and telemetry.
