# Verification of the doppel agent's hard parts

A Dafny model of the parts of this repository whose correctness depends on what can still happen
after a lost reply, a crash or an interleaving, and of its exact tariff arithmetic; with proofs, for
all inputs and all runs, of what these parts are for. `dafny verify dfyconfig.toml` checks everything.

## How it is built

Code that updates objects is a class with the same state and one method per stretch of code between
two awaits (or per database transaction). Each method is proved equal to a step function. A step
system then runs those step functions against a network and a server: events are the user's acts,
requests served early, late or never, replies delivered or lost, and other writers. A disabled event
leaves the state alone, so theorems quantify over arbitrary sequences of events. Invariants are split
into small predicates, and each event keeps each of them by its own lemma. The table below lists the
theorems, the loops, and the handlers with several branches; a handler with one guard has the same kind
of contract and no row. Beside the safety theorems stand laws that say, without the step functions,
what goes out and what is shown in terms of what came in: what was submitted, picked, edited, decided
or replied, and exactly when. Rows that say "corollary" read a guard or a definition together with an invariant.

| files | component |
|---|---|
| `BudgetLedger`, `RunMatrix`, `RunMatrixSafety`, `ExecuteRuns` | the shared spending ledger, the usage wrapper, the create-only result store and any number of crashing batch processes over them |
| `AgentLoop`, `AgentLoopResume`, `AgentLoopMeaning` | the model/tool loop with pending-call continuations and a reserved last turn; resuming; what an outcome means |
| `Submission` | run submission over a lossy network |
| `SelectionWrites` | the compare-and-set selection writer that `workOrders.ts` and `context.ts` share |
| `WorkOrderIntents`, `WorkOrderLaws`, `PlanOrder` | work order save and activation intents; what each act and reply does; the plan check |
| `VerificationReview`, `VerificationSafety`, `VerificationLaws`, `InverseReview`, `InverseSafety`, `InverseLaws` | the two review controllers, their worlds, and what each act and reply does |
| `EventLog`, `RunEvents`, `RunLaws` | the durable event log, `mergeEvents`, and the run inspector's list |
| `ReplyRows`, `ReplyStream`, `ReplyLaws` | the live reply: rows of a run, replays, streams, conversation switches |
| `EventStream` | the incremental event stream reader, after sections 9.2.5 and 9.2.6 of the WHATWG HTML standard |
| `Decimals`, `Pricing`, `Subtotals` | printing and reading decimal amounts, pricing, token subtotals |

## What the models assume

- Servers: a review, once stored, is kept and never becomes pending again
  (`src/doppel_agent/persistence/verification_reviews.py`, `src/doppel_agent/persistence/inverse_reviews.py`);
  selections and work orders are compare-and-set on `expected_revision` and idempotent on their key
  (`src/doppel_agent/persistence/work_orders.py`); event rows are appended with growing numbers and listed in
  order (`src/doppel_agent/persistence/events.py`). Servers may otherwise do anything at any time.
- Each ledger method is one transaction; an exclusive file creation is one step.
- Providers, tools and compaction are arbitrary deterministic functions over a hidden state.
- A recorded usage pair has a safe total, and under the cache basis cached plus uncached is the input.
- Clocks, generated ids, and user input are parameters of the steps.

## Where the code does less than it seems to promise

- `run` accepts a continuation whose step equals the budget (`src/doppel_agent/loop.py:86`) and would then ask
  one step past it, with tools. No continuation that `run` creates is like that under the same budget
  (`AgentLoopResume.ContinuationsAreSound`), but one of a run under a larger budget can be: the exact
  condition is `AgentLoopResume.StaleContinuationOverruns`, an input that fails is `AgentLoopResume.LoweredBudgetOverruns`.
- `decodeSseBlocks` normalizes the leftover again with the next chunk, so a stream with CR CR LF
  decodes differently depending on how it is cut; the exact condition is `EventStream.IndependentIff`.
- The wrapper's complete usage equals the ledger account only while every attempt is settled: when the
  settlement itself fails, the ledger knows and the wrapper does not. The exact condition is
  `RunMatrixSafety.CompleteUsageEqualsAccount`, a run that fails is `RunMatrixSafety.LostSettlementLeavesAccountUnknown`.

## Model

| member | source | states |
|---|---|---|
| `BudgetLedger.CostIsExact` | bench/cny_budget.py:72-75 | the decimal cost, rounded to six places half-even, is exactly 2 * prompt + 8 * completion micro-CNY for every input: the quantize step never rounds |
| `BudgetLedger.CnyBudgetLedger.Reserve` | bench/cny_budget.py:77-91 | one transaction: refused while any attempt is unsettled or when the worst case does not fit the total; otherwise exactly one pending row is appended |
| `BudgetLedger.CnyBudgetLedger.Settle` | bench/cny_budget.py:93-109 | only a pending attempt with usage inside both bounds becomes settled at its exact cost; every refusal leaves the whole ledger as it was |
| `BudgetLedger.CnyBudgetLedger.ClaimRun` | bench/cny_budget.py:111-122 | refused for a run key with any attempt or claim, and while any claim is active or any attempt unsettled; otherwise adds one active claim |
| `BudgetLedger.CnyBudgetLedger.RunAccount` | bench/cny_budget.py:134-142 | the loop over the rows of one key computes the account: unknown as soon as one row is unsettled, else the three sums |
| `BudgetLedger.CnyBudgetLedger.Summarize` | bench/cny_budget.py:144-156 | charged, held, available, row count and the blocked flag of the ledger |
| `BudgetLedger.CommitKeepsSafe` | bench/cny_budget.py:77-132 | each of the four transactions keeps: only the newest attempt unsettled, exact bounded charges, charged plus held within 10 CNY |
| `BudgetLedger.LedgerSafety` | bench/cny_budget.py:144-156 | over every history of transactions at most one attempt is unsettled and the published available amount stays between zero and the total |
| `BudgetLedger.RefusedOnlyWhenWorstCaseDoesNotFit` | bench/cny_budget.py:79-87 | corollary of the guard: with a settled ledger a reservation is refused if and only if one more worst-case charge would exceed the total |
| `BudgetLedger.RefusedExactly` | bench/cny_budget.py:77-132 | which transaction is refused with what, exactly, in the order of the checks: only an open claim or an unsettled request stands in the way of a fresh key, and a completed claim does not |
| `BudgetLedger.SummaryTells` | bench/cny_budget.py:144-156 | over every history charged, held and available add up to 10 CNY, one worst case is held exactly while a request is unsettled, and blocked means exactly that a fresh key could not be claimed |
| `BudgetLedger.ChargedAddsUp` | bench/cny_budget.py:93-109 | the charged amount starts at nothing and grows by the exact cost of each settlement and by nothing else |
| `RunMatrix.UsageProvider.NextTurn` | bench/live_runtime_matrix.py:421-462 | one wrapper turn: reserve before the call, settle after it, which failure class and completeness each of the eight outcomes leaves, and both totals |
| `RunMatrix.ResultStore.Save` | bench/live_runtime_matrix.py:218-224 | create-only: a second save of a key, or a record of another key, changes nothing and fails |
| `RunMatrixSafety.StepKeeps` | bench/live_runtime_matrix.py:262-358 | every step of every process, and a crash anywhere, keeps the invariant over ledger, workers and result store |
| `RunMatrixSafety.RunnerStartsAtMostOnce` | bench/live_runtime_matrix.py:279-287 | any number of processes, any interleaving and crashes: the runner starts at most once per run key, and every provider request lies behind its own reservation of the same key |
| `RunMatrixSafety.CompleteClaimIsPublished` | bench/live_runtime_matrix.py:349-351 | a claim marked complete always has its result stored |
| `RunMatrixSafety.CompleteUsageEqualsAccount` | bench/live_runtime_matrix.py:421-462 | between calls, complete usage of a wrapper equals the ledger account of its key in cost and both token totals, if and only if every attempt is settled |
| `RunMatrixSafety.LostSettlementLeavesAccountUnknown` | bench/live_runtime_matrix.py:421-462 | a run, for any key, in which the equality fails: one request whose settlement is lost leaves complete usage beside an unknown account |
| `RunMatrixSafety.RecordedRunIsAccepted` | bench/live_runtime_matrix.py:305-358 | the account comparison after a run never rejects known usage over a settled ledger; publishing and completing are never refused |
| `RunMatrixSafety.ClaimIsGrantedIff` | bench/cny_budget.py:111-122 | in every reachable state a process at its claim starts its runner if and only if no request is unsettled, no claim is open and its key was never claimed; otherwise it stops and the ledger is as it was |
| `RunMatrixSafety.TurnBegins` | bench/live_runtime_matrix.py:421-437 | a turn up to its request: which refusal comes first, what it does to the failure and to the completeness of the usage, and the reservation it makes otherwise |
| `RunMatrixSafety.TurnEnds` | bench/live_runtime_matrix.py:438-462 | a turn after its request: bounded usage settles the attempt at its cost and is added up; for anything else the failure, with the attempt left pending |
| `RunMatrixSafety.RecordTells` | bench/live_runtime_matrix.py:287-330 | a record field by field: verdict, tokens, cost and failure in terms of how the runner ended, the wrapper and the account |
| `RunMatrixSafety.ComparisonIsFull` | bench/live_runtime_matrix.py:268-271 | a stored result is accepted on cost and both token totals, all known and equal |
| `RunMatrixSafety.OrphanBlocksForever` | bench/cny_budget.py:83-84 | an attempt left pending blocks every later claim, reservation and runner start, for every continuation |
| `RunMatrixSafety.StoreIsCreateOnly` | bench/live_runtime_matrix.py:218-224 | no step changes or removes a stored result |
| `RunMatrixSafety.ResumeReplaysStoredResults` | bench/live_runtime_matrix.py:262-278 | in every state of a resume whose results are all stored, it has only read: it has replayed a prefix of the stored results, starts nothing and calls no provider, and is stopped only if one of them has no known cost |
| `RunMatrixSafety.ResumeReturnsStoredResults` | bench/live_runtime_matrix.py:262-278 | after at most two own steps per key and one more, whatever the other processes do in between, such a resume has returned exactly the stored results if every cost is known, and has stopped otherwise |
| `ExecuteRuns.DriveRunner` | bench/live_runtime_matrix.py:286-304 | driving one runner through the wrapper takes own steps of one worker; afterwards the wrapper counts exactly the usage of the plan on a settled ledger if every turn was affordable, and is stuck otherwise |
| `ExecuteRuns.RecordRun` | bench/live_runtime_matrix.py:305-358 | account, save, finish and the stop decision are three own steps, in this order; the record of the account is stored in any case, the claim completed, and it is returned if and only if it does not stop the batch |
| `ExecuteRuns.RunOne` | bench/live_runtime_matrix.py:279-358 | one key without a stored result: it earns a record, with the verdict, tokens and cost of its plan, if and only if the key is claimable, every turn is affordable and the runner ends well |
| `ExecuteRuns.RecordedRight` | bench/live_runtime_matrix.py:287-330 | after a plan, the record stops the batch unless every turn was affordable and the ending is good, and then it is exactly what the plan earned |
| `ExecuteRuns.ExecuteRuns` | bench/live_runtime_matrix.py:262-359 | the whole loop, on any ledger and store that earlier runners can have left: own steps of one new worker; no key is ever started twice, every completed claim is published, every returned record is accepted by the final ledger and is the stored one or what its plan earned; it returns normally if and only if each key in turn is stored with a known cost, or unclaimed while everything is settled and completed, with an affordable plan that ends well; a fully stored batch changes nothing |
| `AgentLoop.AgentLoop.RunBatch` | src/doppel_agent/loop.py:128-139 | the tool half of a step equals the recursive meaning of running the calls in order, including the continuation captured at an interruption |
| `AgentLoop.AgentLoop.AskModel` | src/doppel_agent/loop.py:102-127 | the model half of a step: compaction, the reserved last turn without schemas, and the four ways it ends |
| `AgentLoop.AgentLoop.Run` | src/doppel_agent/loop.py:78-140 | the nested loops compute the recursive meaning of a start or a resume; refused inputs change nothing |
| `AgentLoopMeaning.LoopIsActs` | src/doppel_agent/loop.py:96-140 | every outcome is what a machine of single acts does: each request is the compacted transcript, with the closing prompt and no tools exactly at the last step; each tool message carries the output or error text of its call; an answer, a failure, a continuation and the final transcript are read off the acts |
| `AgentLoopMeaning.RunIsExplained` | src/doppel_agent/loop.py:78-95 | a new run is refused exactly for a history that is not plain; otherwise its outcome is explained by acts from the system prompt, the history and the prompt, in this order |
| `AgentLoopMeaning.ResumeIsExplained` | src/doppel_agent/loop.py:84-91 | a resume is refused exactly for a step out of range or nothing pending; otherwise its outcome is explained by acts from the transcript, calls and step of the continuation |
| `AgentLoopMeaning.AnswerIsLastTurn` | src/doppel_agent/loop.py:120-122 | the answer of a run is the content the provider gave for the last thing it was asked, in a turn without tool calls |
| `AgentLoopResume.SegmentResumes` | src/doppel_agent/loop.py:96-139 | one interruption: either not reached, or its continuation leads on exactly as the uninterrupted run does |
| `AgentLoopResume.InterruptionsChangeNothing` | src/doppel_agent/loop.py:78-140 | for any provider, compaction and tools and any plan of interruptions, the chain of resumes equals one uninterrupted run: answer, messages, provider inputs, tool runs and environment |
| `AgentLoopResume.StepBudgetHolds` | src/doppel_agent/loop.py:85-140 | over a whole chain with a budget: at most that many provider calls, only the one at the last step without schemas, no tool at or after it, and every continuation handed on along the chain is below the budget and aligned |
| `AgentLoopResume.StaleContinuationOverruns` | src/doppel_agent/loop.py:85-88 | the accepted bound is one too wide: if the next turn is asked, the step bound holds if and only if the resumed step is below the budget; at the budget the next call is one past it, with tools |
| `AgentLoopResume.LoweredBudgetOverruns` | src/doppel_agent/loop.py:85-88 | a run in which the budget is overrun: interrupted in its first step under a budget of two and resumed under a budget of one, it asks a second time, with tools |
| `AgentLoopResume.ContinuationsAreAligned` | src/doppel_agent/loop.py:126-139 | one segment: in its continuation each tool message answers the call at its position in the newest assistant message, and the pending calls are the unanswered rest; for the chain see `ContinuationsAreSound` |
| `AgentLoopResume.ContinuationsAreSound` | src/doppel_agent/loop.py:85-139 | every continuation handed on along any chain of interruptions and resumes, with or without a budget, has a step of at least one and below the budget, something pending, and aligned tool messages |
| `Submission.RunSubmissionController.Submit` | frontend/src/runSubmission.ts:13-22 | up to the first await: ignored when busy, rejected while a request is unknown, else preparing or the first send of a fresh key |
| `Submission.RunSubmissionController.Prepared` | frontend/src/runSubmission.ts:20-25 | after the context was prepared or failed |
| `Submission.RunSubmissionController.Retry` | frontend/src/runSubmission.ts:26-31 | resends the pinned request only while it is uncertain |
| `Submission.RunSubmissionController.Receive` | frontend/src/runSubmission.ts:32-47 | forgets the request only on a valid acceptance or a refusal of the very first send |
| `Submission.NeverForgetsAnAdmittedRun` | frontend/src/runSubmission.ts:32-47 | whenever the client holds no request, every admitted run was acknowledged and no send still under way can be admitted any more |
| `Submission.OneSubmitAdmitsAtMostOneRun` | frontend/src/runSubmission.ts:18-22 | all sends under one key are one body, so one submit admits at most one run, with the sent body |
| `Submission.SendsRepeatUntilResolved` | frontend/src/runSubmission.ts:26-33 | a step that sends repeats the newest unresolved request unchanged, or is the first send of a new key when nothing is unresolved |
| `Submission.ForgottenOnlyWhenAnswered` | frontend/src/runSubmission.ts:37-44 | a request leaves memory only by a validated acknowledgement or the refusal of its first and only send, and then it was not admitted |
| `Submission.ClosingLosesNothing` | frontend/src/runSubmission.ts:49-51 | the page may close if and only if nothing is being prepared and no request is unanswered; then every admitted run is acknowledged, also against requests still under way; a request that blocks closing was never acknowledged |
| `Submission.SendsSaySubmits` | frontend/src/runSubmission.ts:13-33 | what is sent is what was submitted: a submit sends its own body at once, a prepared context goes out with the body of the submit it was prepared for, a retry repeats the pending request, and nothing else sends |
| `Submission.ActsDo` | frontend/src/runSubmission.ts:13-31 | submit, the end of a preparation and retry: when each is ignored, rejected, or sends, and the whole state after it |
| `Submission.RepliesDo` | frontend/src/runSubmission.ts:32-47 | a valid acceptance, or one of the four refusals of a first send, frees the client; any other reply leaves the request pending and unknown |
| `Submission.SubmitIsAdmitted` | frontend/src/runSubmission.ts:13-25 | from a free client, a submit that gets through is admitted with the submitted body, acknowledged, and frees the client again |
| `Submission.PreparedSubmitIsAdmitted` | frontend/src/runSubmission.ts:13-25 | the same through a preparation, with the prepared context |
| `Submission.RetryRecovers` | frontend/src/runSubmission.ts:26-31 | an unknown request recovers by one retry that gets through, whether or not it had been admitted: admitted once, acknowledged, and the client is free |
| `SelectionWrites.SelectionWriter.Remember` | frontend/src/context.ts:258-262 | queues a write of the newest pick and marks it pending |
| `SelectionWrites.SelectionWriter.StartJob` | frontend/src/workOrders.ts:207-216 | the oldest queued write leaves the queue and starts, always with its read |
| `SelectionWrites.SelectionWriter.OnRead` | frontend/src/context.ts:266-274 | after the current selection was read: confirm, fail, or send with the revision just read, under a fresh key when it moved |
| `SelectionWrites.SelectionWriter.OnSaved` | frontend/src/context.ts:275-278 | confirms only an exact acknowledgement |
| `SelectionWrites.StepKeeps` | frontend/src/workOrders.ts:207-249 | every client step, server step, loss and foreign write keeps the queue, revision and reply invariants |
| `SelectionWrites.LastPickWins` | frontend/src/context.ts:280-289 | when a flush returns normally, nothing is under way or queued, what the user picked last was the stored selection of its scope at some version, and every request ever sent for an earlier pick of that scope expects an older one |
| `SelectionWrites.EarlierPicksCannotReturn` | frontend/src/workOrders.ts:212-249 | from then on no earlier pick, however long delayed, can be applied, whatever happens next |
| `SelectionWrites.SendsSayPicks` | frontend/src/context.ts:258-278 | every request ever sent carries the scope and payload of its pick, under one key for each pick and expected revision; the pending pick is the newest one |
| `SelectionWrites.ReadEndsAs` | frontend/src/context.ts:266-274 | what the end of a read leads to: the write ends, is confirmed, or sends exactly the revision read |
| `SelectionWrites.SaveEndsAs` | frontend/src/context.ts:275-278 | a save confirms the newest pick by an acknowledgement of exactly this write, and nothing else does |
| `SelectionWrites.PickIsSaved` | frontend/src/context.ts:258-278 | a pick on an idle writer, left undisturbed, is stored as exactly one more version of its scope and confirmed |
| `SelectionWrites.FlushConfirms` | frontend/src/context.ts:266-289 | a flush finds a save whose reply was lost: the pick is confirmed by what is stored, and nothing is sent |
| `SelectionWrites.FlushWritesAgain` | frontend/src/context.ts:266-289 | a flush finds another selection in place of the pending pick, or a pick that was never sent: it is stored over it and confirmed |
| `WorkOrderIntents.WorkOrderController.Accept` | frontend/src/workOrders.ts:172-177 | taking over a record clears every unknown and pinned intent |
| `WorkOrderIntents.WorkOrderController.Launch` | frontend/src/workOrders.ts:368-371 | a mutation starts only when nothing else runs |
| `WorkOrderIntents.WorkOrderController.Save` | frontend/src/workOrders.ts:390-401 | pins one save intent, once |
| `WorkOrderIntents.WorkOrderController.Activate` | frontend/src/workOrders.ts:433-441 | pins one activation intent, once |
| `WorkOrderIntents.WorkOrderController.OnContext` | frontend/src/workOrders.ts:402-411 | the prepared context enters the intent before its first send only |
| `WorkOrderIntents.WorkOrderController.OnReply` | frontend/src/workOrders.ts:372-385 | a reply must match; a refusal clears only a first send; anything else stays unknown |
| `WorkOrderIntents.WorkOrderController.OnRefreshed` | frontend/src/workOrders.ts:323-333 | a refresh ends the unknown state only by a match |
| `WorkOrderIntents.WorkOrderController.OnLoaded` | frontend/src/workOrders.ts:419-431 | the three loads: opening, reload after uncertain, confirmed adoption |
| `WorkOrderIntents.ResendsAreIdentical` | frontend/src/workOrders.ts:401-411 | every send of one intent is the same request: order, revision, plan or settings, context and key |
| `WorkOrderIntents.UnknownAllowsOnlyItsOwnResend` | frontend/src/workOrders.ts:453-457 | while an intent is unknown the only possible send is that same request again |
| `WorkOrderIntents.UnknownEndsOnlyByEvidence` | frontend/src/workOrders.ts:341-367 | the unknown state ends only by a record that the match accepts or by a confirmed adoption of a conflicting one; what that means is `UnknownEndsShown` |
| `WorkOrderIntents.UnknownEndsShown` | frontend/src/workOrders.ts:341-367 | when an unknown intent ends, the client has taken over a record with the saved plan as the very next revision of its target, with its binding and context, or the activated order with the settings asked for; or, by a confirmed adoption, a record of the same order that is past the intent |
| `WorkOrderIntents.MatchIsShown` | frontend/src/workOrders.ts:341-362 | the match of a sent intent holds if and only if the record shows the outcome of that save or activation, field by field |
| `WorkOrderIntents.ShownReplyEnds` | frontend/src/workOrders.ts:372-377 | a reply that shows the outcome is taken over at once |
| `WorkOrderIntents.RefreshTakesOver` | frontend/src/workOrders.ts:323-333 | so is a current refresh that shows it |
| `WorkOrderIntents.ReloadTakesOver` | frontend/src/workOrders.ts:413-431 | so is a reload that was started for it |
| `WorkOrderIntents.OtherReplyIsUnknown` | frontend/src/workOrders.ts:372-385 | a record that does not show the outcome is not taken over and leaves the intent unknown |
| `WorkOrderIntents.FailureKeepsOrForgets` | frontend/src/workOrders.ts:378-385 | a refusal of a first send forgets the intent, with one of four statuses; any other failure keeps it, unknown |
| `WorkOrderIntents.SavePins` | frontend/src/workOrders.ts:390-401 | when a save starts, exactly, and what it pins and sends: the edited plan, the shown order and its revision, the fresh key, the binding carried along |
| `WorkOrderIntents.ActivationPins` | frontend/src/workOrders.ts:433-441 | when an activation starts, exactly, and what it pins and sends: the shown draft at its revision with the given settings |
| `WorkOrderIntents.ContextCompletes` | frontend/src/workOrders.ts:402-411 | a prepared context adds only the context to what was pinned, and that is sent; a failed or late one sends nothing |
| `WorkOrderLaws.LoadEndsAs` | frontend/src/workOrders.ts:419-431 | what each load leads to: an opened order is taken over, a reload if it shows the outcome and shown beside it otherwise, an adoption if it is a conflict |
| `WorkOrderLaws.RefreshEndsAs` | frontend/src/workOrders.ts:316-338 | what a refresh leads to: taken over if it shows the outcome or nothing stands against it, shown beside edits and unknown intents otherwise |
| `WorkOrderLaws.RecoveryLoads` | frontend/src/workOrders.ts:413-461 | when an unknown intent's order is read again, and when a conflict may be adopted |
| `WorkOrderLaws.OpenLoads` | frontend/src/workOrders.ts:287-291 | when another order is opened |
| `WorkOrderLaws.EditsMark` | frontend/src/workOrders.ts:263-281 | editing and rebinding change the draft and its marks only, and when |
| `WorkOrderLaws.StartsOver` | frontend/src/workOrders.ts:281-286 | discarding goes back to the shown order or empties the draft; a fresh draft forgets it |
| `WorkOrderIntents.RetryResends` | frontend/src/workOrders.ts:453-457 | an unknown intent can be repeated from an idle client: the newest request goes out once more |
| `WorkOrderIntents.OneIntentOneEffect` | frontend/src/workOrders.ts:399-411 | one intent changes a compare-and-set, key-idempotent server at most once, however often and late its requests arrive |
| `PlanOrder.Eliminate` | frontend/src/workOrders.ts:101-103 | one round extends a dependency-respecting order, and progresses exactly when a task is ready |
| `PlanOrder.StuckMeansNoOrder` | frontend/src/workOrders.ts:100-102 | a round without a ready task while one is missing means that no order of the tasks exists |
| `PlanOrder.HasCycle` | frontend/src/workOrders.ts:99-104 | the loop ends and reports a cycle exactly when no topological order exists |
| `PlanOrder.ValidatePlan` | frontend/src/workOrders.ts:83-106 | a plan is accepted if and only if it is well formed and has an order; a cycle is reported if and only if it is well formed and has none; every other verdict is given exactly for the first thing wrong, in the order title, number, ids, tasks, size |
| `VerificationReview.VerificationReviewController.Accept` | frontend/src/verificationReview.ts:79-86 | takes over a reply exactly when it is valid in scope and does not contradict what was seen of the same review |
| `VerificationReview.VerificationReviewController.SettleProof` | frontend/src/verificationReview.ts:48-53 | known terminal evidence clears both uncertainties, and the intent when nothing is in flight |
| `VerificationReview.VerificationReviewController.Prepare` | frontend/src/verificationReview.ts:87-98 | sends a prepare only from an idle, known, empty state |
| `VerificationReview.VerificationReviewController.Decide` | frontend/src/verificationReview.ts:102-111 | sends a decision only for the shown pending review and plan, an approve only with the pinned signature |
| `VerificationReview.VerificationReviewController.Dispatch` | frontend/src/verificationReview.ts:112-113 | fences reads, disarms and pins the intent |
| `VerificationReview.VerificationReviewController.FinishDispatch` | frontend/src/verificationReview.ts:114-139 | everything an acknowledgement, a rejected one or a lost one leads to |
| `VerificationReview.VerificationReviewController.Recover` | frontend/src/verificationReview.ts:145-149 | reads the pinned intent, or the shown review |
| `VerificationReview.VerificationReviewController.FinishRead` | frontend/src/verificationReview.ts:164-178 | a fenced, closed or contradicting read changes nothing; else it is taken over and may settle |
| `VerificationReview.VerificationReviewController.StartControl` | frontend/src/verificationReview.ts:179-195 | cancel and reconcile under their own guards |
| `VerificationReview.VerificationReviewController.FinishControl` | frontend/src/verificationReview.ts:196-206 | a control reply settles only by a settled state of the same review |
| `VerificationSafety.EventKeeps` | frontend/src/verificationReview.ts:79-208 | every user act, server change, served call and delivered or lost reply keeps the invariant |
| `VerificationSafety.SendIsNew` | frontend/src/verificationReview.ts:102-111 | corollary of the guard and the invariant: an approve is sent only for a review shown pending that was never approved before |
| `VerificationSafety.OneApprovePerReview` | frontend/src/verificationReview.ts:102-139 | over every sequence of events at most one approve is sent per review id |
| `VerificationSafety.LostDecisionLocks` | frontend/src/verificationReview.ts:30-31 | corollary of the guards: while a decision is lost, deciding, preparing, retrying, selecting, discarding and reading another review leave everything as it is |
| `VerificationSafety.LostDecisionEndsOnlyByProof` | frontend/src/verificationReview.ts:48-53 | a lost decision stays pinned until a delivered reply shows a known terminal state of the same review, source and plan, backed by the server |
| `VerificationLaws.DecisionLeavesIff` | frontend/src/verificationReview.ts:102-113 | a decision leaves if and only if the shown review is open, under the shown plan, confirmed, with nothing running or doubtful, and for an approval granted and armed for what is shown; it says the same verdict, review and plan |
| `VerificationLaws.ApprovesWereDecided` | frontend/src/verificationReview.ts:102-113 | over every run each approve request was such a decision of the user for that review |
| `VerificationLaws.OnlyDecidingDecides` | frontend/src/verificationReview.ts:87-113 | no other act sends a decision |
| `VerificationLaws.PrepareLeavesIff` | frontend/src/verificationReview.ts:87-98 | when a prepare leaves, exactly, and what it says |
| `VerificationLaws.RetryLeavesIff` | frontend/src/verificationReview.ts:140-144 | a lost prepare is repeated on confirmation only, unchanged |
| `VerificationLaws.ArmingSigns` | frontend/src/verificationReview.ts:99-101 | arming signs exactly what is shown, while it is open and confirmed |
| `VerificationLaws.AnsweredMeans` | frontend/src/verificationReview.ts:79-86 | which replies answer a request, field by field: the same review, consistent with what was shown, with the verdict that was asked for |
| `VerificationLaws.AnswerIsTaken` | frontend/src/verificationReview.ts:114-139 | such a reply is shown, its outcome known unless doubtful, and a first prepare that comes back open arms it |
| `VerificationLaws.OtherAnswerIsUnknown` | frontend/src/verificationReview.ts:114-139 | any other reply, or none, leaves what is shown, and the outcome unknown unless that is final |
| `VerificationLaws.RecoverReads` | frontend/src/verificationReview.ts:145-149 | what recovering asks for, and when |
| `VerificationLaws.ReadIsTaken` | frontend/src/verificationReview.ts:164-178 | which replies a read takes over, and what they settle |
| `VerificationLaws.OtherReadOnlyEnds` | frontend/src/verificationReview.ts:164-178 | any other reply, or none, only ends the read |
| `VerificationLaws.SteerLeavesIff` | frontend/src/verificationReview.ts:179-195 | when a cancel or reconcile leaves, exactly, and that it is about the shown review |
| `VerificationLaws.ControlIsTaken` | frontend/src/verificationReview.ts:196-206 | a reply past running is shown and settles everything if it is final |
| `VerificationLaws.OtherControlIsUnknown` | frontend/src/verificationReview.ts:196-206 | any other reply, or none, leaves what is shown and the outcome of the control unknown |
| `VerificationLaws.SelectionEmpties` | frontend/src/verificationReview.ts:63-78 | another run, another source or discarding empties what is shown, only while nothing runs or is doubtful |
| `VerificationLaws.ClosingEnds` | frontend/src/verificationReview.ts:241-247 | closing succeeds if and only if nothing runs and every doubt was acknowledged, and a waiting one resumes as soon as nothing runs |
| `InverseReview.InverseReviewController.PrepareReview` | frontend/src/inverseReview.ts:70-82 | sends a prepare only from an idle, known, empty state |
| `InverseReview.InverseReviewController.Decide` | frontend/src/inverseReview.ts:92-100 | sends a decision only for the shown pending review and patch, an approve only with the pinned signature |
| `InverseReview.InverseReviewController.StartReconcile` | frontend/src/inverseReview.ts:154-160 | reconciles an unknown shown state, remembering the intent it found |
| `InverseReview.InverseReviewController.FinishDispatch` | frontend/src/inverseReview.ts:101-119 | what each reply leads to, and that a reconcile gives the original intent back while the outcome stays unknown |
| `InverseReview.InverseReviewController.Recover` | frontend/src/inverseReview.ts:127-132 | reads the pinned intent, or the shown review |
| `InverseReview.InverseReviewController.FinishRead` | frontend/src/inverseReview.ts:141-153 | a read settles a recovered decision only by a terminal state |
| `InverseSafety.EventKeeps` | frontend/src/inverseReview.ts:50-179 | every user act, server change, served call and delivered or lost reply keeps the invariant |
| `InverseSafety.OneApprovePerReview` | frontend/src/inverseReview.ts:92-119 | over every sequence of events at most one approve is sent per review id |
| `InverseSafety.LostDecisionLocks` | frontend/src/inverseReview.ts:41-42 | corollary of the guards: while a decision is lost, also during a reconcile, deciding, preparing, retrying, selecting, discarding and reading another review leave everything as it is |
| `InverseSafety.LostDecisionEndsOnlyByProof` | frontend/src/inverseReview.ts:145-163 | a lost decision stays the one owed, across lost and unsettled reconciles, until a terminal state of the same review, source and patch is delivered, backed by the server |
| `InverseLaws.DecisionLeavesIff` | frontend/src/inverseReview.ts:92-100 | a decision leaves if and only if the shown review is open, with the shown patch, confirmed, with nothing running or unknown, and for an approval granted and armed for what is shown; it says the same verdict, review and patch |
| `InverseLaws.ApprovesWereDecided` | frontend/src/inverseReview.ts:92-119 | over every run each approve request was such a decision of the user for that review |
| `InverseLaws.PrepareLeavesIff` | frontend/src/inverseReview.ts:70-82 | when a prepare leaves, exactly, and what it says |
| `InverseLaws.RetryLeavesIff` | frontend/src/inverseReview.ts:120-126 | a lost prepare is repeated on confirmation only, unchanged |
| `InverseLaws.ReconcileLeavesIff` | frontend/src/inverseReview.ts:154-160 | when a reconcile leaves, exactly, and that it remembers the intent it found |
| `InverseLaws.AnswerIsTaken` | frontend/src/inverseReview.ts:101-119 | which replies answer a request; such a one is shown, a first prepare that comes back open arms it, and a doubtful reconcile gives the intent it found back |
| `InverseLaws.OtherAnswerIsUnknown` | frontend/src/inverseReview.ts:101-119 | any other reply, or none, leaves what is shown, and the outcome unknown |
| `InverseLaws.ReadsAskFor` | frontend/src/inverseReview.ts:127-140 | what recovering and reading another review ask for, and when |
| `InverseLaws.ReadEndsAs` | frontend/src/inverseReview.ts:141-153 | which replies a read takes over, and what they settle |
| `InverseLaws.SelectionEmpties` | frontend/src/inverseReview.ts:56-87 | another source or discarding empties what is shown, only while nothing runs or is doubtful |
| `InverseLaws.ClosingEnds` | frontend/src/inverseReview.ts:172-178 | closing succeeds if and only if nothing runs and every doubt was acknowledged, and a waiting one resumes as soon as nothing runs |
| `EventLog.MergeEvents` | frontend/src/runtime.ts:15-19 | filling a map and sorting its values equals inserting every item in its place |
| `EventLog.SortBySequence` | frontend/src/runtime.ts:18-18 | lists the map's values in the strict order of their numbers |
| `EventLog.ListsUnique` | frontend/src/runtime.ts:15-19 | there is only one such list, so the result does not depend on how it is sorted |
| `EventLog.MergeStretch` | frontend/src/runtime.ts:15-19 | merging a stretch of the log that starts inside what is held gives the longer prefix of the log |
| `EventLog.AfterIsSuffix` | src/doppel_agent/persistence/events.py:43-52 | in an ascending log, reading after a number drops exactly the prefix up to that number |
| `RunEvents.RunController.Select` | frontend/src/runController.ts:25-33 | a new epoch with an empty list and a first refresh |
| `RunEvents.RunController.Refresh` | frontend/src/runController.ts:34-40 | at most one refresh per epoch, from the last number shown |
| `RunEvents.RunController.FinishRefresh` | frontend/src/runController.ts:41-50 | only a current refresh of the right owner merges its own rows, stops or connects |
| `RunEvents.RunController.Connect` | frontend/src/runController.ts:51-55 | a stream from the last number shown |
| `RunEvents.RunController.Receive` | frontend/src/runController.ts:55-59 | only a current, unaborted stream's row of the run is merged |
| `RunEvents.EventKeeps` | frontend/src/runController.ts:25-66 | every append, poll, stream row, loss and selection keeps: the list is a prefix of the run's log, and every current request starts inside it |
| `RunEvents.ShownIsLogPrefix` | frontend/src/runController.ts:34-66 | for all interleavings of polls and streams over all selections the list is exactly the selected run's rows up to the last number shown |
| `RunEvents.ShownOnlyGrows` | frontend/src/runController.ts:25-66 | the list of a selection never shrinks; a new selection starts it over |
| `RunEvents.CompletePageCatchesUp` | frontend/src/runController.ts:39-47 | a current refresh whose page reaches the end of the log makes the list complete |
| `RunLaws.RefreshAsks` | frontend/src/runController.ts:34-40 | a refresh asks for the selected run from the newest row shown, once per selection at a time |
| `RunLaws.SelectStartsOver` | frontend/src/runController.ts:25-33 | a selection starts over with an empty list, no stream and a first refresh of the run |
| `RunLaws.RefreshEndsAs` | frontend/src/runController.ts:41-55 | what a refresh takes over, when it ends or opens a stream, and from where |
| `RunLaws.RowIsTaken` | frontend/src/runController.ts:55-59 | a row of the current stream is merged and asks for a refresh; any other is dropped |
| `RunLaws.SelectCatchesUp` | frontend/src/runController.ts:25-55 | selecting a run and letting its first refresh through shows the whole log of the run, and opens a stream from its end if it is active |
| `RunLaws.StreamKeepsUp` | frontend/src/runController.ts:55-59 | from then on each next row of the log, delivered by that stream, keeps the list complete |
| `ReplyRows.ChangeRow` | frontend/src/replyStream.ts:56-79 | find, push when missing, update in place: exactly one row changes |
| `ReplyRows.CapOnce` | frontend/src/replyStream.ts:65-65 | capping after every delta is capping the whole text once |
| `ReplyRows.RowsTell` | frontend/src/replyStream.ts:55-80 | one row per text call and tool call, in order of first appearance; a text row says everything since its last complete turn, capped once, with the phase of that turn; a tool row keeps the name of its first event and has the last reported outcome |
| `ReplyStream.NativeReplyStream.Receive` | frontend/src/replyStream.ts:49-80 | rows of another run, unsafe numbers and numbers not past the cursor are dropped; else cursor and rows advance |
| `ReplyStream.NativeReplyStream.ReceiveAll` | frontend/src/replyStream.ts:86-86 | a page is received row by row |
| `ReplyStream.NativeReplyStream.Follow` | frontend/src/replyStream.ts:31-48 | what a switch of conversation or run clears and stops, and which requests start |
| `ReplyStream.NativeReplyStream.Restore` | frontend/src/replyStream.ts:90-97 | skips loaded and loading histories and asks for the first other |
| `ReplyStream.NativeReplyStream.FinishPage` | frontend/src/replyStream.ts:84-109 | a page of a stale epoch is ignored; else it is received and the replay goes on, ends, or opens the stream |
| `ReplyStream.EventKeeps` | frontend/src/replyStream.ts:31-117 | every event keeps: each run's list is built from its log up to its cursor, and every valid request starts no later than that cursor |
| `ReplyStream.ActivitiesFollowLog` | frontend/src/replyStream.ts:31-117 | whatever mix of history replay, live replay and streaming, over restarts and conversation switches, delivered it: a run's rows are the fold of its log up to its cursor, and say what that log says |
| `ReplyStream.CursorsOnlyAdvance` | frontend/src/replyStream.ts:49-51 | within one conversation no cursor goes back |
| `ReplyStream.Replay` | frontend/src/replyStream.ts:81-89 | the paging loop over any finite log ends with the whole log received |
| `ReplyLaws.FollowDoes` | frontend/src/replyStream.ts:31-48 | what following clears, cuts and asks for, exactly: everything on another conversation, the stream alone on another run |
| `ReplyLaws.RestoresFirst` | frontend/src/replyStream.ts:90-97 | restoring asks for the first history neither loaded nor loading, from where it was received to, and keeps the ids behind it |
| `ReplyLaws.PageDoes` | frontend/src/replyStream.ts:84-110 | a page of a wanted replay is received; when the next is asked for, a history is remembered, or a stream opened from where it got to |
| `ReplyLaws.FailureDoes` | frontend/src/replyStream.ts:84-116 | a failed replay gives its history up or may be tried again; an unwanted one changes nothing |
| `ReplyLaws.RowIsReceived` | frontend/src/replyStream.ts:49-54 | a row is received if and only if it is of the run, has a safe number and is past what was received |
| `ReplyLaws.StreamDoes` | frontend/src/replyStream.ts:110-119 | streamed rows count while their stream is current; disposal cuts it and fences everything under way |
| `EventStream.DecodeSseBlocks` | frontend/src/api.ts:20-31 | the loop over blocks emits exactly the non-empty joined data of each block, and returns the unfinished part |
| `EventStream.DataLineMeans` | frontend/src/api.ts:26-27 | which lines are data |
| `EventStream.TrimDropsSpaces` | frontend/src/api.ts:27-27 | exactly the leading white space of a value is dropped |
| `EventStream.SpacesAre` | frontend/src/api.ts:27-27 | which characters are white space, by code point |
| `EventStream.JoinKeepsLines` | frontend/src/api.ts:27-27 | joining the values loses no line: split again, they are all there in order |
| `EventStream.StreamEvents` | frontend/src/api.ts:46-55 | the buffering loop emits the items of feeding the chunks one by one |
| `EventStream.ChunkIndependence` | frontend/src/api.ts:47-54 | for every stream without CR CR LF and every cutting of it, blocks and rest are those of decoding it at once |
| `EventStream.CutAfterCrCrlfDiffers` | frontend/src/api.ts:21-21 | with CR CR LF, cutting right after it always gives a different result: the leftover CR LF is normalized a second time |
| `EventStream.IndependentIff` | frontend/src/api.ts:20-31 | all cuttings of a stream agree if and only if it has no CR CR LF |
| `EventStream.BlocksAreDispatches` | frontend/src/api.ts:22-29 | splitting into blocks finds exactly what a line-by-line reader dispatches |
| `EventStream.StreamIsLineReader` | frontend/src/api.ts:46-55 | however the stream is cut, the emitted items are those of the line-by-line reader |
| `EventStream.EncodeDecodeRoundTrip` | src/doppel_agent/api/sse.py:13-18 | what the server encodes is what the client reads, for every cutting: every JSON text in order, nothing left over |
| `Decimals.ReadBack` | src/doppel_agent/billing_tariff.py:177-182 | what is printed is canonical, reads back as the same number, and fits the grammar exactly when the number is small enough |
| `Decimals.PrintBack` | frontend/src/providerCost.ts:84-88 | printing what was read gives the text back |
| `Decimals.PyAmountRenders` | src/doppel_agent/billing_tariff.py:177-182 | the divmod printer drops and keeps exactly the last fourteen digits |
| `Decimals.AmountReadsPrint` | frontend/src/providerCost.ts:84-88 | the TypeScript reader applied to the Python printer is the identity below 10^44 and refuses everything else |
| `Decimals.AmountPrintsRead` | frontend/src/providerCost.ts:84-88 | every accepted amount text is the printed one of its number: one text per number |
| `Decimals.CanonicalRateKept` | src/doppel_agent/billing_tariff.py:46-51 | the canonical rate keeps the coefficient, is read by the TypeScript grammar as that coefficient, and is its own canonical form |
| `Decimals.SameRateIff` | src/doppel_agent/billing_tariff.py:172-174 | two rates have the same canonical text if and only if their coefficients are equal |
| `Decimals.CoefficientBound` | frontend/src/providerCost.ts:58-62 | every coefficient is below 10^17 |
| `Decimals.CoefficientHasText` | src/doppel_agent/billing_tariff.py:46-51 | every coefficient below 10^17 has a text that both sides read as that coefficient and that is its own canonical form |
| `Decimals.CanonicalRatesAreRead` | frontend/src/providerCost.ts:58-62 | the TypeScript side reads exactly the texts that the Python side leaves as they are |
| `Pricing.SidesAgreeOnRates` | frontend/src/providerCost.ts:58-62 | both languages read every frozen rate as the same coefficient |
| `Pricing.PriceIsLinear` | src/doppel_agent/billing_tariff.py:206-216 | in either billing basis a sum of tokens costs the sum of the prices |
| `Pricing.EstimateReads` | src/doppel_agent/billing_tariff.py:206-216 | one unit's estimate, printed and read again, is its exact price |
| `Pricing.Subtotal` | src/doppel_agent/reporting/provider_cost.py:63-125 | the aggregation loop over printed estimates gives the row of the price of the summed tokens |
| `Pricing.AggregateIsAccepted` | frontend/src/providerCost.ts:89-105 | every row aggregated from up to 5000 observed units is accepted: no grammar is too narrow and the amount check holds |
| `Pricing.TotalsAreColumns` | src/doppel_agent/reporting/provider_cost.py:63-125 | the counters of an aggregate are columns of its units |
| `Pricing.PriceIsOfUnits` | src/doppel_agent/billing_tariff.py:206-216 | the price of an aggregate is the sum of what its units cost at the rates of the basis |
| `Pricing.AcceptsMeans` | frontend/src/providerCost.ts:89-107 | the check of a currency row, field by field |
| `Pricing.ConservedAddsUp` | frontend/src/providerCost.ts:133-147 | conserved columns: every count and token column of the target is the sum of its parts, and a missing one is missing in every part |
| `Pricing.AmountFollowsFromColumns` | frontend/src/providerCost.ts:133-147 | once target and parts are accepted under one tariff, conserved token columns imply the amount equation |
| `Pricing.GroupsAreConserved` | frontend/src/providerCost.ts:133-147 | however up to 5000 units are grouped, the honest rows are accepted and conserve every column and the amount |
| `Pricing.FrozenRatesAreConserved` | frontend/src/providerCost.ts:89-147 | from frozen rates on: rows aggregated under the coefficients that Python reads are accepted and conserved under the coefficients that TypeScript reads, however the units are grouped |
| `Subtotals.SumReceipts` | src/doppel_agent/reporting/provider_usage.py:29-40 | the reported subtotal of any receipts, with tokens hidden behind the overflow flag |
| `Subtotals.CountersAreColumns` | src/doppel_agent/reporting/provider_usage.py:29-40 | the six counters are columns of the receipts: with and without usage, requests, logical calls, and the tokens of those with usage |
| `Subtotals.ReportTells` | src/doppel_agent/reporting/provider_usage.py:29-40 | tokens are reported exactly if some usage is known and their sum is a safe integer, and the flag exactly if it is not |
| `Subtotals.AcceptableMeans` | frontend/src/providerReport.ts:61-71 | the check of one subtotal, field by field |
| `Subtotals.ObservedMeans` | frontend/src/providerReport.ts:134-146 | the check of sampled rows against a subtotal, field by field |
| `Subtotals.HonestReportsPass` | frontend/src/providerReport.ts:61-84 | honest summation of any receipts over any scopes always passes both checks |
| `Subtotals.OnlyTheHonestTotalPasses` | frontend/src/providerReport.ts:72-84 | against honest parts a total passes if and only if it is the honest one, also when parts overflow |
| `Subtotals.AcceptedWithoutOverflowIsExact` | frontend/src/providerReport.ts:72-84 | corollary of the two checks: an accepted total without the flag has no overflowed part and is the exact safe sum of its parts |
| `Subtotals.ScopesPartition` | frontend/src/providerReport.ts:181-195 | root, children and other children add up to all receipts |
| `Subtotals.SamplesPass` | frontend/src/providerReport.ts:134-146 | any sampled sub-list of honestly summed receipts passes; called complete it passes if and only if no known receipt is missing (unsettled units may be), and as a complete compatibility list if and only if no unknown one is missing either |
| `Subtotals.ScopedSamplesPass` | frontend/src/providerReport.ts:225-236 | one sample filtered by scope passes against the subtotal of each scope |
| `Subtotals.CompleteListIsExact` | frontend/src/providerReport.ts:134-146 | corollary of the two checks: an acceptable subtotal that passes against a complete list shows exactly its known count, tokens and flag |
| `WorkOrderIntents.WorkOrderController.Fail` | frontend/src/workOrders.ts:378-383 | a refusal of a first send clears the intent; any other failure of a sent one makes it unknown |
| `ReplyStream.NativeReplyStream.Switch` | frontend/src/replyStream.ts:33-37 | another conversation clears everything that was received |
| `ReplyStream.NativeReplyStream.Unload` | frontend/src/replyStream.ts:97-100 | a completely replayed history is remembered; the next id follows |

## Left out

- AgentLoop.AgentLoop.Run: observes at most `horizon` model turns, because a loop without a step budget need not end; the bound is arbitrary in every theorem. Cancellation checks, the event bus and the wording of the prompts are not modelled.
- RunMatrix.UsageProvider.NextTurn: exceptions are modelled as outcomes; the USD mode of `execute_runs`, wall clocks and the descriptive fields of a record are left out.
- RunMatrix.ResultStore.Save: file system faults other than an existing file are not modelled; publication is one atomic step.
- BudgetLedger.CnyBudgetLedger.constructor: the configuration identity row of the database is not modelled; amounts are micro-CNY integers, and the printed form of a `Decimal` is left out.
- WorkOrderIntents.WorkOrderController.Select: restoring the saved selection at start (`initialize`), list paging, plan history and queue snapshots are left out; the writer of the remembered selection is `SelectionWrites`.
- ExecuteRuns.ExecuteRuns: runs without interference between its own steps; interleavings with other processes are those of the step system, to which all its steps belong.
- SelectionWrites.SelectionWriter.FlushReturns: the two loops that await a stable tail are one guard here, that the queue is empty and idle.
- VerificationReview.VerificationReviewController.LoadHistory: history pages are one read that changes no evidence; paging and cursors are left out. `effectEpoch`, error texts and the presentation copies are left out in both review controllers.
- InverseReview.InverseReviewController.FinishDispatch: the end of `reconcile` follows its dispatch without a gap; nothing can be sent in between.
- Shape checks of replies (key lists, identifier patterns, plan and step framing) are flat field tests: replies are values of the datatypes here, and a refused shape is a lost reply.
- RunEvents.RunController.FinishRefresh: a wrong owner is one outcome of the reply; `action`, `cancel` and `decide` only add refreshes, which may happen at any time anyway.
- ReplyStream.NativeReplyStream.Receive: the live-only fields (streaming text, streaming call id, budget notice) are left out; which event types carry which public content is fixed before an event enters the log, and text is cut in characters of the model rather than UTF-16 units.
- EventStream.DecodeSseBlocks: `JSON.parse` is left out: an item is the data text it is given; chunks are decoded text.
- EventStream.EncodeDecodeRoundTrip: assumes, as `json.dumps` and the event types guarantee, that the encoded texts hold no line ends.
- Pricing.Subtotal: rows of unpriced units and their reasons, currency names and tariff hashes are left out; hashes are only compared for equality in the source.
- Subtotals.HonestReportsPass: the journal linking that selects the receipts, the row counters and the order of samples in a report are flat comparisons and left out.
- `childReview.ts`, `extensions.ts`, `runReport.ts`, `modelSettingsLifetime.ts`, `conversations.py`, `desktop.py` and `mcp_bridge.py` are simpler single-flight or library lifetime code and are not part of this model.
