# SupportAgent: verified models

Dafny models of the parts of SupportAgent whose correctness spans several
functions, several requests or a whole history, with proofs about all inputs and
all schedules. `dafny verify dfyconfig.toml` checks the project.

What is modelled, and where:

- **Idempotent tool calls.** `CalendarIdentity`, `IdempotencyTable`, `McpCall`,
  `McpProtocol`, `McpTheorems`, `CalendarActions` (which calls are the same action, argument
  by argument). Any number of concurrent calls share one record
  table; each database statement, the send, the tool's outcome and a crash are
  atomic steps. The tool server may act on a message late, repeatedly or never.
- **Claims and reviews.** `ClaimRules` (status table, document rules),
  `ClaimStore` (each service call as a transaction on all tables), `ClaimHistory`
  (reading the audit trail), `ReviewGraph` (nodes, edges, recorded steps),
  `ClaimInvariants` and `ReviewRuns` (what each
  transaction keeps), `ReviewSystem` and `ReviewTheorems` (requests interleaved
  with background executors that can raise or die anywhere), `ClaimTheorems`,
  `ActionAudit`, `ReviewProgress` and `ReviewEvidence` (the guarantees), `DocumentNeeds`
  and `ClaimEffects` (which documents a claim needs and what each call does, in terms of
  the tables alone), `ClaimService` (the service as a class that updates its tables in
  place, every method proved against its transaction), `ReviewExecution` and
  `ReviewWorkflow` (the executor's nodes as calls on that class).
- **Approvals under concurrency.** `ActionDesk` holds the decision itself and the
  schedules of deciders around the row lock.
- **Conversations.** `Conversations`, `ConversationPairs` (whose answer an edit or a
  delete removes), `ConversationStore`.
- **Cursor pagination.** `Pagination`.
- **Page text and chunks.** `HtmlText`, `HtmlNormalForm` (exactly which texts become
  normal), `HtmlGaps` (what each run of whitespace becomes), `Chunking`: the normal form of the first is what the last builds on.
- **Evaluation arithmetic.** `Percentile`, `Pricing`, `Benchmark`,
  `BenchmarkFigures` (what each figure means), `BenchmarkTheorems`, `ReviewGate`, with `Ratios` for quotients of counters.

`Results` holds the shared option and result types, `Collections` two facts about
finite collections.

Assumptions, all visible in the models:

- Each claim service call is one serialised transaction whose outcome is known.
  `fetch_claim` takes no row lock, so this is an assumption about the deployment;
  only the action decision, which does lock, is modelled statement by statement.
- Each conversation call is one serialised transaction too. Two concurrent deletes that
  both pick the same answer could otherwise leave an answer without a question; saves
  may still take interleaved ids.
- Rows are created in the order of their ids and timestamps.
- The JSON encoding and SHA-256 digest in the calendar key are an arbitrary
  function; collision freedom is a hypothesis of the lemmas that need it.
- `str()`, `strip()`, `casefold()` and `upper()` are arbitrary functions; `strip()`
  in page text removes at least spaces, tabs and newlines.
- "Succeeded" for a tool call means that `call_tool` returned without raising; an
  HTTP error of the calendar can be such a return.
- A call handler that raises outside its `try` (while merging credentials, or in the
  bookkeeping after the tool returned) is a crash of that call at that point.
- Arithmetic of the evaluation suites is exact, without floating-point rounding.

Where the code does less than its names suggest, the model follows the code; a lemma
gives the input and another says exactly when the expectation holds:

- an edit or a delete can remove another question's answer
  (`SecondEditTakesTheNextTurnsAnswer`, `OverlappingSavesMislead`;
  `TakesItsOwnAnswerIff`, `NextMessageTellsIff`);
- the records alone do not prevent duplicate events
  (`RetryDuplicatesWithoutDeduplication`; `OneEventPerActionIffDeduplicated`);
- a 409 can answer a free key (`BusyAnswerOnFreeKey`; `BusyAnswerOnFreeKeyIff`,
  `RecordWasReleased`);
- a review whose executor dies is never finished or started again
  (`LostExecutorBlocksItsClaim`);
- EXPERT_REVIEW_REQUIRED is never left (`DecidedStatusIsFinal`), and a claim with an
  unknown product line is never decided (`DecisionIsReachableIffProductIsKnown`);
- a tab beside a line break spoils the normal form (`TabAtLineEndSurvives`; `NormalIff`,
  `IdempotentIff`);
- chunks can lose whitespace other than spaces and newlines (`NoBreakSpaceIsLost`;
  `ChunksRebuildThePageIff`, `IngestedPageIsRebuiltIff`);
- repeated case ids can put the stability rate above the pass rate
  (`RepeatedIdsBreakTheOrder`; `OrderHoldsIffIdsEquallyOften`).

## Model

| member | source | states |
|---|---|---|
| `McpProtocol.EverySchedule` | src/backend/supportagent/api/mcp.py:277-362 | In every schedule of arrivals, statements, tool outcomes, late deliveries and crashes: at most one call per user, server, tool and key is between "execute" and settling, its record is in progress meanwhile, every record has its call behind it, every replayed answer is the stored text, and every calendar message carries the key of its own action. |
| `McpProtocol.NextKeepsRecordsSound` | src/backend/supportagent/mcp_client/store.py:167-230 | One statement of any call, on any state that satisfies the record invariant, keeps it: exclusion, a single writer per key, no orphan record, true replays. |
| `McpProtocol.NextKeepsCalendarSound` | src/backend/supportagent/api/mcp.py:315-327 | One step keeps every sent and accepted calendar message stamped with the transaction id of its own identity and, with deduplication, the calendar free of equal transactions. |
| `McpProtocol.AdvanceHasEffect` | src/backend/supportagent/mcp_client/store.py:167-230 | A step of one call leaves the other calls alone and does to the records one of four things: nothing, take a free key, write the result of the owner, free the owner's key. |
| `McpTheorems.SuccessIsPermanent` | src/backend/supportagent/mcp_client/store.py:201-230 | Once a record is marked succeeded, no continuation of the schedule removes it or changes its text. |
| `McpTheorems.SettlingTouchesItsOwnRecord` | src/backend/supportagent/mcp_client/store.py:201-230 | Whenever a call is about to complete or abandon, its own in-progress record is there: the unguarded UPDATE never overwrites a result and the guarded DELETE always removes the record. |
| `McpTheorems.ReplayCarriesTheOneResult` | src/backend/supportagent/mcp_client/store.py:191-198 | A replayed answer is the text that exactly one call, one that executed without raising, stored under the same key. |
| `McpTheorems.DeadOwnerBlocksItsKey` | src/backend/supportagent/api/mcp.py:293-346 | A call that dies between taking and settling its key blocks it for good: in every continuation the record stays in progress, no other call executes under the key and no result is ever stored. |
| `McpTheorems.OneEventPerActionIffDeduplicated` | src/backend/supportagent/api/mcp.py:315-327 | At most one event per account and action exists in every schedule, including calls that took effect and then raised and were tried again, if and only if the calendar drops known transaction ids. |
| `McpTheorems.RetryDuplicatesWithoutDeduplication` | src/backend/supportagent/api/mcp.py:318-327 | A schedule in which an attempt takes effect, raises, is abandoned and tried again leaves two equal events when the calendar does not deduplicate. |
| `McpTheorems.EventsStay` | src/backend/supportagent/api/mcp.py:315-317 | Sent messages and events are only ever added; none is lost or changed in any continuation. |
| `McpTheorems.DifferentActionsAreNotMerged` | src/backend/supportagent/api/mcp.py:43-56 | With a collision-free digest, a message for an action the account does not hold yet is always added: deduplication never swallows a different action. |
| `McpTheorems.BusyAnswerOnFreeKey` | src/backend/supportagent/mcp_client/store.py:188-198 | The insert and the read are two statements: a schedule exists in which a call loses the insert, the owner gives the key back, and the call is answered 409 although nobody holds the key. |
| `McpTheorems.BusyAnswerOnFreeKeyIff` | src/backend/supportagent/mcp_client/store.py:188-198 | In every reachable world a call that lost its insert is answered 409 while nobody holds the key if and only if the record is gone when it reads. |
| `McpTheorems.RecordWasReleased` | src/backend/supportagent/mcp_client/store.py:217-230 | If the record is gone then, an abandon by the raised call that owned it removed it after the lost insert; nothing else can. |
| `IdempotencyTable.RecordStore.TryInsert` | src/backend/supportagent/mcp_client/store.py:175-189 | The insert takes the key exactly when it is free and otherwise changes nothing. |
| `IdempotencyTable.RecordStore.Lookup` | src/backend/supportagent/mcp_client/store.py:191-198 | The read after a lost insert: the stored text of a succeeded record, otherwise "in progress", also when the row is gone. |
| `IdempotencyTable.RecordStore.MarkSucceeded` | src/backend/supportagent/mcp_client/store.py:201-214 | The update stores status and result whatever the old status, and never creates a row. |
| `IdempotencyTable.RecordStore.Release` | src/backend/supportagent/mcp_client/store.py:217-230 | The delete removes the row only while it is in progress, and touches no other row. |
| `IdempotencyTable.InsertThenAbandon` | src/backend/supportagent/mcp_client/store.py:175-230 | Abandoning a key just taken restores the table exactly; taking a key that is there changes nothing. |
| `McpCall.HandleCall` | src/backend/supportagent/api/mcp.py:277-362 | The request handler with its statements in order, against the function of table, request and tool outcome that the lemmas below are about: response, outgoing request and new table. |
| `McpCall.RepeatedCallReplays` | src/backend/supportagent/api/mcp.py:293-307 | After a calendar call that succeeded, the same action with any caller-supplied transaction id and any credentials is answered from the record, sends nothing and leaves the table as it is. |
| `McpCall.FailedCallCanBeRetried` | src/backend/supportagent/api/mcp.py:319-327 | A call whose tool raised leaves the table as it was, so the same action can be executed again. |
| `McpCall.HandlerIsASchedule` | src/backend/supportagent/api/mcp.py:277-362 | One handler left alone is a schedule of the concurrent protocol: same table, same answer, same outgoing message, in every branch. |
| `CalendarIdentity.CallerTransactionIdIsIgnored` | src/backend/supportagent/api/mcp.py:43-56 | The key does not depend on the transaction id the caller puts into the arguments. |
| `CalendarIdentity.OutgoingKeepsIdentity` | src/backend/supportagent/api/mcp.py:314-316 | Merging credentials and stamping the key changes no other argument and not the identity; the outgoing request carries the key that would be computed for it again. |
| `CalendarIdentity.KeysDistinguishActions` | src/backend/supportagent/api/mcp.py:43-56 | Two calendar writes have equal keys if and only if their identities are equal (digest taken as collision free). |
| `CalendarActions.KeyedIffCreatesEvent` | src/backend/supportagent/api/mcp.py:37-44 | A call gets a record key if and only if it goes to "teams_mcp" and one of the two create tools; the key carries user, server and tool, and its text starts with "supportagent-". |
| `CalendarActions.KeysAgreeIffSameAction` | src/backend/supportagent/api/mcp.py:43-56 | Two such calls have the same record key if and only if the user, the tool, the folded subject, the calendar id (default "default"), start, end and time zone (default "W. Europe Standard Time") agree. |
| `CalendarActions.ReplayedIffSameAction` | src/backend/supportagent/api/mcp.py:277-362 | After a user's first calendar write succeeded, the next write is answered from its record, and not sent, if and only if the same user repeats those arguments; any other write is sent. |
| `CalendarActions.OtherCallsAreNotRecorded` | src/backend/supportagent/api/mcp.py:277-362 | A call that creates no event is sent every time and leaves the records alone; a refused call sends nothing. |
| `CalendarActions.BusyCallIsRefused` | src/backend/supportagent/api/mcp.py:302-312 | While the action's record is in progress a call answers 409 and sends nothing. |
| `CalendarActions.SentArguments` | src/backend/supportagent/api/mcp.py:314-316 | Argument by argument: the computed transaction id for a calendar write, the caller's own arguments, a stored token where the caller gave none, and nothing else. |
| `ClaimRules.MissingShrinks` | src/backend/supportagent/claims/document_rules.py:158-170 | Adding documents never makes a required document missing. |
| `ClaimRules.EnteredFrom` | src/backend/supportagent/claims/state_machine.py:4-29 | The status table read backwards: for every status, the statuses it can be entered from; DRAFT and CLOSED from none. |
| `DocumentNeeds.MissingIff` | src/backend/supportagent/claims/document_rules.py:134-170 | A type is missing if and only if the claim needs it and has no document of it whose status reads "COMPLETED": claim form and damage photo for all, cause report and repair invoice for residential water damage, accident report and repair assessment for vehicle damage. |
| `DocumentNeeds.NothingMissingIff` | src/backend/supportagent/claims/document_rules.py:158-170 | Nothing is missing if and only if the claim has a completed document of each of those types, written out type by type. |
| `ClaimServices.ClaimService.AddAuditEvent` | src/backend/supportagent/claims/store.py:247-261 | Appends one audit row and changes nothing else. |
| `ClaimServices.ClaimService.Transition` | src/backend/supportagent/claims/service.py:98-120 | Same status: nothing. Not in the table, or out of scope: refused, nothing written. Otherwise the new status and one row with the old and the new one. |
| `ClaimServices.ClaimService.Create` | src/backend/supportagent/claims/service.py:58-76 | The claim starts in DRAFT with one audit row, or a taken id is refused; the invariant of all tables is kept. |
| `ClaimServices.ClaimService.RegisterDocument` | src/backend/supportagent/claims/service.py:377-395 | Only the owner adds a document, with its audit row; the invariant is kept. |
| `ClaimServices.ClaimService.Submit` | src/backend/supportagent/claims/service.py:123-160 | The transaction of a submission: refused outside the three intake statuses, otherwise target by missing documents; the invariant is kept. |
| `ClaimServices.ClaimService.FetchLatestRun` | src/backend/supportagent/claims/store.py:341-355 | Searching the runs from the newest finds the latest run of this claim and owner, or none. |
| `ClaimServices.ClaimService.StartReviewRun` | src/backend/supportagent/claims/service.py:163-198 | The transaction of a start with all its guards; the invariant is kept. |
| `ClaimServices.ClaimService.UpdateReviewRun` | src/backend/supportagent/claims/store.py:297-322 | The row update: error always written, result and completion only when given; other rows unchanged. |
| `ClaimServices.ClaimService.RecordReviewProgress` | src/backend/supportagent/claims/service.py:211-225 | The progress transaction: run row and audit row together. |
| `ClaimServices.ClaimService.CompleteReviewRun` | src/backend/supportagent/claims/service.py:228-268 | The completion transaction: claim status, run row with result, audit rows; or refused as a whole. |
| `ClaimServices.ClaimService.FailReviewRun` | src/backend/supportagent/claims/service.py:271-301 | The failure transaction: the claim moves only if it is under review, the run is settled either way. |
| `ClaimServices.ClaimService.SelectNextStep` | src/backend/supportagent/claims/service.py:304-339 | The next-step transaction; the invariant is kept. |
| `ClaimServices.ClaimService.RecordHumanDecision` | src/backend/supportagent/claims/service.py:342-374 | The decision transaction; the invariant is kept. |
| `ClaimServices.ClaimService.CreateProposedAction` | src/backend/supportagent/claims/service.py:398-419 | The proposal transaction: the action starts in its initial status; the invariant is kept. |
| `ClaimServices.ClaimService.RecordActionDecision` | src/backend/supportagent/claims/store.py:217-244 | Writes one approval row and the action row; approved_by is set only for an approval. |
| `ClaimServices.ClaimService.DecideProposedAction` | src/backend/supportagent/claims/service.py:422-438 | The decision transaction of an action: not found, conflict, or approval row, action row and audit row together; the invariant is kept. |
| `ReviewWorkflow.EnterNode` | src/backend/supportagent/claims/review_workflow.py:57-65 | Entering a node writes its progress record and nothing else. |
| `ReviewWorkflow.LoadReview` | src/backend/supportagent/claims/review_workflow.py:77-80 | The first node loads the claim's subject and its own documents. |
| `ReviewWorkflow.CheckDocumentsPresent` | src/backend/supportagent/claims/review_workflow.py:83-96 | The second node records its step and finds what the document rules miss among the loaded documents. |
| `ReviewWorkflow.Retrieve` | src/backend/supportagent/claims/review_workflow.py:99-112 | The third node retrieves nothing for an unknown product line, and may raise otherwise; its step is on record either way. |
| `ReviewWorkflow.Verify` | src/backend/supportagent/claims/review_workflow.py:68-74 | The fourth node finds evidence sufficient if and only if the product line is known and some chunk's source is "confluence". |
| `ReviewWorkflow.Generate` | src/backend/supportagent/claims/review_workflow.py:134-153 | Generation records its step and may raise. |
| `ReviewWorkflow.PrepareFollowUp` | src/backend/supportagent/claims/review_workflow.py:156-184 | A Jira issue is proposed exactly when documents are missing; otherwise no table changes. |
| `ReviewWorkflow.Conclude` | src/backend/supportagent/claims/review_workflow.py:156-184 | With nothing missing, the last node records its step and the run is completed with no proposal. |
| `ReviewWorkflow.AbortReview` | src/backend/supportagent/claims/review_workflow.py:272-273 | The exception handler fails the run. |
| `ReviewWorkflow.ExecuteReviewRun` | src/backend/supportagent/claims/review_workflow.py:231-273 | A whole undisturbed execution: the claim ends in READY_FOR_DECISION if and only if the product line is known, retrieval returned some chunk from "confluence" and generation succeeded; the tables stay sound. |
| `ReviewExecution.ExecutionSettles` | src/backend/supportagent/claims/review_workflow.py:231-273 | For every outcome of retrieval and generation: the steps on record, the status and result of the run, the status of the claim, and that no action is proposed. |
| `ReviewExecution.ReadyForDecisionIff` | src/backend/supportagent/claims/review_workflow.py:99-153 | The three statuses an execution can leave a claim in, each with its exact condition on product line, retrieved sources and generation. |
| `ClaimEffects.SubmissionLands` | src/backend/supportagent/claims/service.py:123-160 | A submission is accepted from the owner in the three intake statuses only, and lands in READY_FOR_REVIEW if and only if every needed type has a completed document, else in DOCUMENTS_PENDING; no other claim changes. |
| `ClaimEffects.SubmissionIsAudited` | src/backend/supportagent/claims/service.py:98-160 | A submission adds a status row if the status changed, and a validation row. |
| `ClaimEffects.ClaimPastIntakeHasItsDocuments` | src/backend/supportagent/claims/document_rules.py:134-170 | In every reachable state a claim past intake has a completed document of every type it needs. |
| `ClaimEffects.StartLands` | src/backend/supportagent/claims/service.py:163-198 | A start by the owner of a ready claim without open run is accepted; claim, run row, log and both audit rows are those of a fresh running review. |
| `ClaimEffects.LatestIsNewest` | src/backend/supportagent/claims/store.py:341-355 | The latest run is the last one created for this claim and owner, and there is none only if the log has none. |
| `ClaimEffects.CompletionLands` | src/backend/supportagent/claims/service.py:228-268 | A completed review with sufficient evidence and nothing missing makes the claim READY_FOR_DECISION, any other NEEDS_INFORMATION; run row and audit rows say so. |
| `ClaimEffects.FailureLands` | src/backend/supportagent/claims/service.py:271-301 | A failed review makes the claim READY_FOR_REVIEW again; the run row keeps its result and gets the error. |
| `ClaimEffects.NextStepLands` | src/backend/supportagent/claims/service.py:304-339 | Accepted from the owner of a decision-ready claim only; requesting information leads to NEEDS_INFORMATION, escalating to EXPERT_REVIEW_REQUIRED. |
| `ClaimEffects.HumanDecisionLands` | src/backend/supportagent/claims/service.py:342-374 | Accepted from the owner of a decision-ready claim only; approving leads to APPROVED, rejecting to REJECTED. |
| `ClaimEffects.CreationLands` | src/backend/supportagent/claims/service.py:58-76 | Creation under a free id stores a draft of the owner, with its audit row. |
| `ClaimEffects.RegistrationLands` | src/backend/supportagent/claims/service.py:377-395 | A registration by the owner adds exactly that document, with its audit row. |
| `ClaimEffects.ProposalLands` | src/backend/supportagent/claims/service.py:398-419 | A proposed action waits for approval and has no approver. |
| `ClaimEffects.ActionDecisionLands` | src/backend/supportagent/claims/service.py:422-438 | Accepted from the owner on a waiting action only; approving stores APPROVED with the approver, rejecting REJECTED with none, and approval row and audit row say the same. |
| `ClaimInvariants.CreateKeepsSound` | src/backend/supportagent/claims/service.py:58-76 | Creating a claim keeps the invariant of all tables. |
| `ClaimInvariants.AddDocumentKeepsSound` | src/backend/supportagent/claims/service.py:377-395 | Registering a document keeps the invariant: documents are only added, so nothing becomes missing again. |
| `ClaimInvariants.SubmitKeepsSound` | src/backend/supportagent/claims/service.py:123-160 | A submission leaves intake only when nothing is missing, and keeps the invariant. |
| `ClaimInvariants.NextStepKeepsSound` | src/backend/supportagent/claims/service.py:304-339 | A next step keeps the invariant. |
| `ClaimInvariants.DecisionKeepsSound` | src/backend/supportagent/claims/service.py:342-374 | A human decision keeps the invariant: the one decision row matches the status and follows a good review. |
| `ClaimInvariants.ProposeActionKeepsSound` | src/backend/supportagent/claims/service.py:398-419 | A proposed action keeps the invariant. |
| `ClaimInvariants.DecideActionKeepsSound` | src/backend/supportagent/claims/service.py:422-438 | A decided action keeps the invariant. |
| `ReviewRuns.ReadyClaimHasNoOpenRun` | src/backend/supportagent/claims/service.py:172-174 | On a claim that is not under review the "already running" check never fires. |
| `ReviewRuns.StartKeepsSound` | src/backend/supportagent/claims/service.py:163-198 | Starting a review keeps the invariant: the new run is the only running one of its claim. |
| `ReviewRuns.ProgressKeepsSound` | src/backend/supportagent/claims/service.py:211-225 | Recording the next step of the order keeps the invariant and extends the recorded steps by one. |
| `ReviewRuns.CompleteKeepsSound` | src/backend/supportagent/claims/service.py:228-268 | Completing a running run with all six steps and a review that finds nothing missing is accepted and keeps the invariant. |
| `ReviewRuns.FailKeepsSound` | src/backend/supportagent/claims/service.py:271-301 | Failing a running run is accepted and keeps the invariant. |
| `ReviewRuns.FailureWrites` | src/backend/supportagent/claims/store.py:297-322 | A failed run keeps claim, owner, result and recorded steps; status, position, error and completion change together with the claim status. |
| `ReviewTheorems.EveryRunIsSound` | src/backend/supportagent/claims/review_workflow.py:263-273 | Every reachable state of the service, with user requests, executors, exceptions and silent deaths interleaved in any order, satisfies the invariant of all tables and of every executor. |
| `ReviewGraph.BothBranchesRecordTheOrder` | src/backend/supportagent/claims/review_workflow.py:187-208 | Whichever branch the evidence selects, the walk from the start along the edges has six nodes, and the steps they record are the six steps in order. |
| `ReviewTheorems.NextKeepsSound` | src/backend/supportagent/claims/review_workflow.py:187-208 | Any single step on any state that satisfies the invariant keeps it. |
| `ReviewTheorems.CompletionIsAllowed` | src/backend/supportagent/claims/service.py:236-247 | An executor that has come through the six nodes completes without refusal, on every state it can meet. |
| `ReviewTheorems.FailureIsAllowed` | src/backend/supportagent/claims/service.py:277-301 | An executor that caught an exception fails its run without refusal, on every state it can meet. |
| `ReviewTheorems.WorkKeeps` | src/backend/supportagent/claims/review_workflow.py:156-161 | Node bodies write no table: the last node never proposes an action, because nothing is missing in a review that got so far. |
| `ReviewTheorems.LiveTaskReviewsItsClaim` | src/backend/supportagent/claims/service.py:228-247 | While an executor lives, its run is running and its claim is under review. |
| `ClaimTheorems.UnderReviewIffOneRunning` | src/backend/supportagent/claims/service.py:163-198 | In every reachable state a claim is UNDER_REVIEW if and only if exactly one of its runs is RUNNING. |
| `ClaimTheorems.OnlyItsRunEndsTheReview` | src/backend/supportagent/claims/service.py:228-301 | A step that takes a claim out of review is the complete or the fail of its running run. |
| `ClaimTheorems.StatusCause` | src/backend/supportagent/claims/service.py:98-120 | Every change of a claim's status is a request on that claim out of an intake or decision status, a start out of READY_FOR_REVIEW, or the settling of its running run. |
| `ClaimTheorems.StepDisturbsOneRun` | src/backend/supportagent/claims/store.py:297-322 | A step changes at most one run row, and that only if the run is new or still running; owners and subjects of claims never change. |
| `ClaimTheorems.SettledRunIsFinal` | src/backend/supportagent/claims/store.py:297-322 | A settled run's row and recorded steps are the same in every continuation, whatever later runs of the claim do. |
| `ClaimTheorems.RecordedRun` | src/backend/supportagent/claims/review_workflow.py:187-208 | In every reachable state a run's recorded steps are a beginning of the six-step order, SUCCEEDED means all six, completed_at is set exactly when settled, a result exists exactly for SUCCEEDED, and a stored result misses no document and proposes no action. |
| `ClaimTheorems.NothingMissingPastIntake` | src/backend/supportagent/claims/document_rules.py:158-170 | In every reachable status other than DRAFT and DOCUMENTS_PENDING no required document is missing. |
| `ClaimTheorems.ResubmissionIsReady` | src/backend/supportagent/claims/service.py:123-160 | Submitting again from NEEDS_INFORMATION is accepted and always reaches READY_FOR_REVIEW. |
| `ClaimTheorems.DecidedStatusIsFinal` | src/backend/supportagent/claims/state_machine.py:4-29 | APPROVED, REJECTED and EXPERT_REVIEW_REQUIRED are never left again, although the table has edges out of them. |
| `ClaimTheorems.DecisionRestsOnReview` | src/backend/supportagent/claims/service.py:342-374 | A decided claim has exactly one decision row, of the matching kind, after a completed review of the same claim with sufficient evidence and no missing document; the run of that review belongs to the claim, SUCCEEDED and stores the same result; the product line is known. |
| `ClaimTheorems.DecisionRowMeansDecided` | src/backend/supportagent/claims/service.py:342-374 | A claim that is neither APPROVED nor REJECTED has no decision row. |
| `ReviewEvidence.EveryVerdictIsBacked` | src/backend/supportagent/claims/review_workflow.py:68-74 | In every schedule an executor's sufficient verdict and a stored sufficient result are backed by an earlier retrieval act of that very run that returned a chunk from "confluence". |
| `ReviewEvidence.SufficientMeansHandedOver` | src/backend/supportagent/claims/review_workflow.py:99-123 | An executor past its fourth node holds a sufficient verdict only if its own retrieval handed it a chunk from "confluence". |
| `ReviewEvidence.DecisionRestsOnEvidence` | src/backend/supportagent/claims/service.py:342-374 | A decided claim was decided after a completed review of it whose own retrieval returned a chunk from "confluence". |
| `ClaimTheorems.TrailYieldsTheStatus` | src/backend/supportagent/claims/service.py:98-120 | Replaying a claim's status rows from DRAFT yields its stored status, and CLOSED is never reached. |
| `ClaimTheorems.ReplayIsAChain` | src/backend/supportagent/claims/state_machine.py:4-29 | A trail that replays starts each change where the one before it ended, along an edge of the table, and has no self-loop. |
| `ClaimTheorems.ActionsAreDecidedOnce` | src/backend/supportagent/claims/service.py:422-438 | In every reachable state an action is waiting without approval row, or decided with exactly one row of its own decision; approved_by is set if and only if it is APPROVED; no execution status occurs. |
| `ActionAudit.DecisionsAreAudited` | src/backend/supportagent/claims/service.py:433-437 | In every reachable state a decided action has exactly one audit row, of its own status, and a waiting action none. |
| `ActionAudit.EveryRunIsMatched` | src/backend/supportagent/claims/service.py:422-438 | In every reachable state the audit trail and the approval rows list the same decisions for every action, in the same order. |
| `ClaimHistory.DecisionHasItsReview` | src/backend/supportagent/claims/service.py:342-374 | In a trail where decisions follow good reviews, the last decision row of a claim and a good review before it can be pointed at. |
| `ReviewProgress.DecisionIsReachableIffProductIsKnown` | src/backend/supportagent/claims/review_workflow.py:99-123 | From every reachable state, a claim that is READY_FOR_REVIEW can still reach READY_FOR_DECISION if and only if its product line is not "unknown". |
| `ReviewProgress.ReadyClaimCanBeReviewed` | src/backend/supportagent/claims/review_workflow.py:187-208 | Started under any unused run id and left alone, the executor walks the six nodes and completes: the claim becomes ready for decision when the product is known and approved chunks are retrieved. |
| `ReviewProgress.LostExecutorBlocksItsClaim` | src/backend/supportagent/claims/service.py:163-198 | An executor that dies leaves its claim stuck: in every continuation the run stays RUNNING as it was, the claim stays UNDER_REVIEW, and every start of another review is refused. |
| `ReviewProgress.RaisedReviewCanBeRetried` | src/backend/supportagent/claims/review_workflow.py:263-273 | An executor that raises, wherever it stands in any reachable state, fails its run with that error and frees its claim: it is READY_FOR_REVIEW again and its owner can start another review. |
| `ReviewProgress.SubjectsNeverChange` | src/backend/supportagent/claims/store.py:132-139 | A claim's type and product line are the same in every continuation. |
| `ActionDesk.DecisionsAreFinal` | src/backend/supportagent/claims/state_machine.py:43-50 | After one accepted decision every further decision on the action is a conflict, whichever way either goes. |
| `ActionDesk.RecordKeepsDeskSound` | src/backend/supportagent/claims/store.py:217-244 | Recording a decision on a waiting action keeps "at most one decision, matching the status" for all actions. |
| `DecisionLock.LockedDecisionsAreUnique` | src/backend/supportagent/claims/service.py:422-438 | With any number of deciders that read under FOR UPDATE and commit or roll back later, every action is decided at most once, and a decided action has exactly one audit row, of its own status, a waiting one none. |
| `DecisionLock.NextKeepsTrail` | src/backend/supportagent/claims/service.py:433-437 | Approval row and audit row are written together: with or without the lock the two list the same decisions for every action, in the same order. |
| `DecisionLock.CommitIsAtomic` | src/backend/supportagent/claims/service.py:422-438 | Under the lock, committing on the status read earlier is exactly the decision as one transaction on the current rows, refusals included. |
| `DecisionLock.DecidersGetWhatTheyAsked` | src/backend/supportagent/claims/state_machine.py:43-50 | In every locked schedule, a decider that got through finds the action as it asked: APPROVED by that actor or REJECTED without approver, with its own approval row and audit row. |
| `DecisionLock.UniqueDecisionsNeedTheLock` | src/backend/supportagent/claims/store.py:211-212 | Decisions are unique in every schedule if and only if the read takes the lock. |
| `Conversations.EveryRunIsSound` | src/backend/supportagent/memory/store.py:153-181 | Over any sequence of saves, edits and deletes, every prefix of every thread has at most as many answers as questions, every message has a thread, and a thread's owner never changes. |
| `Conversations.DeleteKeepsBalance` | src/backend/supportagent/memory/store.py:169-181 | Deleting a turn keeps the balance even when the answer it takes belongs to a later question. |
| `Conversations.EditKeepsBalance` | src/backend/supportagent/memory/store.py:153-166 | Editing a question and dropping the next answer keeps the balance. |
| `Conversations.SaveKeepsBalance` | src/backend/supportagent/memory/service.py:123-130 | Saving a question and its answer, at any two free ids in order, keeps the balance. |
| `Conversations.CallsStayInTheirThread` | src/backend/supportagent/memory/store.py:110-181 | A call changes or adds messages only in the thread it names and only for its owner; an edit or a delete removes at most one answer, and nothing else but a deleted question; of the messages that stay only the edited question changes, and only its content. |
| `ConversationPairs.TakesItsOwnAnswerIff` | src/backend/supportagent/memory/store.py:128-181 | After any sequence of calls whose saves in a thread do not overlap, the answer an edit or a delete removes is the one saved with its question if and only if the next message of the thread is an answer; otherwise it is a later question's, which stays without one. |
| `ConversationPairs.NextMessageTellsIff` | src/backend/supportagent/memory/store.py:128-142 | For any table, overlapping saves or not: the next message tells whether the next answer is the question's own, for all questions of a thread, if and only if every answer right behind a question was saved with it. |
| `ConversationPairs.OverlappingSavesMislead` | src/backend/supportagent/memory/store.py:128-142 | With two overlapping saves that fails both ways: editing the second question takes the first one's answer although the next message is an answer, deleting the first takes its own although the next message is a question. |
| `ConversationPairs.EditedQuestionHasNoAnswer` | src/backend/supportagent/memory/store.py:153-166 | After an edit, in a thread whose saves do not overlap, no answer left was saved with the edited question: what a further edit or delete takes is never its own. |
| `ConversationPairs.TakenIsWhatGoes` | src/backend/supportagent/memory/store.py:128-181 | The messages a call removes are exactly the next answer after an owned question, and the question itself if it is deleted. |
| `ConversationPairs.SecondEditTakesTheNextTurnsAnswer` | src/backend/supportagent/memory/store.py:128-166 | Two saved turns and two edits of the first question: the second edit has removed the answer of the next turn. |
| `Conversations.ShortMemoryIsTheEndOfTheThread` | src/backend/supportagent/memory/store.py:32-48 | Short memory is the last min(6, n) messages of the ordered thread, oldest first, and nothing for anyone but the owner. |
| `Conversations.ShortMemoryHoldsTheLatestSix` | src/backend/supportagent/memory/store.py:32-48 | A message is in a user's short memory if and only if it is in the thread, the thread is the user's, and fewer than six messages of the thread are later; in ascending order. |
| `Conversations.SaveLands` | src/backend/supportagent/memory/service.py:112-141 | A save stores question and answer in that order and opens the thread for the user, "anonymous" if none is named; without thread, on a thread of someone else or with an exception it changes nothing. |
| `Conversations.EditLands` | src/backend/supportagent/memory/store.py:153-166 | An edit of the visitor's own question stores the content and drops exactly the earliest later answer; any other edit changes nothing. |
| `Conversations.DeleteLands` | src/backend/supportagent/memory/store.py:169-181 | A deletion takes exactly the visitor's own question and the earliest later answer; any other changes nothing. |
| `ConversationStores.ConversationStore.Ensure` | src/backend/supportagent/memory/store.py:22-29 | Opens a new thread for the user, accepts the owner, refuses everybody else without writing. |
| `ConversationStores.ConversationStore.SaveMemoryTurn` | src/backend/supportagent/memory/service.py:112-141 | The save as one transaction: thread, question and answer together, or nothing when the thread is foreign or something raises. |
| `ConversationStores.ConversationStore.NextAnswer` | src/backend/supportagent/memory/store.py:129-138 | Finds the answer with the least id after the question, or none if there is none. |
| `ConversationStores.ConversationStore.DeleteAnswerAfter` | src/backend/supportagent/memory/store.py:128-142 | Removes that answer and nothing else. |
| `ConversationStores.ConversationStore.EditQuestion` | src/backend/supportagent/memory/store.py:153-166 | Only the owner's question is edited, and the next answer removed; the balance is kept. |
| `ConversationStores.ConversationStore.DeleteTurn` | src/backend/supportagent/memory/store.py:169-181 | Only the owner's question is deleted, with the next answer; the balance is kept. |
| `Pagination.IteratePages` | src/backend/supportagent/integrations/atlassian_client.py:69-79 | The bounded loop: no cursor is requested twice, the items are those of the requested pages in order, and it gives up only after 1000 pages with more on offer. |
| `Pagination.FinishesIffWalkIsShort` | src/backend/supportagent/integrations/atlassian_client.py:99-109 | The iteration succeeds if and only if the cursors followed from the start run out or repeat within 1000 requests, and then it has read that whole walk. |
| `Pagination.WalksAreNested` | src/backend/supportagent/integrations/atlassian_client.py:69-79 | Of two walks over one server the shorter is a beginning of the longer and is not exhausted. |
| `Pagination.FewCursorsAlwaysFinish` | src/backend/supportagent/integrations/atlassian_client.py:10-10 | A server with fewer than 1000 cursors is always read to the end, however they are linked. |
| `Pagination.ChainIsReadIff` | src/backend/supportagent/integrations/atlassian_client.py:69-79 | A chain of n distinct cursors is read to its end if and only if n + 1 <= 1000; the requests are then none and the cursors in order, and a longer chain stops after a thousand. |
| `HtmlText.NormaliseNormalises` | src/backend/supportagent/html_utils.py:27-32 | Tab-free text comes out without a space beside a newline, double space, triple newline or surrounding whitespace. |
| `HtmlNormalForm.NormalIff` | src/backend/supportagent/html_utils.py:27-32 | For any text: the output is in that normal form if and only if, between its first and last visible character, the input has no tab beside a line break, not even with spaces between; equivalently no blank stands beside a newline after the first rewriting and strip(). |
| `HtmlNormalForm.IdempotentIff` | src/backend/supportagent/html_utils.py:27-32 | For any text: normalising twice equals normalising once under exactly the same condition, and the second pass always reaches a normal text that further passes leave alone. |
| `HtmlNormalForm.TabAtLineEndSurvives` | src/backend/supportagent/html_utils.py:29-30 | A tab at the end of a line comes out as a space beside the newline, which is not normal; a second pass removes it. |
| `HtmlNormalForm.StripCommutes` | src/backend/supportagent/html_utils.py:29-32 | Stripping before any of the three rewritings gives what stripping after it gives. |
| `HtmlText.NormaliseIsIdempotent` | src/backend/supportagent/html_utils.py:27-32 | Normalising tab-free text twice is normalising it once. |
| `HtmlText.NormalTextIsAFixpoint` | src/backend/supportagent/html_utils.py:27-32 | Text in normal form is left exactly as it is. |
| `HtmlText.NormaliseKeepsInk` | src/backend/supportagent/html_utils.py:27-32 | Normalising any text, tabs or not, keeps its non-whitespace characters in order. |
| `HtmlGaps.GapBecomes` | src/backend/supportagent/html_utils.py:27-32 | Between two visible characters of any text, a run of spaces and tabs becomes one space, and a run of spaces and newlines one newline if it holds one and two if it holds more; what stands before and after is normalised on its own. |
| `HtmlGaps.GapIsRewrittenAlone` | src/backend/supportagent/html_utils.py:29-31 | No rewriting reaches across a visible character. |
| `HtmlText.TrimLinesTrims` | src/backend/supportagent/html_utils.py:29-29 | After the first rewriting no space stands beside a newline, in any text. |
| `HtmlText.SqueezeKeepsLinesIff` | src/backend/supportagent/html_utils.py:30-30 | The second rewriting leaves a space beside a newline if and only if a tab or space stood beside one before it. |
| `HtmlText.CapNewlinesCaps` | src/backend/supportagent/html_utils.py:31-31 | The third rewriting leaves no triple newline and keeps what the first two established. |
| `HtmlText.TextExtractor.constructor` | src/backend/supportagent/html_utils.py:13-15 | A new extractor has no parts. |
| `HtmlText.TextExtractor.HandleStartTag` | src/backend/supportagent/html_utils.py:17-21 | Headings add a blank line, paragraphs and list items a line break, other tags nothing. |
| `HtmlText.TextExtractor.HandleData` | src/backend/supportagent/html_utils.py:23-25 | Visible data is appended stripped; blank data adds nothing. |
| `HtmlText.PartsAreSpaced` | src/backend/supportagent/html_utils.py:27-28 | Joining puts one space between any two neighbouring parts and nowhere else. |
| `HtmlText.TextExtractor.Text` | src/backend/supportagent/html_utils.py:27-32 | The page text is normal for tab-free parts and holds their visible characters in order. |
| `Chunking.JoinOfSplit` | src/backend/supportagent/rag/chunking.py:15-15 | Joining the parts of a split by blank lines gives the text back. |
| `Chunking.TitleComesFirst` | src/backend/supportagent/rag/ingest.py:18-20 | A one-line title in front of a body is the first part of the page's split, and the rest are the body's parts. |
| `Chunking.SplitsAtTheFirstBlankLine` | src/backend/supportagent/rag/chunking.py:15-15 | A text is split at its first blank line and then behind it; a text without one stays whole. |
| `Chunking.UndividedDocuments` | src/backend/supportagent/rag/chunking.py:12-17 | A document that is not from Confluence, or has no blank line, is one chunk as it is. |
| `Chunking.PartsAreStrippedIff` | src/backend/supportagent/rag/chunking.py:19-22 | The parts of a normal text are what strip() leaves of them if and only if no whitespace stands just before or after a blank line. |
| `Chunking.ChunksRebuildThePageIff` | src/backend/supportagent/rag/chunking.py:12-22 | For a one-line title and any body: the chunks are numbered from zero, one for each part of the body, each with title and stripped part; title and sections joined by blank lines are exactly the page if and only if no part begins or ends with whitespace. |
| `Chunking.IngestedPageIsRebuiltIff` | src/backend/supportagent/rag/ingest.py:16-20 | For text the extractor brings into normal form: the page is rebuilt from its chunks if and only if no whitespace stands beside a blank line of the normalised text. |
| `Chunking.PlainPageIsRebuilt` | src/backend/supportagent/rag/ingest.py:16-20 | It always is when spaces and newlines are the only whitespace of the raw text. |
| `Chunking.NoBreakSpaceIsLost` | src/backend/supportagent/rag/chunking.py:19-22 | A no-break space at the end of a paragraph is normal text, and the chunks lose it. |
| `Percentile.RankIsInRange` | src/backend/supportagent/evaluation/online_runner.py:37-41 | The index is in range for every non-empty list, so the clamp does nothing, and it is at least the middle. |
| `Percentile.PercentileIsNearestRank` | src/backend/supportagent/evaluation/online_runner.py:37-42 | The percentile stands at position k = floor(0.95 (n - 1) + 0.5): it is one of the values, at least k + 1 values are at most it and at least n - k at least it. |
| `Percentile.PercentileCounts` | src/backend/supportagent/evaluation/online_runner.py:37-42 | At most k values are smaller and at most n - 1 - k are greater, for that k. |
| `Percentile.PositionIsUnique` | src/backend/supportagent/evaluation/online_runner.py:37-42 | No two different values stand at one position, so the position fixes the percentile. |
| `Percentile.MedianIsMiddle` | src/backend/supportagent/evaluation/online_runner.py:235-235 | The median is the mean of the values at the two middle positions. |
| `Percentile.OrderDoesNotMatter` | src/backend/supportagent/evaluation/online_runner.py:37-42 | Percentile and median depend only on which latencies occur how often. |
| `Percentile.MedianIsAtMostPercentile` | src/backend/supportagent/evaluation/online_runner.py:235-236 | The median never exceeds the 95th percentile. |
| `Percentile.SortedSorts` | src/backend/supportagent/evaluation/online_runner.py:40-40 | Sorting yields an ascending permutation. |
| `Pricing.EstimateCalls` | src/backend/supportagent/evaluation/pricing.py:22-58 | The accumulating loop with its early return: None if and only if some call's model has no price, otherwise the sum over the calls. |
| `Pricing.Charge` | src/backend/supportagent/evaluation/pricing.py:28-57 | The charge of one call: each class of input tokens at its own rate, missing cache rates at the input rate. |
| `Pricing.SingleCallCosts` | src/backend/supportagent/evaluation/pricing.py:22-58 | A call with consistent counters costs plain, cached, cache-creating and output tokens at their own rates per million, written out; missing cache rates are the input rate. |
| `Pricing.ExcessCountersAreCut` | src/backend/supportagent/evaluation/pricing.py:28-41 | Counters beyond the input are cut: cached tokens to the input, cache-creating ones to what is left. |
| `Pricing.EveryTokenIsBilledOnce` | src/backend/supportagent/evaluation/pricing.py:28-41 | Regular, cached and cache-creation tokens sum exactly to the input tokens, for all counters; for non-negative counters none is negative. |
| `Pricing.EstimateIsAdditive` | src/backend/supportagent/evaluation/pricing.py:22-58 | The estimate of two lists together is the sum of their estimates, and exists only if both do. |
| `Pricing.EstimateIgnoresOrder` | src/backend/supportagent/evaluation/pricing.py:22-58 | The estimate does not depend on the order of the calls. |
| `Pricing.BillRecoversTheCounters` | src/backend/supportagent/llm/providers/anthropic_provider.py:170-182 | For usage normalised from Anthropic counters the billed classes are exactly the three counters if and only if the plain count, and the plain plus cache-creation count, are not negative. |
| `Pricing.NormaliseRecoversTheUsage` | src/backend/supportagent/llm/providers/anthropic_provider.py:170-182 | Adding the billed classes up again gives the usage record back if and only if its cache counters fit into its input count. |
| `Pricing.CallPriceIsBounded` | src/backend/supportagent/evaluation/pricing.py:42-57 | A call costs between all its input at the lowest and all at the highest of the three input rates, plus its output. |
| `Pricing.CacheTokensMoveRates` | src/backend/supportagent/evaluation/pricing.py:28-57 | One more cached token, or cache-creation token, moves exactly one token from the input rate to that class's rate. |
| `Pricing.EstimateIsNonNegative` | src/backend/supportagent/evaluation/pricing.py:9-13 | With the rates a catalogue admits and non-negative counters an estimate is never negative. |
| `Benchmark.AggregateModel` | src/backend/supportagent/evaluation/online_runner.py:156-245 | The aggregation against the figures as functions of the trials; a trial of an unlisted case makes it raise. |
| `Benchmark.TallyTrials` | src/backend/supportagent/evaluation/online_runner.py:164-197 | The loop over the trials: source counts, refusal and citation checks, and trials grouped by case, or the lookup of an unknown case raises. |
| `Benchmark.CountTrial` | src/backend/supportagent/evaluation/online_runner.py:170-197 | One round of that loop. |
| `BenchmarkFigures.PassesIff` | src/backend/supportagent/evaluation/online_runner.py:45-153 | A trial passes if and only if an answer came, every expected source was retrieved, the answer refuses exactly where a refusal is expected, its citations are there and point at chunks unless one is, and the language matches. |
| `BenchmarkFigures.ChecksMean` | src/backend/supportagent/evaluation/online_runner.py:45-95 | The four checks of an answered trial, each by name and meaning. |
| `BenchmarkFigures.FindsTheFirst` | src/backend/supportagent/evaluation/online_runner.py:171-171 | A trial is counted under the first case of its id, and there is none exactly when no case has it. |
| `BenchmarkFigures.FiguresAreShares` | src/backend/supportagent/evaluation/online_runner.py:199-245 | Pass, error, stability and recall figures as shares: rate times the whole is the number of trials, ids or expected sources counted. |
| `BenchmarkFigures.ThresholdMeans` | src/backend/supportagent/evaluation/online_runner.py:206-245 | The threshold passes if and only if the asked share of the trials, and at least that, passed; without trials only a threshold up to 0 does. |
| `BenchmarkFigures.AccuraciesAreShares` | src/backend/supportagent/evaluation/online_runner.py:182-232 | Refusal accuracy is the share over checked trials of cases that expect a refusal, citation validity over those of all others; absent without any. |
| `BenchmarkFigures.LatenciesAreThoseAnswered` | src/backend/supportagent/evaluation/online_runner.py:201-205 | The latencies are exactly those of trials that answered, each as often as it occurs. |
| `BenchmarkFigures.LatencyFiguresStand` | src/backend/supportagent/evaluation/online_runner.py:235-236 | The reported p95 stands at position floor(0.95 (n - 1) + 0.5) of those latencies, the reported p50 in their middle. |
| `BenchmarkTheorems.BenchmarksAreAggregated` | src/backend/supportagent/evaluation/online_runner.py:274-289 | Aggregating the trials a benchmark produced never raises. |
| `BenchmarkTheorems.StabilityIsAtMostPassRate` | src/backend/supportagent/evaluation/online_runner.py:208-214 | With equally many trials per case, also none, and every id listed equally often, as distinct ids are, stability_rate <= pass_rate. |
| `BenchmarkTheorems.OrderHoldsIffIdsEquallyOften` | src/backend/supportagent/evaluation/online_runner.py:208-214 | For a list of cases and a number of trials each, stability_rate <= pass_rate holds for all outcomes if and only if no trial is run or all ids are listed equally often. |
| `BenchmarkTheorems.RepeatedIdsBreakTheOrder` | src/backend/supportagent/evaluation/online_runner.py:169-171 | For every list in which ids are not listed equally often, and any positive number of trials, there are outcomes that put stability above the pass rate. |
| `BenchmarkTheorems.PassRateLeavesRoomForErrors` | src/backend/supportagent/evaluation/online_runner.py:98-153 | pass_rate <= 1 - error_rate, with equality if and only if every trial that answered passed. |
| `BenchmarkTheorems.FullStabilityIsFullPassRate` | src/backend/supportagent/evaluation/online_runner.py:199-214 | stability_rate is 1 if and only if pass_rate is 1, which means there are trials and all passed, for any list of trials. |
| `BenchmarkTheorems.RecallCountsTheSourceChecks` | src/backend/supportagent/evaluation/online_runner.py:173-180 | Source recall lies in [0, 1] and, for distinct ids, is 1 if and only if no trial's source check failed. |
| `BenchmarkTheorems.AccuracyIsARate` | src/backend/supportagent/evaluation/online_runner.py:227-232 | Refusal accuracy and citation validity, where they exist, lie in [0, 1] and are 1 exactly when no check failed. |
| `BenchmarkTheorems.PerfectTrialsScorePerfectly` | src/backend/supportagent/evaluation/online_runner.py:45-95 | When every trial passes, recall is 1, the error rate is 0, and accuracy figures are 1 or absent. |
| `BenchmarkTheorems.LatencyFiguresAreOrdered` | src/backend/supportagent/evaluation/online_runner.py:201-236 | The median latency of the answered trials is at most their 95th percentile; without any both are 0. |
| `ReviewGate.RunSuite` | src/backend/supportagent/evaluation/runner.py:65-196 | For every dataset, fixtures and threshold: the gate passes if and only if there is a case, every case passed, and the threshold is at most 1; a case without fixture counts as failed. |
| `ReviewGate.TallyCases` | src/backend/supportagent/evaluation/runner.py:73-161 | The counting loop: match counters count the cases that meet each expectation, violations stay 0, results tell which cases passed. |
| `ReviewGate.CheckCase` | src/backend/supportagent/evaluation/runner.py:101-161 | The checks of one case: an action always waits for approval, so nothing forbidden is ever executed, and passing means both expectations match. |
| `ReviewGate.PassesIff` | src/backend/supportagent/evaluation/runner.py:101-161 | A case passes if and only if its fixture exists, the expected list holds exactly the types the fixture needs and lacks, each once, and the expected proposal is "CREATE_JIRA_ISSUE" where that list has an entry and none otherwise. |
| `ReviewGate.GateMeaning` | src/backend/supportagent/evaluation/runner.py:163-182 | The four metric thresholds together mean: at least one case, every case passes, and the minimum pass rate is at most 1. |
| `ReviewGate.MetricsStand` | src/backend/supportagent/evaluation/runner.py:163-182 | The four metrics are the shares of passed cases, both kinds of matches and violations, with thresholds minimum pass rate, 1, 1 and 0; each passes when its share meets its threshold. |
| `ReviewGate.AcceptedDatasetIsConsistent` | src/backend/supportagent/evaluation/runner.py:120-121 | A case that passes lists no missing document twice and expects a proposal exactly when it expects a missing document. |

## Left out

- LLM calls, embeddings, vector ranking and the graph library: retrieval and generation are arbitrary outcomes or exceptions of the executor.
- HTTP routes, login, Microsoft OAuth and token refresh, MCP transports, object storage, vision and the front end: input, output and thin wrappers.
- The tool policy table and the MCP audit log with its redaction: admission is an arbitrary answer, and the log is only written.
- `record_mcp_action_turn` after a tool call: the same save as a memory turn, modelled in the conversation store but not as a step of the call.
- Read-committed anomalies on claim rows: the transactions are serialised by assumption.
- Recovery after a crash: the code has none; `LostExecutorBlocksItsClaim` and `DeadOwnerBlocksItsKey` state what stays blocked, and manual repair of rows is not a step.
- UUID generation: ids are given, and a taken id is refused as a whole transaction.
- Free text in rows (reasons, comments, recommendations, evidence reasons, the 500-character cut of error texts), timestamps, risk levels and run ids of actions.
- Optional and conditional documents, the sources of requirements and the listings of claims, runs, events and threads: table look-ups and plain reads.
- ClaimRules.MissingShrinks: missing documents are a set; their sorted order is not modelled.
- ReviewGate.RunSuite: comparison with a sorted list is equality of multisets; durations, fingerprints, labels and the product-line validation of fixtures are not part of it.
- Benchmark.AggregateModel: token and cost sums, rounding of latencies and cost, labels and the list of trials itself are not part of the report.
- HtmlText.NormaliseNormalises: one direction, for tab-free text; `HtmlNormalForm.NormalIff` is the exact statement for every text.
- HtmlText.TextExtractor.HandleStartTag: which events the HTML parser emits, and in what order, is arbitrary.
- Chunking.ChunksRebuildThePageIff: titles of one line only, since a blank line in a title is itself a separator; Jira issues become one chunk and are only a branch of the function.
- Pagination.IteratePages: the two iterators differ in the request they send; here the server is one function of the cursor.
- Conversations.EveryRunIsSound: long-term memories, the touched timestamp and the limit of 100 messages per thread listing.
- CalendarIdentity.OutgoingKeepsIdentity: the copy or aliasing of the argument dictionary is not modelled, only its contents.
- Keyword routing, query rewriting, prompts, model registry, skills, migrations and generated documents: table look-ups or text.
