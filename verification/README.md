# Verified model of the research and execute service

The service runs research jobs that propose actions, and executes the actions a human has
approved. This project models its shared state in Redis, the handlers and worker steps that
interleave over it, and its three string algorithms, and proves what they promise together.

| files | what they hold |
|---|---|
| `Schemas`, `JobKeys`, `RedisStore` | the records; what a store call does to the four keys of a job; the store as a class of maps with expiries and a clock |
| `JobProtocol`, `JobInvariants`, `JobTheorems` | one job as a state machine: its submit, any number of cancels and of runner attempts, duplicates included, all stepping through their store calls in any order, with crashes at any call, crashes inside a terminal transition, expiry and the passing of time |
| `Redelivery`, `Runner`, `RetryArithmetic` | the worker's run loop as methods over the store, equal to a driven run of the job's machine; sequential redelivery in closed form; how long retries stay within the token's lifetime |
| `ResearchApi`, `ResearchLaws`, `NonInterference` | submit, poll, cancel, reading and rejecting actions over the store; what each caller is told, field by field, and what is written; callers cannot tell or change what is not theirs |
| `ActionProtocol`, `ActionInvariants`, `ActionTheorems`, `ExecuteLaws`, `ExecuteApi` | stored proposals under runs of execute and reject requests with any keys, edits, owners, downstream outcomes and crashes; what each request is told; the handlers as methods over the store |
| `Jira` | the Jira adapter: payload schemas, precondition check, mutations, as requests to the server |
| `ReadCap` | the semaphore that caps concurrent reads, the tools behind it and the runs of their callers |
| `AgentOutput`, `RequestHash`, `Redaction` | output extraction, the string hashed for an execute request, the log redactor |
| `Json`, `NumberLaws`, `JsonParser`, `JsonPrinter`, `LooseEquality` | JSON values, the worth of number tokens, `json.loads` and canonical `json.dumps` by the grammar of RFC 8259 (sections 2, 4, 6 and 7), and Python's `==` on parsed values |

A store method is one atomic step, except that a crash may strike between a terminal
transition's write and its purge. Requests to execute or reject an action are handled one
after another. Times are whole seconds of one clock.

## Where the code differs from what is said of it

- A recorded outcome is called replayable and "never a double-executable proposal" (BLUEPRINT.md:252-253).
  It is safe under its own key only: after a crash between recording and consuming, the same
  action under another key is executed a second time (`AtMostOneEnd`, `DoubleExecution`).
- Approved payloads are said to match "byte-for-byte" (BLUEPRINT.md:244, app/models/schemas.py:94-95).
  The comparison is Python's `==` on parsed JSON with missing keys read as null, so `true` may be
  approved as `1` and is then sent as `1` (`NeverMistaken`, `FieldsAsProposed`).
- Jobs "must outlive their result" (app/state/redis_store.py:78-80). They do exactly when the
  result is saved within the run budget after creation (`ResultLifetime`, `LateResult`).
- A crash inside a terminal transition, between its two writes, leaves the staged token until it
  expires, as the comment at app/state/redis_store.py:128-130 foresees; and with a result lifetime
  under two minutes a token can outlive its job's record. Otherwise it cannot (`TokenSafety`).
- Cross-principal access is said to be indistinguishable from expiry (app/api/execute.py:76-77). The
  replay check runs before authorisation, so whoever presents a live key with the recorded action
  and payload is served the owner's outcome (`StrangerToldExpired`, `StrangerServed`).
- Redaction can create a registered secret when that secret shares characters with the marker
  `[REDACTED]` (`RemovedExactlyWhenSeparate`), and redacting twice can then differ from redacting
  once (`IdempotentExactlyWhenHarmless`).

## Model

| member | source | states |
|---|---|---|
| JobTheorems.ReachableInv | app/state/redis_store.py:102-184 | the invariant of records, tokens, flags, results and proposals holds in every state of every run |
| JobInvariants.ActKeeps | app/worker/runner.py:76-163 | every step of every process, crash and clock tick keeps the invariant and only moves the shared state forward |
| JobInvariants.ExecKeeps | app/worker/runner.py:76-163 | the same over whole runs |
| JobInvariants.InitialInv | app/api/research.py:54-73 | a freshly built record satisfies the invariant |
| JobInvariants.TransitionKeeps | app/state/redis_store.py:102-140 | a legal transition with an error exactly when it fails the job keeps the invariant |
| JobInvariants.SubmitStep | app/api/research.py:73-102 | each step of submit, rollback and crashes included, keeps it |
| JobInvariants.CancelStep | app/api/research.py:185-200 | each step of a cancel keeps it, whatever happened since it read the record |
| JobInvariants.PersistStep | app/worker/runner.py:298-335 | staging one candidate keeps it: survivors so far are stored in order with valid payloads |
| JobInvariants.PublishStep | app/worker/runner.py:111-122 | saving the result keeps it |
| JobTheorems.TokenSafety | app/api/research.py:73-102 | in every run, with crashes inside a terminal transition admitted or not, a live token means the record was never created or is present and not terminal, if and only if results are kept for at least 120 s and no such crash is admitted |
| JobTheorems.TokenOutlivesRecord | app/state/redis_store.py:163-168 | with a shorter result lifetime there is a run, without such a crash too, in which the token is alive after its record is gone |
| JobTheorems.TornTokenStays | app/state/redis_store.py:126-132 | a run in which a crash between the terminal write and the purge leaves the token of a finished job |
| JobTheorems.TokenNeverReappears | app/state/redis_store.py:163-176 | a token once staged and gone is gone in every continuation |
| JobTheorems.TerminalAbsorbing | app/state/redis_store.py:51-59 | once terminal, nothing of a record but its progress ever changes, under every interleaving |
| JobTheorems.RecordsWellFormed | app/state/redis_store.py:116-124 | finished_at iff terminal, error iff failed, created <= started <= finished, in every reachable state |
| JobTheorems.CompletedHasResult | app/worker/runner.py:111-122 | COMPLETED implies that some attempt saved a result before |
| JobTheorems.ResultsAreStored | app/worker/runner.py:298-335 | every action of every saved result was stored as a valid proposal of this job, and they are the surviving candidates unchanged and in order |
| JobTheorems.LifetimeFixed | app/state/redis_store.py:92-100 | the record's expiry is creation time + R + T*M whatever is written to it later |
| JobTheorems.ProposalLifetime | app/worker/runner.py:298-335 | in every run each stored proposal expires exactly one proposal lifetime after the answer it came with was accepted, and is not dropped before |
| JobTheorems.ResultLifetime | app/state/redis_store.py:78-80 | every moment at which the result is readable has a live job, if and only if it was saved at most T*M after creation |
| JobTheorems.LateResult | app/state/redis_store.py:78-80 | a run in which a completed job's result outlives the job |
| JobTheorems.FlagOutlivesRecord | app/state/redis_store.py:180-184 | a cancel flag expires no earlier than the job record |
| JobTheorems.FlagNotDropped | app/state/redis_store.py:128-132 | a step that removes the flag leaves a terminal record |
| JobTheorems.CancelTakesHold | app/worker/runner.py:214-220 | from the moment a RUNNING job is flagged and while it stays RUNNING: the flag stays, each runner writes progress at most once more, no runner before the pickup check enters RUNNING |
| JobTheorems.SubmissionAccepted | app/api/research.py:73-93 | an undisturbed submission leaves exactly the queued record and, with user tokens, the staged ciphertext, each for its lifetime |
| JobTheorems.SubmissionUndone | app/api/research.py:91-102 | with the queue down it leaves no token and the record as FAILED with DEPENDENCY_UNAVAILABLE |
| RedisStore.Store.Transition | app/state/redis_store.py:102-140 | result, new record, purge and unchanged rest of the store, for every outcome |
| RedisStore.Store.CreateJob | app/state/redis_store.py:92-93 | the record is stored with the job lifetime; nothing else changes |
| RedisStore.Store.SaveJob | app/state/redis_store.py:99-100 | the record is overwritten and its expiry kept |
| RedisStore.Store.SetProgress | app/state/redis_store.py:142-148 | only the progress of a live record changes |
| RedisStore.Store.SaveResult | app/state/redis_store.py:152-155 | the result is stored for the result lifetime |
| RedisStore.Store.StageToken | app/state/redis_store.py:163-168 | the token is stored for T*M + 120 s |
| RedisStore.Store.RequestCancel | app/state/redis_store.py:180-181 | the flag is stored for the job lifetime |
| RedisStore.Store.SaveProposal | app/state/redis_store.py:188-193 | the proposal is stored under its action id for the proposal lifetime |
| RedisStore.Store.PutIdempotency | app/state/redis_store.py:208-211 | the outcome is stored under its key for the idempotency lifetime |
| ResearchLaws.TransitionTable | app/state/redis_store.py:51-115 | exactly seven transitions are legal; any other is told with its two states, and a missing job as missing |
| ResearchLaws.TransitionWrites | app/state/redis_store.py:116-124 | a transition sets status, attempt and error as given, the start at the first RUNNING only, the end at a terminal state only, and nothing else |
| ResearchLaws.TransitionPurges | app/state/redis_store.py:126-140 | the record keeps its expiry; exactly the terminal transitions take token and flag away; the result stays |
| ResearchLaws.ProgressWritten | app/state/redis_store.py:142-148 | a progress write sets tool and steps of a live record and changes nothing else; on a missing one it does nothing |
| ResearchApi.SubmitResearch | app/api/research.py:73-110 | accepted: exactly the queued record and the token are stored; queue down: exactly the record as FAILED with DEPENDENCY_UNAVAILABLE, for its full lifetime; no vault: nothing |
| ResearchApi.PollResearch | app/api/research.py:154-172 | nothing is changed; the answer is the function of the job's keys whose every part `PollShows` pins |
| ResearchLaws.JobsByPrincipal | app/api/research.py:113-135 | with user tokens, poll and cancel of a live job are refused as JOB_NOT_FOUND, with no effect, if and only if its principal hash is not the caller's, whatever the consumer ids |
| ResearchLaws.JobsByConsumer | app/api/research.py:113-135 | without user tokens, if and only if its consumer is not the caller's, whatever the hashes |
| ResearchLaws.MissingJob | app/api/research.py:113-135 | a missing or expired job gets the answer a stranger gets |
| ResearchLaws.PollShows | app/api/research.py:154-172 | each field of a status answer: those of the record, progress only while running, the live flag, and findings and actions of the readable result if and only if the job is completed |
| ActionTheorems.PollShowsLastResult | app/api/research.py:167-171 | in every run the owner of a completed job is shown the findings and actions saved last, for exactly one result lifetime after saving |
| ResearchApi.CancelOpenJob | app/api/research.py:188-200 | the whole effect of an undisturbed cancel on the job's keys |
| ResearchApi.CancelResearch | app/api/research.py:175-200 | answer and effect by ownership and status; other jobs untouched |
| ResearchLaws.CancelShows | app/api/research.py:175-200 | a cancel reports the job as it leaves it: a finished one unchanged, a queued one cancelled now, a running one with the flag |
| ResearchApi.CancelTakesEffect | app/api/research.py:185-200 | the token is gone at once; a queued job is cancelled for good; a running one keeps its record and is flagged |
| ResearchApi.CancelIdempotent | app/api/research.py:185-186 | a second cancel at the same moment changes nothing |
| ResearchApi.GetAction | app/api/execute.py:226-242 | the caller's own proposal, else ACTION_EXPIRED |
| ResearchApi.RejectAction | app/api/execute.py:245-261 | when the answer is a success the proposal was there, is gone, and nothing else changed; otherwise nothing changed |
| ResearchLaws.ProposalsByPrincipal | app/api/execute.py:73-101 | with user tokens, reading and rejecting a live proposal are refused with no effect if and only if its principal hash is not the caller's; the owner is shown it, and a rejection removes it |
| ResearchLaws.ProposalsByConsumer | app/api/execute.py:73-101 | without user tokens the same by consumer alone |
| ResearchLaws.MissingProposal | app/api/execute.py:73-101 | a missing or expired proposal gets the answer a stranger gets |
| ExecuteApi.Reject | app/api/execute.py:245-261 | rejecting over the store is the protocol's step, so what is proved of all runs holds of the handler |
| NonInterference.StrangerRefused | app/api/research.py:113-135 | without ownership (which `JobsByPrincipal` and the laws beside it spell out) every request is answered as for something that does not exist and changes nothing |
| NonInterference.OthersUntouched | app/api/execute.py:73-101 | no request changes a job or proposal the caller does not own |
| NonInterference.HandleAgrees | app/api/research.py:154-200 | one request is answered alike by two states that agree on the caller's own jobs and proposals, and they still agree |
| NonInterference.ServeAgrees | app/api/research.py:113-200 | the same for every sequence of requests at all times |
| NonInterference.Answer | app/api/execute.py:226-261 | each handler over a store that a snapshot describes answers, and changes the store, as the theorems on snapshots say |
| NonInterference.AnswerAll | app/api/research.py:154-200 | the same for a whole sequence of requests, so two stores that agree on the caller's own answer alike throughout |
| Redelivery.CancelIsRun | app/api/research.py:185-200 | an undisturbed cancel is a run of the job's machine |
| Redelivery.DriveIsRun | app/worker/runner.py:76-163 | every driven attempt is a run of the job's machine |
| Redelivery.AttemptResult | app/worker/runner.py:85-163 | what one undisturbed attempt on an open, unflagged job leaves, by its script and whether the token is there at its start; a retry keeps the token and the flag as they were |
| Redelivery.ProgressRecorded | app/worker/runner.py:213-223 | after the agent's steps the record's progress is their number and the tool of the last |
| Redelivery.NothingToRun | app/worker/runner.py:77-86 | a delivery of a job that is gone or finished changes nothing |
| Redelivery.FlaggedIsDiscarded | app/worker/runner.py:87-89 | a delivery of a flagged open job cancels it without running it, the attempt number unchanged |
| Redelivery.DeliveryResult | app/worker/runner.py:76-163 | every delivery, cancelled in the queue or not, leaves what its kind says |
| Redelivery.RetryKeeps | app/worker/runner.py:144-152 | after a retry the record is open, attempts remain, the token is untouched, and the kinds of the deliveries to come are unchanged |
| Redelivery.RedeliveryClosedForm | app/worker/main.py:62-76 | sequential redelivery ends with attempt and verdict of the first delivery that is not an ordinary exception, else FAILED with an internal error at the last; cancels may come in the queue or between agent steps and the token may expire at any time |
| Runner.StreamAgent | app/worker/runner.py:207-226 | the streaming loop equals the machine's steps: flag checked before each progress write, stopping at a cancel |
| Runner.PersistProposals | app/worker/runner.py:292-335 | the staging loop equals the machine's steps; every action returned is stored under its id for the owner, and both it and its entry expire one proposal lifetime from now; what was stored before stays and nothing else is stored |
| Runner.PickUp | app/worker/runner.py:77-91 | gone, finished and flagged jobs are not run; others enter RUNNING with this attempt |
| Runner.ResolveCredentials | app/worker/runner.py:195-204 | a missing token or a failed decryption takes the failure funnel |
| Runner.RetryOrFail | app/worker/runner.py:144-163 | retry while attempts remain, otherwise FAILED with an internal error |
| Runner.EndOfStream | app/worker/runner.py:108-163 | an answer, an exception, no output and the time limit each end the attempt as the machine does |
| Runner.RunResearchJob | app/worker/runner.py:76-163 | outcome and effect on the store of a whole delivery are those of the scripted attempt |
| Runner.ResearchJob | app/worker/main.py:62-67 | a retryable failure becomes a deferral of min(2^attempt, 30) s |
| Runner.DrainJob | tests/contract/conftest.py:142-152 | working a job off the queue leaves it settled as the closed form says |
| RetryArithmetic.TotalDeferClosedForm | app/worker/main.py:62-67 | total deferral before attempt k+1 is 2^(k+1)-2 up to k = 4 and 30(k-3) from there |
| RetryArithmetic.TokenBudget | app/state/redis_store.py:163-168 | every attempt of every schedule with waits at most w and durations at most D loads its token in time, if and only if w + (M-1)*D + total deferral < T*M + 120 |
| RetryArithmetic.RedeliveryWithinBudget | app/worker/runner.py:195-204 | within that budget redelivery ends as if the token never ran out |
| ActionTheorems.ReachableInv | app/api/execute.py:122-261 | the invariant of proposals, records and their history holds in every run |
| ActionInvariants.PerformKeeps | app/api/execute.py:122-223 | an execute request, with any outcome and crash, keeps the invariant |
| ActionInvariants.RunKeeps | app/api/execute.py:122-261 | the same over whole runs, in which records are only replaced once expired and proposals never return |
| ActionTheorems.OnlyVettedCalls | app/api/execute.py:151-172 | every call of the mutation was for a stored proposal before its expires_at, with a valid payload that differs on editable fields only |
| ActionTheorems.RecordedOutcomeHolds | app/api/execute.py:135-157 | in every run, crashes and expiry included, a recorded outcome is never executed again under its key and action, if and only if proposals live no longer than idempotency records |
| ActionTheorems.RepeatedCall | app/api/execute.py:209-216 | with longer-lived proposals there is a run that repeats it |
| ActionTheorems.RecordReplays | app/api/execute.py:135-149 | while the record lives its key returns the recorded outcome to exactly the recorded action and payload and IDEMPOTENT_REPLAY to anything else, and nothing is done |
| ActionTheorems.StrangerToldExpired | app/api/execute.py:73-93 | a caller who does not own the proposal is told ACTION_EXPIRED, as if there were none, if and only if the key has no live record |
| ActionTheorems.StrangerDoesNothing | app/api/execute.py:73-93 | such a request calls, records and consumes nothing |
| ActionTheorems.StrangerServed | app/api/execute.py:135-149 | a run in which another consumer, presenting the key and the approved request, is served the owner's outcome |
| ActionTheorems.AtMostOneEnd | app/api/execute.py:191-216 | no proposal is executed twice, or executed and rejected, in any run, if and only if no handler crashes between the mutation and consuming the proposal |
| ActionTheorems.DoubleExecution | app/api/execute.py:209-216 | a run in which such a crash lets two keys execute one proposal |
| ActionTheorems.ExactlyOneFate | app/api/execute.py:191-261 | without such crashes every stored proposal is at each moment exactly one of pending, executed, rejected, lapsed |
| ActionTheorems.WorkerSaves | app/worker/runner.py:298-335 | every step of a job's machine that touches the proposals saves a valid one under a fresh id whose expires_at is not past its Redis expiry |
| ActionTheorems.WorkerProposalsCleared | app/api/execute.py:151-172 | a proposal stored in any run of its job and sent unedited by the submitter under a fresh key, less than a proposal lifetime after the agent's answer was accepted, passes every check |
| ActionTheorems.WorkerProposalsExecute | app/api/execute.py:151-223 | such a request fails only by the target system, and each of its failures is told by its own code; the hypothesis is the moment the answer was accepted and the proposal lifetime |
| ActionTheorems.PolledActionsWereStored | app/api/research.py:167-171 | every action a poll shows was stored as a valid proposal of that job under its owner |
| ExecuteApi.Admit | app/api/execute.py:131-172 | replay, authorisation, expiry, comparison and validation: answered here or cleared, with the proposal deleted only when overdue |
| ExecuteApi.CheckPayload | app/api/execute.py:159-172 | no refusal if and only if only editable fields differ and the payload is valid; a mismatch is reported before a schema error |
| ExecuteLaws.ExecuteByPrincipal | app/api/execute.py:73-93 | with user tokens a live proposal is told as expired if and only if its principal hash is not the caller's |
| ExecuteLaws.ExecuteByConsumer | app/api/execute.py:73-93 | without user tokens, if and only if its consumer is not the caller's |
| ExecuteLaws.ExecuteMissing | app/api/execute.py:73-93 | a missing proposal gets the answer a stranger gets |
| ExecuteLaws.DeclinedDoesNothing | app/api/execute.py:151-172 | a declined request is answered with its code and leaves everything as it was |
| ExecuteLaws.OwnerExamined | app/api/execute.py:151-172 | for the owner: overdue, else a mismatch if and only if some key that is not editable differs, else what the schema says |
| ExecuteLaws.OverdueTold | app/api/execute.py:151-157 | after its `expires_at` the proposal is deleted and the caller told so |
| ExecuteLaws.FailuresTold | app/api/execute.py:175-207 | each failure of the target system has its code, and leaves proposal and key as they were |
| ExecuteLaws.SuccessTold | app/api/execute.py:191-223 | the outcome is returned, recorded under the key for the idempotency lifetime with the request's hash input, and the proposal is consumed |
| ExecuteLaws.ReplayTold | app/api/execute.py:135-149 | a replay is the recorded outcome, marked as one, under the caller's own correlation id |
| ExecuteApi.Mutate | app/api/execute.py:175-223 | check, mutation, record and consumption with every downstream outcome and crash point |
| ExecuteApi.ExecuteAction | app/api/execute.py:122-223 | the handler over the store is the protocol's step |
| ExecuteApi.ExecuteOnJira | app/api/execute.py:122-223 | on Jira: nothing is sent for a request answered early, the check alone on drift, otherwise the check and then the one mutation |
| ExecuteApi.OnlyUndriftedIssuesMutated | app/api/execute.py:177-194 | Jira is changed only when the check found the issue and its status and update stamp are the approved ones |
| Jira.Site.CheckPreconditions | app/adapters/jira.py:153-182 | the loop decides whether every known precondition holds, with 404 and other errors apart, after one request for the proposed issue |
| Jira.Site.Execute | app/adapters/jira.py:184-228 | one request or none, and what is sent carries exactly the approved issue with the approved fields or the approved text |
| Jira.CallsAsApproved | app/adapters/jira.py:184-228 | an edit is sent if and only if the payload is a valid update, with its issue and fields; a comment if and only if it is a valid one, with its issue and text; never more than one call |
| Jira.PayloadsAccepted | app/adapters/jira.py:39-46 | which payloads are valid: a non-empty issue key with a non-empty object of fields, or with a non-empty text; other action types are unsupported |
| Jira.CheckPasses | app/adapters/jira.py:153-182 | the check passes if and only if the issue is found, readable, and in the expected status and at the expected stamp, where those are given |
| Jira.NoIssueNoCheck | app/adapters/jira.py:156-158 | no request is sent if and only if the issue key is missing or falsy |
| Jira.MutationReturns | app/adapters/jira.py:191-228 | what a successful mutation reports: issue, address, and the updated field names or the comment id; an error status is a refusal |
| Jira.AgreesOutsideEditable | app/api/execute.py:104-119 | no mismatch is reported if and only if all non-editable fields compare equal, a missing key counting as null |
| Jira.CheckedIssueIsMutated | app/adapters/jira.py:153-217 | for every mutation in every run: exactly one issue is checked and exactly one call changes that same issue, with the approved fields or text; the payloads agree on everything but a comment's `body` |
| Jira.FieldsAsProposed | app/adapters/jira.py:148-151 | an update is certain to send the proposed fields as JSON values if and only if they hold no boolean, 0 or 1 |
| LooseEquality.NeverMistaken | app/api/execute.py:108-112 | Python's `==` confuses no other JSON value with this one if and only if it holds no boolean, 0 or 1 |
| LooseEquality.Mistaken | app/api/execute.py:108-112 | otherwise a different value that compares equal |
| LooseEquality.SameIsEqual | app/api/execute.py:108-112 | the same value always compares equal |
| LooseEquality.EqualBothWays | app/api/execute.py:108-112 | the comparison does not depend on the order of its sides |
| NumberLaws.NumberWorth | app/api/execute.py:108-112 | every token of the number grammar of RFC 8259 is accepted and worth what its sign, digits, fraction and exponent say |
| ReadCap.AsyncCallsCapped | app/worker/runner.py:166-192 | in every run over the wrapped tools, calls in flight on asynchronous tools, all tools together, never exceed a positive limit |
| ReadCap.OthersNeverWait | app/worker/runner.py:177-183 | a call of a synchronous tool, or of any tool without a positive limit, starts at once and never waits |
| ReadCap.OneSharedSemaphore | app/worker/runner.py:179-192 | what the semaphore goes through is one run, of the capped calls of all tools |
| ReadCap.PermitsConserved | app/worker/runner.py:179-190 | permits plus calls in flight equal the limit in every run of calls, returns, exceptions and cancellations |
| ReadCap.EveryWaiterRuns | app/worker/runner.py:185-190 | a call waiting behind p others has started once more than p calls have finished |
| ReadCap.SomeCallInFlight | app/worker/runner.py:185-190 | while a call waits another is in flight, so there is no deadlock |
| ReadCap.Semaphore.Acquire | app/worker/runner.py:186-188 | entering takes a permit or queues last |
| ReadCap.Semaphore.Release | app/worker/runner.py:186-188 | leaving, also by an exception, passes the permit to the first waiter or returns it |
| ReadCap.Semaphore.Withdraw | app/worker/runner.py:186-188 | a cancelled waiter leaves the queue; the others keep their order |
| AgentOutput.ParseAgentOutput | app/worker/runner.py:270-289 | the reverse scan equals the selection of the last candidate that parses and validates |
| AgentOutput.StripTrims | app/worker/runner.py:283-289 | stripping takes the white space off both ends, all of it, and nothing else |
| AgentOutput.FencedObjects | app/worker/runner.py:267-274 | the fence expression finds exactly the fenced objects of a rendered message, in order |
| AgentOutput.SpanNeverParses | app/worker/runner.py:275-282 | with two or more fenced objects the slice from the first `{` to the last `}` of the message is not JSON |
| AgentOutput.LastValidBlockWins | app/worker/runner.py:270-289 | the last fenced object that validates is returned, the stripped text when none does |
| AgentOutput.SingleObjectRecovered | app/worker/runner.py:275-287 | a single object is recovered exactly, even with fences in its strings |
| AgentOutput.PrintedObjectRecovered | app/worker/runner.py:275-287 | a message that is a printed dict gives back that dict |
| JsonParser.ValueLocal | app/worker/runner.py:280-282 | parsing a value depends on the characters it consumes alone |
| JsonParser.ExtraDataRejected | app/worker/runner.py:280-282 | an object's text followed by more than blanks is not JSON |
| JsonParser.EscapesRead | app/worker/runner.py:280-282 | the eight two-character escapes and what they stand for; any other is refused |
| JsonParser.UnicodeRead | app/worker/runner.py:280-282 | four hexadecimal digits name their character, outside the surrogates |
| JsonParser.PlainRead | app/worker/runner.py:280-282 | control characters must be escaped, other characters stand for themselves |
| JsonPrinter.LoadsCanonical | app/api/execute.py:65-66 | parsing a canonical text gives the value back |
| JsonPrinter.BlanksAround | app/worker/runner.py:280-282 | white space around a text does not change what it parses to |
| JsonPrinter.CanonicalInjective | app/api/execute.py:65-66 | equal canonical texts come from equal values |
| RequestHash.CanonicalBalanced | app/api/execute.py:65-66 | every canonical text is balanced: brackets close in order and outside strings |
| RequestHash.ProperPrefixDeep | app/api/execute.py:65-66 | strictly inside an object's text some bracket is open |
| RequestHash.NoProperSuffix | app/api/execute.py:69-70 | after a colon no object's text ends another's |
| RequestHash.HashInputInjective | app/api/execute.py:69-70 | equal hash inputs come from the same action id and payload, whatever colons and braces they hold |
| Redaction.SurvivorUnregistered | app/observability/logging.py:53-57 | a separate secret that is left after redaction was in the text and was not registered |
| Redaction.ReplaceFirst | app/observability/logging.py:53-57 | the text before the first occurrence stays, the occurrence becomes the marker, and the rest is treated alike |
| Redaction.ReplaceNothing | app/observability/logging.py:53-57 | a text without the secret stays as it is |
| Redaction.RedactionComplete | app/observability/logging.py:53-57 | in every order no registered secret separate from the marker is left, so later replacements recreate none |
| Redaction.TouchingSecrets | app/observability/logging.py:34-57 | only a secret with a bracket or a piece of `REDACTED` is not separate |
| Redaction.RemovedExactlyWhenSeparate | app/observability/logging.py:53-57 | a secret is removed from every text among all other secrets and orders if and only if it is separate from the marker |
| Redaction.SecretFreeUnchanged | app/observability/logging.py:53-57 | text without secrets is unchanged |
| Redaction.RedactionIdempotent | app/observability/logging.py:53-57 | redacting again in any order changes nothing when every secret is separate from the marker or is the marker |
| Redaction.IdempotentExactlyWhenHarmless | app/observability/logging.py:53-57 | redaction with a secret among such others is idempotent for every text and order if and only if the secret is one of them too |
| Redaction.SecondPass | app/observability/logging.py:53-57 | with one secret, a second pass changes a text if and only if the secret is not the marker and is left in the first result |
| Redaction.SecretRegistry.Register | app/observability/logging.py:43-45 | exactly the values that are present and at least six characters long are added |
| Redaction.SecretRegistry.Redact | app/observability/logging.py:53-57 | the loop over the set: some order decides, no separate secret is left, secret-free text is unchanged |

## Left out

- Redis commands inside `transition` and `set_progress`: they are get-then-set without a guard, so two of them can interleave command by command; here each is one step, apart from the crash before the purge.
- Overlapping execute or reject requests: no lock is held between the lookup and the delete; requests are serialised here.
- An exception no handler catches (a network error of the adapter, say): the same as a crash at that point, since only the response differs.
- A death of the worker or the queue's outer timeout on the last attempt: the safety results allow it, `DrainJob` and the closed form do not cover it.
- RedeliveryClosedForm: assumes that the record outlives the waiting, retries and runs (`Deliverable`); a record that expires under an attempt is covered by the safety results only.
- AttemptResult: likewise; `NothingToRun` and `FlaggedIsDiscarded` cover deliveries of finished and flagged jobs.
- SHA-256, AES-GCM, the key vault and the salted principal hash: the pre-hash string stands for the request hash, ciphertexts and principal hashes are opaque strings.
- NaN and Infinity, lone surrogates and the recursion and digit limits of `json`: outside RFC 8259 or resource limits.
- Numbers: kept as tokens and compared by decimal value; rounding of floats is not modelled.
- Duplicate keys: `json.loads` keeps the last, as the parser here does; the order of keys is not kept.
- Pydantic: `AgentOutput` validation is an arbitrary function of the parsed object; the two Jira schemas are spelled out.
- Error messages and details, tasks, contexts and constraints, log events and the time an API record was created.
- The agent, its harness, prompts, read tools and their backoff: an agent is any sequence of states that ends in text, an exception or the time limit; Jira's replies are any HTTP status with a status name, an update stamp or a comment id.
- `asyncio.Semaphore` itself: taken to hand permits to waiters first come, first served.
- A lifetime of zero seconds, which Redis refuses: treated as expiring at once; submit assumes a positive job lifetime.
- FastAPI routing, API keys, health endpoints, the scaffold script and the web search adapter: plumbing that would only add easy members.
- SaveJob: only for a record that is there; every caller has read it in the same step.
- ExecuteAction: the time the live calls take is one span between vetting and recording.
