# Fabric Runner, verified

Fabric Runner is a durable execution engine for AI workloads. Every model call and tool call is
bracketed by records appended to one event stream under version checks; a projection replays the
stream and rejects ill-formed histories; a crashed run resumes only from a committed turn boundary.
This project models that engine in Dafny and proves what it promises over every input and every run.

The files, from the vocabulary up:

* `Types` is the shared vocabulary. `Policy` is content manifests, their hashed encoding, verdicts and
  fail-closed evaluation. `Routing` is the eligibility gates and the check every routing decision must
  pass; `Router` is the deterministic router with its integer scoring.
* `Projection` is the acceptor of a workload's history, as a function and as the object the program
  updates. `History` proves what every accepted history satisfies, `Origins` where everything in its view comes
  from. `Stores` is the in-memory store, the
  SQLite store with its cached projection, and the proof that the second refines the first.
* `StreamProtocol` is the model-stream validator; `Anthropic` and `OpenAICompat` are the two stream
  translators, each drained over every sequence of decoded frames. `AnthropicGrammar` writes whole replies as
  frames and proves that a stream ends on exactly the frames a reply, whole or cut short by a failure, writes.
* `ToolBatch` is one batch of tool calls, in sequence and in parallel. `Context` is the sizing of a
  request against context windows and the making of summaries. `Placement` is the gated choice of a
  provider, as functions and as the object that writes its records. `Secrets` says what of a conversation
  with secret parts can reach a provider.
* `Engine` is one runner's side of the protocol as an object: append, reserve, restore. `Ledger` reads a
  stored history in one pass. `Protocol` is the whole engine as a step machine: any number of runners (an
  original run, duplicate submissions, crashed runs, concurrent resumers) share one stream, and policies,
  routers, approvers, estimators, models, tools, cancellation, refused appends, lost replies and crashes
  are arbitrary parameters of the steps. `Invariant`, `Writing`, `Steps`, `TurnSteps`, `ToolSteps` and
  `Safety` prove its invariant inductive; `Guarantees` reads the promises off it. `Acceptance` proves that
  the projection accepts the whole stream of every run, `Liveness` that a run whose collaborators answer
  gets through a turn, a crash and a resumption, `Transcript` that the conversation on record is what the recorded
  model and tool events say, and `Refinement` that the machine's steps are what the
  runner object and a placement do.

`Safety.Reachable` is the theorem the machine rests on: the invariant holds in every state of every
`Protocol.Behaviour`, a finite run of any interleaving of steps of any runners. It assumes only that no two of
the requests that callers present (`World.requests`) have the same digest (`Safety.Collisionless`), which is what
SHA-256 is used for; nothing is assumed about requests nobody presents, so digests of 64 hexadecimal digits, as
the program computes them and `Acceptance.HistoryAccepted` demands them, are covered.

Three things the source does differ from what one might expect of it; the model follows the code:

* With automatic compaction on, an overflowing request can be admitted as it stands. `Context.OverflowAdmittedIff`
  gives the exact case (a window one token smaller than the output cap, and a count of zero, because
  `limit*80/100` truncates toward zero); `Context.OverflowAdmitted` is a concrete instance.
* A secret message does not stop every provider stream: with automatic compaction the secret message is left
  out of a summary of the rest, and that summary's stream opens. `Secrets.SecretPartStillSummarized` is a
  concrete instance, `Secrets.SensitiveReachesIff` the exact condition, and `Secrets.SensitiveNeverPlaced`
  and `Secrets.SecretNeverSummarized` what does hold: no secret content is ever placed or summarized.
* A terminal workload freezes its execution records only; steps may still be created and moved
  (`History.TerminalFreezes`).

## Model

| member | source | states |
|---|---|---|
| Guarantees.AtMostOnce | loop/engine.go:99-226 | Over any interleaving of runners, crashes and lost replies: a turn's model stream opens at most once, each call of its batch runs at most once, a whole turn belongs to one runner, and no reservation serves two streams. |
| Guarantees.WriteAhead | loop/engine.go:134-190 | When a stream opens or a tool runs, the stream of records already holds that same runner's reservation of that bound, its turn-started event, or its tool-started event followed by an allow verdict for exactly that call. |
| Guarantees.UnsettledIsExclusive | recovery.go:58-99 | While a runner holds a reservation not settled by a checkpoint or compaction, no request is offered the history for resumption and no other runner holds one. |
| Guarantees.SoleWriter | engine.go:238-276 | At most one claimed runner stands at the end of the stream. |
| Guarantees.LoopEventsAccepted | execution_event.go:198-263 | Every loop event any runner commits, from a fresh start or after any resume, is accepted by the projection of an accepted history before it. |
| Acceptance.HistoryAccepted | execution_event.go:52-279 | The projection accepts the whole stream of every reachable state, final batch included, as long as request digests are well formed and the records of collaborators (verdicts, approvals, sandbox and cleanup records, compactions) and the final usage total pass the checks of their own stage. |
| Acceptance.OpeningAccepted | engine.go:127-152 | The opening batch of every request that passes the engine's own checks is accepted. |
| Guarantees.TurnsCountUp | loop/engine.go:99-145 | Turn-started events on record number the turns 1, 2, 3 and so on, whoever starts them. |
| Guarantees.SpendWithinBudget | lifecycle.go:131-153 | All input tokens, output tokens and cost accepted by all runners, for turns and summaries, are within the reservations on record, and those within the budget. |
| Guarantees.GuardNeverFires | loop/engine.go:275-282 | The loop's own usage guard never fires under the engine, and the remaining budget handed to routing is never negative. |
| Guarantees.CallsWithinBudget | engine.go:306-320 | Provider streams of all runners number at most the reservations, those at most MaxModelCalls, and no live runner counts more calls than that. |
| Guarantees.ToolsWithinBudget | loop/engine.go:178-190 | Tools run by all runners, over crashes and resumptions, number at most the tool-started events on record, and those at most MaxToolCalls. |
| Guarantees.TurnLoopTerminates | loop/engine.go:99-106 | A measure that stays non-negative never rises under any step of any runner and strictly falls when a turn is started and when it is checkpointed. |
| Guarantees.CheckpointsContinue | loop.go:190-204 | Whatever checkpoint a resumer is offered at any time belongs to its own request and passes the loop's validation of a continuation. |
| Guarantees.BoundaryIsReadable | recovery.go:53-99 | A live runner at a turn boundary, last in an accepted stream, is offered back with exactly its result, event number, reservations, extra calls and compaction usage. |
| Guarantees.ResumedIsCrashed | recovery.go:36-110 | After a crash at a boundary, a load and a successful claim, the new runner equals the crashed one in all of these. |
| Transcript.RecordSpeaks | loop/engine.go:130-225 | In every state of every run, every loop event on record fits the records before it: an assistant message follows a whole valid model stream and is its concatenated text and then its calls; tools start, in the order of those calls, only after the model stopped to use them; results are reported in the same order and the tool message is exactly what was reported, for every call; a checkpoint holds exactly the conversation on record; and a stop reason other than the runner's own is the model's last word. |
| Transcript.ResumedConversation | recovery.go:53-99 | Whatever run came before, a resumer is handed exactly the conversation on record: the request's messages, or the last summary used, and every message appended since. |
| Transcript.StepKeepsTranscript | loop/engine.go:99-226 | No step of any runner writes a loop event that the records before it do not bear out, and each live runner holds the conversation and the turn on record. |
| Transcript.CheckpointKept | recovery.go:58-93 | A usable checkpoint holds the conversation on record, and nothing has been said since. |
| Transcript.LoopEntryLevel | engine.go:412-425 | A loop event is recorded at the highest level of the request, of what the model or the tool put out, and of the message. |
| Transcript.ClosingReports | engine.go:166-206 | The final batch reports the loop's result with the summaries' calls and usage, names the exhausted dimension, stands at the highest level of the request and of everything said, and ends the step the way it ends the workload. |
| Refinement.ReserveStepIsReserve | lifecycle.go:120-154 | The machine's reservation step does to stream and runner exactly what the runner object's reserve does. |
| Refinement.ClaimStepIsRestore | recovery.go:103-110 | The machine's claim step does to stream and runner exactly what restore's claim does. |
| Refinement.ResumeStepsAreRestore | recovery.go:36-110 | Loading and claiming together do what restore promises: a runner at its boundary exactly when the history is readable and the claim succeeds, with the checkpoint's result and numbering, the claim on the stream and the restored totals; an unreadable history is left alone. |
| Refinement.PlacementIsSteps | engine.go:321-410 | Whatever becomes of a placement, its records are exactly what the machine's note and route steps append, in order, and on success the placed candidate's model is the one the runner is routed to. |
| Refinement.StreamOpensInMachine | engine.go:378-410 | Collaborators that place a conversation and reserve its call lead the machine, by note, route and reservation steps, to one more provider stream. |
| Liveness.FirstStreamOpens | engine.go:127-163 | When every collaborator answers, a fresh run does reach its first stream: the guarantees are not vacuous. |
| Liveness.CrashedTurnIsResumed | recovery.go:36-110 | A whole life: a run opens its stream, runs its tool and saves its turn; its stream is accepted and offered; it crashes; another runner loads, claims and goes on with the same result, numbering and reservations; outside, one stream and one tool were seen. |
| Safety.Reachable | engine.go:66-214 | The protocol invariant holds in every state of every run of any runners. |
| Safety.StepKeepsInv | engine.go:66-214 | No step of any runner breaks the invariant. |
| Safety.ClaimStanding | recovery.go:58-109 | A resumer at the end of the stream has read totals, turn count and result that balance against the whole history. |
| Safety.KeepsFinish | engine.go:205-206 | The final batch, committed or not, heard of or not, keeps the invariant. |
| Invariant.Exclusive | engine.go:256-266 | Whoever is at the end of the stream is the only runner that can hold an open reservation. |
| Invariant.OneEngaged | recovery.go:62-66 | Two runners never hold open reservations at once. |
| Invariant.BystanderKeeps | engine.go:257-266 | A runner without an open reservation is unaffected by anything others append or do. |
| Writing.CommittedUnseen | engine.go:257-266 | A commit whose reply is lost leaves the runner's invariant intact, one version behind. |
| Steps.KeepsReserve | lifecycle.go:120-154 | Reserving, refused, exhausted, lost or committed, keeps the invariant, and a granted bound leaves reservations within budget and calls. |
| Steps.SayableAdmissible | loop/engine.go:630-641 | A loop event numbered next, of the routed model and with a payload of its kind may be appended, and what it changes in the ledger. |
| TurnSteps.KeepsRelay | loop/engine.go:262-288 | Validating, recording and consuming one model event keeps the invariant. |
| TurnSteps.Banked | loop/engine.go:275-282 | Usage moves from the hold into the totals without passing the budget, and the account still balances. |
| TurnSteps.KeepsEndSummary | context.go:176-203 | Recording a summary settles its reservation, counts its call and usage once, and keeps the invariant. |
| TurnSteps.KeepsStartTurn | loop/engine.go:130-144 | Starting a turn keeps the invariant; the new turn has no effect yet. |
| ToolSteps.KeepsJudge | engine.go:560-584 | Recording the policy's verdict on one call keeps the invariant; only a recorded allow lets the call run. |
| ToolSteps.KeepsRunTool | engine.go:585-587 | Running an allowed call keeps the invariant: it had not run before. |
| ToolSteps.SaveAccepted | execution_event.go:242-255 | A checkpoint is right after the tool message, with as many model calls as turns, so the acceptor takes it. |
| ToolSteps.SaveResumable | loop/engine.go:222-225 | A checkpoint leaves reservations, calls and usage accounted for and the reservation settled. |
| Ledger.ScanIsRead | recovery.go:56-93 | The one-pass ledger holds exactly what restore's scan carries, for any digest. |
| Ledger.ReadBounds | recovery.go:58-93 | A usable checkpoint leaves no reservation open and is the last loop event. |
| Ledger.SearchesAgree | execution_event.go:70-84 | The ledger's last loop event and routing are the ones the acceptor's own search finds. |
| Ledger.ReplayKeepsRecords | execution_event.go:277-278 | An accepted history replays to exactly the recorded execution records, in order. |
| Ledger.UnderwayRuns | engine.go:127-153 | Until the final batch, an accepted history leaves workload and step running and the step unfinished. |
| Ledger.ConcludedIsTerminal | domain.go:178-189 | After the terminal transition an accepted history is never running again. |
| Protocol.Raised | engine.go:427-435 | The higher of two classifications, with unlabelled content counted as confidential; it never lowers the first. |
| Protocol.AddUsage | loop/engine.go:536-554 | The wrapped 64-bit total is never more than the sum; for 64-bit reports it is valid exactly when no field overflowed, and then it is the sum. |
| Protocol.Overrun | engine.go:484-495 | No dimension is named exactly when the usage still fits what is left of the bound. |
| Engine.AppendOutcome | engine.go:238-276 | The runner sees success exactly when it appended at its own version and the reply arrived; otherwise its version is unchanged. |
| Engine.StaleNeverCommits | engine.go:257-266 | A runner behind the stream, or with a store error, can never commit again. |
| Engine.Exceeding | lifecycle.go:131-140 | No dimension is named exactly when used plus wanted is within the limit. |
| Engine.CheckpointIsLastEffect | recovery.go:58-93 | The scan ends with a checkpoint exactly when the last loop event, reservation or compaction on record is one, and it is that one. |
| Engine.EngineRun.Append | engine.go:238-276 | The object's append refines the append function: stream, version, store error and reported success. |
| Engine.EngineRun.Reserve | lifecycle.go:120-154 | The object's reserve refines the reservation function in every branch. |
| Engine.EngineRun.BudgetFailure | lifecycle.go:115-119 | A budget failure is noted and recorded. |
| Engine.EngineRun.ScanRecords | recovery.go:56-93 | The loop over recorded history computes totals, the last usable checkpoint and the request match. |
| Engine.EngineRun.Restore | recovery.go:36-110 | A checkpoint comes back exactly when the accepted history is running, request and attempt match, the last effect is a checkpoint and the claim succeeds; otherwise an unreadable history is left alone. |
| Placement.Placer.SelectPlacement | engine.go:321-410 | Whatever policy, approver, router and store do, a candidate is placed only with an allow verdict for this manifest and scope that the policy gave or a recorded grant stands behind, likewise for egress across zones, with a valid recorded routing decision that selected it, and never for a secret manifest; and when records are stored, policies favour the candidates, the router selects validly and no approver refuses, one is placed. |
| Placement.Placer.Choose | engine.go:378-408 | The router's answer counts only if valid, is recorded before anything else, and the first use of the step is put to the approver. |
| Placement.PlacingCleared | engine.go:321-410 | The same safety, as a statement about every placement with any collaborators. |
| Placement.WillingPlaces | engine.go:378-410 | Willing collaborators do place a candidate. |
| Placement.Placer.Judge | engine.go:340-376 | One candidate's verdicts are bound to this manifest and scope and cleared by records in order. |
| Placement.Placer.Settle | lifecycle.go:101-114 | A verdict comes out as it was recorded, or as a granted approval recorded after the question. |
| Placement.Placer.Approve | lifecycle.go:57-91 | Approval needs an approver, a valid manifest that is not secret, and a recorded grant by a named actor. |
| Placement.Placer.JudgeAll | engine.go:340-377 | Every candidate is judged, in the caller's order, before any is routed. |
| Placement.ModelManifest | engine.go:625-639 | The manifest of a request carries the highest level of the workload and all parts, and exists exactly when no part needs materializing. |
| Placement.SensitiveIsSecret | engine.go:625-639 | A manifest is secret exactly when the workload or some part is. |
| Secrets.SensitiveNeverAllowed | policy.go:505-545 | No verdict on a sensitive conversation is ever an allow. |
| Secrets.SensitiveNeverPlaced | engine.go:321-410 | A sensitive conversation put to placement as it stands is never placed, whatever the collaborators do. |
| Secrets.ReservingIff | lifecycle.go:120-154 | A reservation is granted exactly for a valid estimate within the remaining budget that covers the output cap, recorded at the runner's own version. |
| Secrets.SuitedIff | routing.go:282-361 | The gates that need no verdict are passed exactly by a trusted and capable candidate. |
| Secrets.SensitiveReachesIff | context.go:78-141 | Some collaborators let a stream open in the turn of a sensitive conversation exactly when the turn asks for a summary, the workload itself is not secret, the caller offers a candidate past all gates that need no verdict, and the budget leaves room for the output cap. |
| Secrets.SecretPartStillSummarized | context.go:91-129 | A concrete conversation with a secret part whose summary is placed and reserved. |
| Secrets.SecretNeverSummarized | context.go:91-101 | No part above the workload's level is in a summary's prompt. |
| Context.ContextSize | context.go:42-66 | The count is the largest over the declared windows, and overflow and threshold hold exactly when some declared window is passed or nearly filled; a missing, failing or negative count is an error. |
| Context.CrossesIff | context.go:61-63 | A count crosses the threshold exactly when it is over 80 percent of the room, but for a zero count with room of minus one. |
| Context.OverflowCrosses | context.go:61-63 | Overflow implies threshold except for a zero count with room of minus one. |
| Context.OverflowAdmittedIff | context.go:78-86 | With automatic compaction an overflowing request is admitted as it stands in exactly that case. |
| Context.OverflowAdmitted | context.go:78-86 | A concrete such case. |
| Context.PrepareContext | context.go:67-204 | When a turn keeps its conversation, when it asks for a summary and when the summary replaces it are each exactly characterized; a replaced request fits every window, and the record tells the largest counts before and after. |
| Context.Split | context.go:91-101 | The loop splits the conversation into summary inputs and excluded positions. |
| Context.KeptPermitted | context.go:91-101 | Summary inputs are exactly the messages with no part above the workload's level. |
| Context.DroppedForbidden | context.go:96-99 | Excluded positions are exactly those of the other messages, in order. |
| Context.SummaryPartition | context.go:91-101 | Inputs and exclusions together are the whole conversation. |
| Projection.WorkloadProjection.Apply | projection.go:121-173 | An accepted event has exactly the effect of its specification, whose meaning the rows of Origins state; a rejected one changes nothing. |
| Projection.WorkloadProjection.ApplyExecutionRecorded | execution_event.go:52-279 | One scan of the recorded history and the checks of the record's stage decide acceptance. |
| Projection.WorkloadProjection.ApplyStepCreated | projection.go:233-286 | A step is added only with a new identifier, valid data and a known parent. |
| Projection.WorkloadProjection.ApplyStepTransitioned | projection.go:288-317 | A step moves only along the transition table. |
| Projection.WorkloadProjection.ApplyWorkloadCreated | projection.go:175-206 | A workload is created once, first, with valid data, and refines the creation that Origins.WorkloadOrigin pins to the event. |
| Projection.WorkloadProjection.ApplyWorkloadTransitioned | projection.go:208-231 | A workload moves only along the transition table. |
| Projection.LoadProjection | projection.go:98-117 | Loading is replaying: the whole history or nothing. |
| Projection.ReplayAppend | projection.go:98-117 | Replaying two histories in a row is replaying their concatenation. |
| Origins.WorkloadOrigin | projection.go:175-231 | In every accepted history the workload has the session, goal, budget and creation time of the first event, and the state and update time of the last workload transition. |
| Origins.StepsOrigin | projection.go:233-317 | The steps are exactly those of the step-created events, each with its own event's parent, kind, requirements, budget and attempt, and the state and update time of its own last transition. |
| Origins.WorkloadEntries | domain.go:178-189 | From which states each workload state can be entered. |
| Origins.StepEntries | domain.go:191-208 | From which states each step state can be entered. |
| Origins.RecordsLawful | execution_event.go:86-279 | Every execution record of an accepted history is what its stage promises: a verdict carries the digest of its own manifest and this workload, step and attempt; an approval names who decided, about content that is not secret; a compaction covers earlier events only and nothing above its record's level; a checkpoint comes right after its step's tool message with as many model calls as its turn; and so on for every stage. |
| Origins.VerdictsShareManifest | execution_event.go:172-190 | Two verdicts on record with the same manifest hash were given for the same manifest, unless the hash collides. |
| Origins.SearchFindsLast | execution_event.go:70-84 | The acceptor's search finds the last loop event of the step. |
| History.HistorySound | execution_event.go:52-279 | Every accepted history keeps all execution and step invariants. |
| History.HistoryOrdered | execution_event.go:198-211 | Per step, loop events are numbered 1, 2, 3 and so on, nothing follows the stop, and nothing follows the finish. |
| History.HistoryAudited | execution_event.go:188-225 | Behind every loop event but the stop is an earlier routing record of its step and turn whose unique selected candidate carries its model, passed every gate and holds allow verdicts for that manifest, workload, step, zone and model, and an egress verdict across zones. |
| History.ForestAcyclic | projection.go:256-266 | No step is its own ancestor and every chain of parents ends at a root. |
| History.TerminalFreezes | projection.go:208-231 | After a terminal state no event changes the execution records or the workload state. |
| History.AppliedKeepsSound | projection.go:121-173 | Every accepted event keeps the invariants. |
| Stores.CacheAlwaysReplay | store/sqlite/store.go:640-717 | After any interleaving of appends, failed ones included, version row, event count and cached projection version agree and the cached projection is the replay of the rows. |
| Stores.AppendKeepsCache | store/sqlite/store.go:178-288 | One append keeps that, and an append that does not succeed changes no table. |
| Stores.SqliteRefinesMemory | store/memory/store.go:27-72 | For the calls it commits, the SQLite store holds exactly the streams the memory store would. |
| Stores.CommittedOnce | store/sqlite/store.go:222-262 | A committed event is never rewritten, and each sequence number is committed once. |
| Stores.CreatedFirst | projection.go:175-182 | An accepted workload stream begins with the workload's creation. |
| Stores.MemoryStore.Append | store/memory/store.go:27-72 | The memory store's append refines its specification, with conflicts and refusals. |
| Stores.MemoryStore.Load | store/memory/store.go:74-94 | Loading gives the suffix after a sequence number. |
| Stores.SqliteStore.Append | store/sqlite/store.go:178-288 | The method is the transaction over three tables, which commits whole or rolls back whole; when it commits and what it adds are the next rows. |
| Stores.CommitsIff | store/sqlite/store.go:178-288 | A well-formed write within range commits if and only if it is made at the table's version, every draft gets an identifier and a time, the identifiers are distinct and new, and the projection accepts a workload's extended stream. |
| Stores.CommitAdds | store/sqlite/store.go:262-288 | A committed write returns its drafts, materialized, which are what one stream gains; nothing else changes. |
| Stores.AnswersAgree | store/memory/store.go:27-72 | Over all calls, committed or not: the SQLite store answers a conflict exactly when the memory store does, with the same version, and an append with the same events; it refuses what the memory store would take only out of range, for a used identifier, or for a history the projection rejects. |
| Stores.MemoryTakes | store/memory/store.go:27-72 | The memory store takes a well-formed write exactly at the stream's version with every draft stamped, and adds exactly it. |
| Acceptance.OpeningCommits | engine.go:127-152 | An empty SQLite store takes the opening batch of every request that passes the engine's own checks. |
| Stores.SqliteStore.InsertAll | store/sqlite/store.go:262-277 | The events are inserted with consecutive sequence numbers, or none is. |
| Stores.SqliteStore.UpdateProjection | store/sqlite/store.go:640-678 | The cached projection is extended by the new events, or the batch is rejected. |
| Stores.SqliteStore.Load | store/sqlite/store.go:291-350 | Loading checks the numbering row by row and gives the stored suffix. |
| Stores.SqliteStore.LoadWorkloadProjection | store/sqlite/store.go:352-400 | The loaded projection is the replay of the stored events. |
| Policy.ItemsBytesInjective | policy.go:83-106 | Item lists of any length with equal encodings are equal. |
| Policy.ManifestEncodingUnique | policy.go:83-106 | So are manifests: the encoding is uniquely decodable. |
| Policy.DigestPinsManifest | policy.go:76-106 | Equal digests mean equal manifests unless the hash collides. |
| Policy.WriteManifest | policy.go:83-106 | The field-by-field writer produces that encoding. |
| Policy.EffectiveClassification | policy.go:108-120 | The highest level of the items, and no answer for an invalid manifest. |
| Policy.SameScope | policy.go:412-438 | Scope equality leaves out no field. |
| Policy.EvaluateExecution | policy.go:505-547 | Whatever the policy answers, the verdict is bound to this manifest and scope; allow only if the policy said so validly, and never for secret content to a model. |
| Policy.EvaluateEgress | policy.go:549-582 | Likewise for egress. |
| Routing.ValidateRequest | routing.go:154-225 | One pass with a seen-set decides exactly request validity. |
| Routing.ValidateDecision | routing.go:531-610 | One pass decides exactly decision validity: canonical gate results, one selected eligible candidate or none eligible. |
| Routing.EligibleIsAuthorized | routing.go:282-382 | Passing the gates means allow verdicts for exactly this placement. |
| Routing.EligibleIff | routing.go:282-361 | A candidate is eligible exactly when it is trusted (authenticated, compatible, healthy, not draining, in an allowed zone), authorized for this placement, and capable: modalities, tools, structured output, window, output cap, cost, slots and time all fit. |
| Routing.ExclusionIsFirst | routing.go:282-361 | The stated exclusion is a gate the candidate fails, and no gate before it in the canonical order is. |
| Routing.SelectedUnique | routing.go:531-610 | A valid decision selects exactly one candidate, and it passed every gate. |
| Routing.EvaluateRouter | routing.go:612-646 | Whatever the router answers, only a valid decision gets through. |
| Router.Route | router/deterministic/router.go:19-76 | For every valid request the decision is valid, states every eligible candidate's score, and selects the unique best eligible candidate, or none exactly when none is eligible; the selected one is dominated by no other eligible candidate. |
| Router.ScaleInRange | router/deterministic/router.go:116-120 | The 128-by-64-bit division never traps within the gates, and the result is a permille. |
| Router.EligibleFitsWindow | router/deterministic/router.go:78-98 | For an eligible candidate, queue wait plus latency fits the window. |
| Router.ScoreCandidate | router/deterministic/router.go:78-114 | Every component and the weighted total lie in 0 to 1000; what they mean is stated by the next five rows. |
| Router.ScoreReads | router/deterministic/router.go:84-112 | Each observation is read in its own direction: load, cost and waiting count against a candidate, quality, cache affinity, slots up to ten and the source zone for it, from 0 at its worst to 1000 at its best. |
| Router.TotalIsMean | router/deterministic/router.go:107-112 | The total is the weighted mean of the components, rounded down. |
| Router.LoneWeight | router/deterministic/router.go:78-114 | With all the weight on one observation the total runs from 0 at its worst to 1000 at its best. |
| Router.TotalRises | router/deterministic/router.go:78-114 | A candidate at least as good in every observation never totals less, and totals more when it is better in the one that carries all the weight. |
| Router.BestUndominated | router/deterministic/router.go:47-75 | Another eligible candidate at least as good as the best in every observation does not excel, has the same total, and a later identifier. |
| Router.ChoiceUnique | router/deterministic/router.go:47-75 | At most one candidate is best. |
| Router.ChoiceSurvivesRemoval | router/deterministic/router.go:47-75 | Removing unselected candidates does not change the choice. |
| Router.ChoiceIgnoresOrder | router/deterministic/router.go:47-75 | Permuting candidates does not change the choice. |
| StreamProtocol.AcceptedIffWellFormed | provider.go:64-90 | The validator accepts a stream exactly when it is numbered from one, starts once at its head, and nothing follows a terminal event. |
| StreamProtocol.CompleteEndsTerminal | provider.go:92-103 | A stream may end exactly after its terminal event. |
| StreamProtocol.ModelStreamValidator.Accept | provider.go:64-90 | The object's accept refines the acceptance function, with its partial updates on rejection. |
| Anthropic.Drain | provider/anthropic/stream.go:75-117 | For every sequence of frames: the stream ends if and only if some prefix finishes one (AnthropicGrammar.FinishesIff says which do), with that prefix read and its stop reason delivered; the validator never objects, and text, fragments, calls and usage are those of the frames read; a stream that breaks has delivered exactly those of the frames before the break. |
| Anthropic.MessageStream.Consume | provider/anthropic/stream.go:146-276 | One frame is taken exactly when it may follow the frames before it, and then extends the stream by what it says, with at most one block open and block indexes consecutive. |
| Anthropic.MessageStream.UpdateUsage | provider/anthropic/stream.go:278-307 | Emitted increments sum to the last accepted totals; a decreasing report is an error. |
| Anthropic.MessageStream.Recv | provider/anthropic/stream.go:75-117 | Events come out in order, each once, and EOF only after a terminal event. |
| Anthropic.StopsMean | provider/anthropic/stream.go:314-328 | The loop runs tools after exactly one reason, and an unknown reason is never taken for a finished turn. |
| AnthropicGrammar.FinishesIff | provider/anthropic/stream.go:146-276 | A stream ends on exactly the frames that write a whole reply (one start, blocks numbered from zero with deltas of their own kind, usage that does not fall, valid and distinct calls, a stop reason) or a valid one so far and then an error frame. |
| AnthropicGrammar.WrittenIsRead | provider/anthropic/stream.go:146-276 | Every whole reply, written as frames and read again, ends after its last frame with its own text, calls, usage and stop reason. |
| AnthropicGrammar.WrittenViable | provider/anthropic/stream.go:146-276 | The frames that write a valid reply so far are all read, and say what the reply has. |
| AnthropicGrammar.ViableWritten | provider/anthropic/stream.go:146-276 | Frames read so far were written from a valid reply so far. |
| OpenAICompat.Drain | provider/openaicompat/stream.go:91-140 | For every sequence of chunks: the stream ends if and only if some prefix finishes one (OpenAICompat.FinishesIff says which do), with its finish reason delivered; the validator never objects, a stream that ends has delivered the text, fragments, calls and usage of the chunks read, and one that breaks what the chunks before the break came to. |
| OpenAICompat.FinishesIff | provider/openaicompat/stream.go:91-288 | A stream ends on exactly the chunks of a whole answer (orderly chunks with one finish reason, calls that complete with valid and distinct identifiers, then the end marker) or of a failed one. |
| OpenAICompat.ViableBody | provider/openaicompat/stream.go:172-248 | The chunks read so far are exactly the orderly, consistent bodies. |
| OpenAICompat.FinishesMean | provider/openaicompat/stream.go:296-310 | The loop runs tools after exactly two reasons, and an unknown reason is never taken for a finished turn. |
| OpenAICompat.ChatStream.CompleteCalls | provider/openaicompat/stream.go:250-288 | Completed calls come out in increasing index order with distinct identifiers, each the concatenation of its own fragments. |
| OpenAICompat.ChatStream.Accumulate | provider/openaicompat/stream.go:218-240 | The accumulator holds, per index, the concatenation of the fragments so far. |
| OpenAICompat.ChatStream.ConsumeChunk | provider/openaicompat/stream.go:172-248 | One chunk extends the stream by what it says, or ends it. |
| OpenAICompat.SortedKeys | provider/openaicompat/stream.go:254-258 | The indexes in increasing order, each once. |
| ToolBatch.ExecuteBatch | loop/engine.go:322-374 | Parallel execution under every completion order gives the results and middleware calls of sequential execution, and each of them means what ToolBatch.BatchMeans says. |
| ToolBatch.BatchMeans | loop/engine.go:376-471 | Each call of a batch: tool_not_found exactly when it is undeclared, tool_input_invalid exactly when it is declared and its input does not match, the handler's failure when it fails, and otherwise its answer taken through the middleware chain, in order, as far as every output is valid; a failed execution makes no middleware call. |
| ToolBatch.SuccessMeans | loop/engine.go:376-455 | A result without failure is exactly a declared tool with a matching input whose answer came through the whole chain as a valid output that meets its output schema. |
| ToolBatch.Parallel | loop/engine.go:350-373 | Any completion order, then finalization in call order, is in-order execution. |
| ToolBatch.Sequential | loop/engine.go:336-348 | The sequential loop is in-order execution. |
| ToolBatch.FinalizeToolResult | loop/engine.go:412-455 | The middleware chain, output checks and failures in order. |
| ToolBatch.ResultsSpeak | loop/engine.go:412-471 | Every final result has JSON or content. |
| ToolBatch.AssembleMessage | loop/engine.go:190-216 | The tool message holds one nonempty contiguous group of parts per call, and the failures are those of the results, both in call order. |
| ToolBatch.OutputInOrder | loop/engine.go:473-487 | A call's parts are the JSON, as a result part of the output's level, and then the content in order with only its attribution changed. |
| ToolBatch.FailuresInOrder | loop/engine.go:192-196 | A failure is reported exactly for each failed call, and those of earlier calls come first. |

## Left out

- HTTP, credentials, URL configuration and model discovery: network plumbing.
- Server-sent-event line framing: the two streams start from decoded frames.
- JSON encoding and JSON Schema: encoding is the identity on values and schema checks are arbitrary predicates; SHA-256 is an arbitrary function, free of collisions or of a fixed format only where a lemma says so.
- SQL text, pragmas, busy timeouts and schema migration: a transaction is one atomic step over three tables.
- Sandbox executors, process control, filesystem tools, telemetry and observers.
- Wall-clock time: cancellation and deadlines are arbitrary outcomes of a step; routing times are integers.
- Identifier generation: identifiers are natural numbers with their order; the identifiers, causes and times of engine-written events are fixed placeholders.
- Request translation, the baseline policy and single-branch enum validators: they would only add easy members.
- Cache tokens: reservations do not bound them, so the spend results cover input tokens, output tokens and cost.
- Protocol: policy, approval, sandbox and cleanup records written during selection, streaming and cleanup are arbitrary records of those stages; `Placement` models how the ones of a selection come about and `Refinement.PlacementIsSteps` ties the two. The text of a summary, tool outputs and tool failures are arbitrary, and so is the outcome a run is closed with.
- Protocol: 64-bit wrap-around is modelled where the loop adds usage, and in router arithmetic and time differences; other sums of tokens, calls and windows are unbounded integers.
- Protocol: the model is a superset of the program's schedules: tools of one batch may be judged and run in any order, and a batch may end early at any point.
- Acceptance.HistoryAccepted: conditional on the collaborators' own records; the program does not check them before it appends them, and a final result whose cache-token total wrapped is rejected by the projection.
- ToolBatch.ExecuteBatch: for handlers whose result depends on the call alone and without cancellation; middleware may keep state.
- Tool-call identifiers: unique within the conversation a loop holds; a summary may have replaced earlier messages, so nothing is claimed across one.
