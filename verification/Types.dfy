/**
 Shared vocabulary of the model: identifiers, budgets, messages, model events,
 loop events, policy and routing documents, execution records and stored events.
 */
module Types {

  datatype Option<+T> = None | Some(value: T)

  /** An identifier. The zero identifier is 0; the order of the text form is the order of nat. */
  type ID = nat
  const ZERO_ID: ID := 0

  /** A byte of a hashed or stored document. */
  newtype Byte = x: int | 0 <= x < 256

  const MAX_INT64: int := 0x7FFF_FFFF_FFFF_FFFF
  const MAX_UINT64: int := 0xFFFF_FFFF_FFFF_FFFF

  /** External functions the program calls but does not define: SHA-256 in hexadecimal and JSON syntax. */
  datatype Env = Env(sha256: seq<Byte> -> string, validJSON: string -> bool)

  // ---- Text ------------------------------------------------------------

  predicate IsSpace(c: char) {
    || '\t' <= c <= '\r' || c == ' ' || c == '\U{85}' || c == '\U{A0}' || c == '\U{1680}'
    || '\U{2000}' <= c <= '\U{200A}' || c == '\U{2028}' || c == '\U{2029}' || c == '\U{202F}'
    || c == '\U{205F}' || c == '\U{3000}'
  }

  /** strings.TrimSpace(s) == "" */
  predicate Blank(s: string) {
    forall i :: 0 <= i < |s| ==> IsSpace(s[i])
  }

  /** s is not blank and has no surrounding white space. */
  predicate Clean(s: string) {
    s != "" && !IsSpace(s[0]) && !IsSpace(s[|s| - 1])
  }

  predicate ValidSHA(s: string) {
    |s| == 64 && forall i :: 0 <= i < |s| ==> '0' <= s[i] <= '9' || 'a' <= s[i] <= 'f'
  }

  // ---- Zones, classifications, budgets ---------------------------------

  datatype Zone = NoZone | Personal | SelfCloud | ManagedCloud | UnknownZone

  predicate ValidZone(z: Zone) {
    z.Personal? || z.SelfCloud? || z.ManagedCloud?
  }

  datatype Class = Unlabelled | Public | Internal | Confidential | Secret | UnknownClass

  predicate ValidClass(c: Class) {
    c.Public? || c.Internal? || c.Confidential? || c.Secret?
  }

  function Rank(c: Class): int {
    match c
    case Public => 0
    case Internal => 1
    case Confidential => 2
    case Secret => 3
    case _ => -1
  }

  datatype Budget = Budget(
    maxSteps: int, maxInput: int, maxOutput: int, maxModelCalls: int,
    maxToolCalls: int, maxChildSteps: int, maxCost: int, maxWallTime: int)

  predicate ValidBudget(b: Budget) {
    b.maxSteps >= 0 && b.maxInput >= 0 && b.maxOutput >= 0 && b.maxModelCalls >= 0 &&
    b.maxToolCalls >= 0 && b.maxChildSteps >= 0 && b.maxCost >= 0 && b.maxWallTime >= 0
  }

  datatype Usage = Usage(input: int, output: int, cacheRead: int, cacheWrite: int, cost: int)
  const NO_USAGE := Usage(0, 0, 0, 0, 0)

  predicate ValidUsage(u: Usage) {
    u.input >= 0 && u.output >= 0 && u.cacheRead >= 0 && u.cacheWrite >= 0 && u.cost >= 0
  }

  function PlusUsage(a: Usage, b: Usage): Usage {
    Usage(a.input + b.input, a.output + b.output, a.cacheRead + b.cacheRead,
          a.cacheWrite + b.cacheWrite, a.cost + b.cost)
  }

  /** An upper bound on the spend of one model call, or a running total of such bounds. */
  datatype Spend = Spend(input: int, output: int, cost: int)
  const NO_SPEND := Spend(0, 0, 0)

  predicate ValidSpend(s: Spend) {
    s.input >= 0 && s.output >= 0 && s.cost >= 0
  }

  function Plus(a: Spend, b: Spend): Spend {
    Spend(a.input + b.input, a.output + b.output, a.cost + b.cost)
  }

  function Minus(a: Spend, b: Spend): Spend {
    Spend(a.input - b.input, a.output - b.output, a.cost - b.cost)
  }

  predicate AtMost(a: Spend, b: Spend) {
    a.input <= b.input && a.output <= b.output && a.cost <= b.cost
  }

  /** Both together are at most the limit. */
  predicate FitsWith(a: Spend, b: Spend, limit: Spend) {
    a.input + b.input <= limit.input && a.output + b.output <= limit.output && a.cost + b.cost <= limit.cost
  }

  /** The dimensions of a usage report that reservations bound; cache tokens are not among them. */
  function SpendOf(u: Usage): Spend {
    Spend(u.input, u.output, u.cost)
  }

  function Limit(b: Budget): Spend {
    Spend(b.maxInput, b.maxOutput, b.maxCost)
  }

  // ---- Messages and model events ---------------------------------------

  datatype Role = System | User | Assistant | ToolRole | UnknownRole

  datatype ContentKind = TextContent | ImageContent | DocumentContent | ArtifactContent
                       | ToolCallContent | ToolResultContent | UnknownContent

  datatype ContentPart = ContentPart(
    kind: ContentKind, level: Class, text: string, artifact: ID,
    toolCallID: string, toolName: string, json: string, isError: bool)

  datatype Message = Message(role: Role, content: seq<ContentPart>)

  predicate ValidPart(env: Env, p: ContentPart) {
    ValidClass(p.level) &&
    match p.kind
    case TextContent => true
    case ImageContent => p.artifact != ZERO_ID
    case DocumentContent => p.artifact != ZERO_ID
    case ArtifactContent => p.artifact != ZERO_ID
    case ToolCallContent => p.toolCallID != "" && p.toolName != "" && p.json != "" && env.validJSON(p.json)
    case ToolResultContent => p.toolCallID != "" && (p.json != "" ==> env.validJSON(p.json))
    case UnknownContent => false
  }

  predicate ValidMessage(env: Env, m: Message) {
    m.role != UnknownRole && |m.content| > 0 && forall i :: 0 <= i < |m.content| ==> ValidPart(env, m.content[i])
  }

  datatype ModelRef = ModelRef(provider: string, model: string)
  const NO_MODEL := ModelRef("", "")

  predicate ValidModel(m: ModelRef) {
    Clean(m.provider) && Clean(m.model)
  }

  datatype ToolCall = ToolCall(id: string, name: string, input: string)
  datatype ToolCallDelta = ToolCallDelta(index: int, id: string, name: string, input: string)

  predicate ValidDelta(d: ToolCallDelta) {
    && d.index >= 0
    && (d.id != "" || d.name != "" || d.input != "")
    && (d.id != "" ==> Clean(d.id))
    && (d.name != "" ==> Clean(d.name))
  }

  datatype StopReason = NoStop | EndTurn | ToolUse | MaxTokens | Refusal | Cancelled | UnknownStop | InvalidStop

  predicate ValidStop(s: StopReason) {
    s != NoStop && s != InvalidStop
  }

  datatype ModelError = ModelError(code: string, message: string)

  datatype ModelEventKind = StartEvent | TextDeltaEvent | ToolCallDeltaEvent | ToolCallEvent
                          | UsageEvent | StopEvent | ErrorEvent | UnknownModelEvent

  datatype ModelEvent = ModelEvent(
    kind: ModelEventKind, sequence: nat, text: string, delta: Option<ToolCallDelta>,
    call: Option<ToolCall>, usage: Option<Usage>, stop: StopReason, error: Option<ModelError>)

  /** An event of the given kind with no payload yet and no sequence number. */
  function Bare(kind: ModelEventKind): ModelEvent {
    ModelEvent(kind, 0, "", None, None, None, NoStop, None)
  }

  /** At most the payload that belongs to the event's kind is present. */
  predicate OnlyPayload(e: ModelEvent, text: bool, delta: bool, call: bool, usage: bool, stop: bool) {
    && (!text ==> e.text == "")
    && (!delta ==> e.delta.None?)
    && (!call ==> e.call.None?)
    && (!usage ==> e.usage.None?)
    && (!stop ==> e.stop.NoStop?)
    && (e.kind != ErrorEvent ==> e.error.None?)
  }

  predicate ValidCall(env: Env, c: ToolCall) {
    Clean(c.id) && Clean(c.name) && c.input != "" && env.validJSON(c.input)
  }

  predicate ValidModelEvent(env: Env, e: ModelEvent) {
    e.sequence != 0 &&
    match e.kind
    case StartEvent => OnlyPayload(e, false, false, false, false, false)
    case TextDeltaEvent => e.text != "" && OnlyPayload(e, true, false, false, false, false)
    case ToolCallDeltaEvent => e.delta.Some? && ValidDelta(e.delta.value) && OnlyPayload(e, false, true, false, false, false)
    case UsageEvent => e.usage.Some? && ValidUsage(e.usage.value) && OnlyPayload(e, false, false, false, true, false)
    case ToolCallEvent => e.call.Some? && ValidCall(env, e.call.value) && OnlyPayload(e, false, false, true, false, false)
    case StopEvent => ValidStop(e.stop) && OnlyPayload(e, false, false, false, false, true)
    case ErrorEvent =>
      e.error.Some? && Clean(e.error.value.code) && !Blank(e.error.value.message) &&
      OnlyPayload(e, false, false, false, false, false)
    case UnknownModelEvent => false
  }

  // ---- The turn loop ---------------------------------------------------

  datatype ToolOutput = ToolOutput(json: string, content: seq<ContentPart>, level: Class, isError: bool)
  datatype ToolFailure = ToolFailure(callID: string, toolName: string, code: string, message: string)

  datatype LoopResult = LoopResult(
    messages: seq<Message>, usage: Usage, stop: StopReason, modelCalls: int, toolCalls: int,
    failures: seq<ToolFailure>, budgetExceeded: string)

  datatype LoopKind = TurnStarted | ModelOutput | MessageAppended | ToolStarted | ToolCompleted
                    | LoopStopped | Checkpoint | UnknownLoopEvent

  datatype LoopEvent = LoopEvent(
    kind: LoopKind, sequence: nat, turn: int, model: ModelRef, modelEvent: Option<ModelEvent>,
    message: Option<Message>, toolCall: Option<ToolCall>, toolOutput: Option<ToolOutput>,
    checkpoint: Option<LoopResult>, failureCode: string, stop: StopReason)

  // ---- Policy documents ------------------------------------------------

  datatype ContentItem = ContentItem(sha: string, mediaType: string, size: int, level: Class)
  datatype Manifest = Manifest(items: seq<ContentItem>)

  datatype StepKind = NoStepKind | ModelTurn | ToolStep | Delegate | Transform | Verify | UnknownStepKind

  predicate ValidStepKind(k: StepKind) {
    k != NoStepKind && k != UnknownStepKind
  }

  datatype TargetKind = ModelTarget | ToolTarget | UnknownTarget
  datatype Sandbox = Sandbox(established: bool, backend: string)
  const NO_SANDBOX := Sandbox(false, "")
  datatype Target = Target(sandbox: Sandbox, kind: TargetKind, zone: Zone, model: Option<ModelRef>, toolName: string)

  datatype ScopeKind = ExecutionScope | EgressScope | UnknownScope
  datatype Scope = Scope(
    kind: ScopeKind, workload: ID, step: ID, attempt: ID, stepKind: StepKind, autonomous: bool,
    target: Option<Target>, source: Zone, destination: Zone, purpose: string, derivedFrom: string)

  datatype PolicyAction = Allow | Deny | RequireApproval | TransformAction | Redact | UnknownAction
  datatype Verdict = Verdict(
    policy: string, version: string, rule: string, action: PolicyAction, reason: string,
    manifestSHA: string, scope: Scope, transformation: string)

  datatype ApprovalRequest = ApprovalRequest(scope: Scope, manifest: Manifest)
  datatype ApprovalDecision = ApprovalDecision(approved: bool, actor: string, reason: string)
  datatype Approval = Approval(request: ApprovalRequest, decision: ApprovalDecision)

  // ---- Routing documents -----------------------------------------------

  datatype ToolUseMode = NoToolUse | NativeToolUse | ConstrainedToolUse | ParsedToolUse | UnknownToolUse

  datatype Capabilities = Capabilities(
    contextTokens: int, maxOutputTokens: int, modalities: seq<string>, toolUse: ToolUseMode,
    structuredOutput: bool)

  datatype Descriptor = Descriptor(ref: ModelRef, capabilities: Capabilities)

  datatype Requirements = Requirements(
    modalities: seq<string>, requiredTools: seq<string>, minContextTokens: int,
    allowedZones: seq<Zone>, nativeToolUse: bool, structuredOutput: bool)

  predicate ValidRequirements(r: Requirements) {
    r.minContextTokens >= 0 && forall i :: 0 <= i < |r.allowedZones| ==> ValidZone(r.allowedZones[i])
  }

  datatype Weights = Weights(
    quality: int, locality: int, availability: int, cacheAffinity: int, cost: int, latency: int, inverseLoad: int)

  /** One placement observation. Times are nanoseconds; 0 is the zero time. */
  datatype Candidate = Candidate(
    id: ID, zone: Zone, model: Descriptor, authenticated: bool, compatible: bool, healthy: bool,
    draining: bool, executionVerdict: Verdict, egressVerdict: Option<Verdict>, availableTools: seq<string>,
    availableSlots: int, availableAt: int, expectedCost: int, expectedLatency: int,
    qualityPermille: int, cacheAffinityPermille: int, loadPermille: int)

  datatype RoutingRequest = RoutingRequest(
    workload: ID, step: ID, attempt: ID, manifestSHA: string, sourceZone: Zone, autonomous: bool,
    egressPurpose: string, derivedFrom: string, requirements: Requirements, budget: Budget,
    observedAt: int, deadline: int, weights: Weights, candidates: seq<Candidate>)

  datatype VerdictProblem = InvalidVerdict | ManifestMismatch | ScopeMismatch | NotAllowed

  /** The first eligibility gate a candidate fails: its code, and what the reason names. */
  datatype Exclusion =
    | Unauthenticated | Incompatible | Unhealthy | Draining | ZoneDenied
    | ExecutionVerdictRejected(execution: VerdictProblem)
    | EgressVerdictMissing
    | EgressVerdictRejected(egress: VerdictProblem)
    | ModalityMissing(modality: string) | ToolMissing(tool: string) | ToolUseMissing | NativeToolUseMissing
    | StructuredOutputMissing | ContextInsufficient | OutputInsufficient | CostUnreservable
    | CapacityUnavailable | DeadlineUnreachable
    | UnstatedExclusion

  datatype Score = Score(
    quality: int, locality: int, availability: int, cacheAffinity: int, cost: int, latency: int,
    inverseLoad: int, total: int)

  datatype Assessment = Assessment(
    candidate: ID, zone: Zone, model: ModelRef, eligible: bool, exclusion: Option<Exclusion>, score: Option<Score>)

  datatype RoutingDecision = RoutingDecision(
    router: string, version: string, workload: ID, step: ID, attempt: ID, manifestSHA: string,
    sourceZone: Zone, autonomous: bool, egressPurpose: string, derivedFrom: string,
    observedAt: int, deadline: int, weights: Weights, assessments: seq<Assessment>, selected: ID)

  datatype RoutingRecord = RoutingRecord(request: RoutingRequest, decision: RoutingDecision)

  // ---- Execution records and events ------------------------------------

  datatype Dimension = NoDimension | InputTokens | OutputTokens | Cost | Steps | ModelCalls | ToolCalls
                     | WallTime | UnknownDimension

  datatype BudgetRecord = BudgetRecord(reserved: Spend, dimension: Dimension)

  datatype CompactionRecord = CompactionRecord(
    inputs: seq<Message>, summary: Message, excluded: seq<nat>, model: ModelRef, usage: Usage,
    beforeTokens: int, afterTokens: int, firstEvent: nat, lastEvent: nat)

  datatype SandboxPhase = Established | Denied | Teardown | ExecutionCompleted | ExecutionFailed | UnknownPhase
  datatype SandboxEvent = SandboxEvent(phase: SandboxPhase, backend: string)
  datatype CleanupRecord = CleanupRecord(failed: bool, resource: string)

  datatype Stage = PolicyStage | RoutingStage | LoopStage | FinishedStage | SandboxStage | ApprovalStage
                 | BudgetStage | CleanupStage | CompactionStage | RequestStage | ResumedStage | UnknownStage

  datatype ExecutionRecord = ExecutionRecord(
    step: ID, turn: int, stage: Stage, level: Class, manifest: Option<Manifest>, verdict: Option<Verdict>,
    routing: Option<RoutingRecord>, loop: Option<LoopEvent>, result: Option<LoopResult>,
    sandbox: Option<SandboxEvent>, approval: Option<Approval>, budget: Option<BudgetRecord>,
    cleanup: Option<CleanupRecord>, compaction: Option<CompactionRecord>, requestSHA: string,
    failureCode: string)

  /** A record with no payload yet. */
  function Blankly(step: ID, turn: int, stage: Stage, level: Class): ExecutionRecord {
    ExecutionRecord(step, turn, stage, level, None, None, None, None, None, None, None, None, None, None, "", "")
  }

  datatype WorkloadState = WCreated | WRunning | WWaiting | WSucceeded | WFailed | WCancelled | WUnknown
  datatype StepState = SPending | SReady | SLeased | SRunning | SWaitingApproval | SUncertain
                     | SSucceeded | SFailed | SCancelled | SUnknown

  datatype Aggregate = Aggregate(kind: string, id: ID)
  const WORKLOAD: string := "workload"

  predicate ValidAggregate(a: Aggregate) {
    a.kind != "" && a.id != ZERO_ID
  }

  /** A decoded payload; Undecodable stands for bytes the strict decoder rejects for a known type. */
  datatype Payload =
    | WorkloadCreated(session: ID, goal: string, workloadBudget: Budget)
    | WorkloadTransitioned(fromWorkload: WorkloadState, toWorkload: WorkloadState)
    | StepCreated(id: ID, parent: ID, kind: StepKind, requirements: Requirements, stepBudget: Budget, attemptNumber: int)
    | StepTransitioned(step: ID, fromStep: StepState, toStep: StepState)
    | ExecutionRecorded(record: ExecutionRecord)
    | Undecodable
    | UnknownType

  /** A draft before the store gives it a sequence; wellFormed is EventDraft.Validate on type, schema and JSON. */
  datatype Draft = Draft(schema: nat, correlation: ID, attempt: ID, payload: Payload, wellFormed: bool)

  /** A stored event; intact says that the recorded payload hash matches the payload. */
  datatype Event = Event(
    id: ID, aggregate: Aggregate, sequence: nat, draft: Draft, occurredAt: int, intact: bool)

  predicate ValidEvent(e: Event) {
    e.id != ZERO_ID && ValidAggregate(e.aggregate) && e.sequence != 0 && e.draft.wellFormed &&
    e.draft.schema != 0 && e.occurredAt != 0 && e.intact
  }
}
