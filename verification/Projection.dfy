/**
 The replayed state of one workload and the acceptor that admits or rejects each
 event of its history (domain.go, projection.go, execution_event.go).
 */
module Projection {
  import opened Types
  import opened Policy
  import opened Routing

  datatype Workload = Workload(
    id: ID, session: ID, goal: string, state: WorkloadState, budget: Budget, createdAt: int, updatedAt: int)
  const NO_WORKLOAD := Workload(ZERO_ID, ZERO_ID, "", WUnknown, Budget(0, 0, 0, 0, 0, 0, 0, 0), 0, 0)

  datatype Step = Step(
    id: ID, workload: ID, parent: ID, kind: StepKind, state: StepState, requirements: Requirements, budget: Budget,
    attempt: int, createdAt: int, updatedAt: int)

  /** The value of a projection at one version. */
  datatype View = View(
    aggregate: Aggregate, version: nat, workload: Workload, steps: map<ID, Step>, execution: seq<ExecutionRecord>)

  function Fresh(aggregate: Aggregate): View {
    View(aggregate, 0, NO_WORKLOAD, map[], [])
  }

  function CanTransitionWorkload(from: WorkloadState, to: WorkloadState): bool {
    match from
    case WCreated => to == WRunning || to == WCancelled
    case WRunning => to == WWaiting || to == WSucceeded || to == WFailed || to == WCancelled
    case WWaiting => to == WRunning || to == WFailed || to == WCancelled
    case _ => false
  }

  function CanTransitionStep(from: StepState, to: StepState): bool {
    match from
    case SPending => to == SReady || to == SCancelled
    case SReady => to == SLeased || to == SFailed || to == SCancelled
    case SLeased => to == SRunning || to == SReady || to == SUncertain || to == SCancelled
    case SRunning => to == SSucceeded || to == SFailed || to == SWaitingApproval || to == SUncertain || to == SCancelled
    case SWaitingApproval => to == SRunning || to == SFailed || to == SCancelled
    case SUncertain => to == SSucceeded || to == SFailed || to == SReady || to == SCancelled
    case _ => false
  }

  predicate Terminal(s: WorkloadState) {
    s == WSucceeded || s == WFailed || s == WCancelled
  }

  // ---- What the recorded history says about one step ----------------------

  /** The last loop event recorded for a step. */
  function LastLoop(ex: seq<ExecutionRecord>, step: ID): Option<LoopEvent> {
    if ex == [] then None
    else
      var r := ex[|ex| - 1];
      if r.step == step && r.loop.Some? then r.loop else LastLoop(ex[..|ex| - 1], step)
  }

  /** The last routing record of a step's turn. */
  function LastRouting(ex: seq<ExecutionRecord>, step: ID, turn: int): Option<RoutingRecord> {
    if ex == [] then None
    else
      var r := ex[|ex| - 1];
      if r.step == step && r.routing.Some? && r.turn == turn then r.routing
      else LastRouting(ex[..|ex| - 1], step, turn)
  }

  predicate StepFinished(ex: seq<ExecutionRecord>, step: ID) {
    exists i :: 0 <= i < |ex| && ex[i].step == step && ex[i].stage == FinishedStage
  }

  // ---- The checks on one execution record ----------------------------------

  function Bit(b: bool): nat {
    if b then 1 else 0
  }

  function PayloadCount(r: ExecutionRecord): nat {
    Bit(r.verdict.Some?) + Bit(r.routing.Some?) + Bit(r.loop.Some?) + Bit(r.result.Some?) + Bit(r.sandbox.Some?) +
    Bit(r.approval.Some?) + Bit(r.budget.Some?) + Bit(r.cleanup.Some?) + Bit(r.compaction.Some?) + Bit(r.requestSHA != "")
  }

  predicate PartsWithin(m: Message, level: Class) {
    forall i :: 0 <= i < |m.content| ==> Rank(m.content[i].level) <= Rank(level)
  }

  predicate CompactionOk(env: Env, r: ExecutionRecord, sequence: nat) {
    r.compaction.Some? &&
    var c := r.compaction.value;
    && c.firstEvent >= 1 && c.lastEvent >= c.firstEvent && c.lastEvent < sequence
    && c.beforeTokens >= 0 && c.afterTokens >= 0 && c.inputs != []
    && ValidModel(c.model) && ValidUsage(c.usage) && ValidMessage(env, c.summary) && PartsWithin(c.summary, r.level)
    && forall i :: 0 <= i < |c.inputs| ==> ValidMessage(env, c.inputs[i]) && PartsWithin(c.inputs[i], r.level)
  }

  predicate ApprovalOk(workload: ID, r: ExecutionRecord) {
    r.approval.Some? &&
    var a := r.approval.value;
    && a.decision.actor != "" && ValidScope(a.request.scope)
    && a.request.scope.workload == workload && a.request.scope.step == r.step
    && ValidManifest(a.request.manifest) && ManifestClass(a.request.manifest.items) != Secret
  }

  predicate PolicyOk(env: Env, workload: ID, attempt: ID, r: ExecutionRecord) {
    r.verdict.Some? && r.manifest.Some? &&
    var v := r.verdict.value;
    && ValidVerdict(v) && ValidManifest(r.manifest.value) && Digest(env, r.manifest.value) == v.manifestSHA
    && v.scope.workload == workload && v.scope.step == r.step
    && (v.scope.kind == ExecutionScope ==> v.scope.attempt == attempt)
  }

  predicate RoutingOk(workload: ID, attempt: ID, r: ExecutionRecord) {
    r.routing.Some? && r.turn >= 1 &&
    var q := r.routing.value.request;
    && ValidDecision(r.routing.value.decision, q)
    && q.workload == workload && q.step == r.step && q.attempt == attempt
  }

  predicate SandboxOk(r: ExecutionRecord) {
    r.sandbox.Some? && r.sandbox.value.backend != "" && r.sandbox.value.phase != UnknownPhase
  }

  /** The routing record selected a candidate that carries this model. */
  predicate Carries(routing: Option<RoutingRecord>, model: ModelRef) {
    routing.Some? && routing.value.decision.selected != ZERO_ID &&
    exists i :: 0 <= i < |routing.value.request.candidates| &&
      routing.value.request.candidates[i].id == routing.value.decision.selected &&
      routing.value.request.candidates[i].model.ref == model
  }

  predicate CheckpointOk(env: Env, previous: Option<LoopEvent>, l: LoopEvent) {
    && l.checkpoint.Some? && previous.Some? && previous.value.kind == MessageAppended
    && previous.value.message.Some? && previous.value.message.value.role == ToolRole
    && var c := l.checkpoint.value;
       && c.modelCalls == l.turn && c.toolCalls >= 1 && c.stop == ToolUse && ValidUsage(c.usage)
       && forall i :: 0 <= i < |c.messages| ==> ValidMessage(env, c.messages[i])
  }

  /** The checks on a loop event, given the step's previous loop event and the turn's last routing record. */
  predicate LoopOk(env: Env, previous: Option<LoopEvent>, routing: Option<RoutingRecord>, r: ExecutionRecord) {
    r.loop.Some? &&
    var l := r.loop.value;
    && l.sequence >= 1 && l.turn == r.turn
    && (previous.Some? ==> previous.value.kind != LoopStopped)
    && l.sequence == (if previous.Some? then previous.value.sequence + 1 else 1)
    && (l.kind != LoopStopped ==> Carries(routing, l.model))
    && l.kind != UnknownLoopEvent
    && (l.modelEvent.Some? ==> ValidModelEvent(env, l.modelEvent.value))
    && (l.kind == ModelOutput ==> l.modelEvent.Some?)
    && (l.kind == MessageAppended ==> l.message.Some?)
    && (l.kind == Checkpoint ==> CheckpointOk(env, previous, l))
    && (l.kind == ToolStarted || l.kind == ToolCompleted ==> l.toolCall.Some?)
    && (l.message.Some? ==> ValidMessage(env, l.message.value))
  }

  predicate StageOk(env: Env, p: View, e: Event, r: ExecutionRecord) {
    match r.stage
    case RequestStage => ValidSHA(r.requestSHA)
    case ResumedStage => ValidSHA(r.requestSHA)
    case CompactionStage => CompactionOk(env, r, e.sequence)
    case ApprovalStage => ApprovalOk(p.workload.id, r)
    case BudgetStage => r.budget.Some? && ValidSpend(r.budget.value.reserved) && r.budget.value.dimension != UnknownDimension
    case CleanupStage => r.cleanup.Some? && r.cleanup.value.resource != ""
    case SandboxStage => SandboxOk(r)
    case PolicyStage => PolicyOk(env, p.workload.id, e.draft.attempt, r)
    case RoutingStage => RoutingOk(p.workload.id, e.draft.attempt, r)
    case LoopStage => LoopOk(env, LastLoop(p.execution, r.step), LastRouting(p.execution, r.step, r.turn), r)
    case FinishedStage => r.result.Some? && ValidUsage(r.result.value.usage)
    case UnknownStage => false
  }

  /** The step is open for records, and the event belongs to this workload. */
  predicate Open(p: View, e: Event, r: ExecutionRecord) {
    && p.workload.state == WRunning
    && r.step in p.steps && p.steps[r.step].state == SRunning
    && e.draft.attempt != ZERO_ID && e.draft.correlation == p.workload.id
    && !StepFinished(p.execution, r.step)
  }

  predicate RecordOk(env: Env, p: View, e: Event, r: ExecutionRecord) {
    && Open(p, e, r) && r.turn >= 0 && ValidClass(r.level) && PayloadCount(r) == 1
    && StageOk(env, p, e, r) && (r.stage != PolicyStage ==> r.manifest.None?)
  }

  // ---- One event -------------------------------------------------------------

  /** The state after an event of each core type, or nothing when the type's own checks reject it. */
  function Created(p: View, e: Event): Option<View>
    requires e.draft.payload.WorkloadCreated?
  {
    var w := e.draft.payload;
    if p.version != 0 || p.workload.id != ZERO_ID || w.session == ZERO_ID || Blank(w.goal) || !ValidBudget(w.workloadBudget) then None
    else Some(p.(workload := Workload(p.aggregate.id, w.session, w.goal, WCreated, w.workloadBudget, e.occurredAt, e.occurredAt)))
  }

  function Transitioned(p: View, e: Event): Option<View>
    requires e.draft.payload.WorkloadTransitioned?
  {
    var t := e.draft.payload;
    if p.workload.id == ZERO_ID || t.fromWorkload == WUnknown || t.toWorkload == WUnknown ||
       t.fromWorkload != p.workload.state || !CanTransitionWorkload(p.workload.state, t.toWorkload) then None
    else Some(p.(workload := p.workload.(state := t.toWorkload, updatedAt := e.occurredAt)))
  }

  function StepAdded(p: View, e: Event): Option<View>
    requires e.draft.payload.StepCreated?
  {
    var s := e.draft.payload;
    if p.workload.id == ZERO_ID || s.id == ZERO_ID || s.id in p.steps || !ValidStepKind(s.kind) ||
       !ValidRequirements(s.requirements) || !ValidBudget(s.stepBudget) || s.attemptNumber < 1 ||
       (s.parent != ZERO_ID && s.parent !in p.steps) then None
    else
      Some(p.(steps := p.steps[s.id := Step(s.id, p.workload.id, s.parent, s.kind, SPending, s.requirements,
                                            s.stepBudget, s.attemptNumber, e.occurredAt, e.occurredAt)]))
  }

  function StepMoved(p: View, e: Event): Option<View>
    requires e.draft.payload.StepTransitioned?
  {
    var t := e.draft.payload;
    if p.workload.id == ZERO_ID || t.step == ZERO_ID || t.fromStep == SUnknown || t.toStep == SUnknown ||
       t.step !in p.steps || t.fromStep != p.steps[t.step].state || !CanTransitionStep(t.fromStep, t.toStep) then None
    else Some(p.(steps := p.steps[t.step := p.steps[t.step].(state := t.toStep, updatedAt := e.occurredAt)]))
  }

  function Recorded(env: Env, p: View, e: Event): Option<View>
    requires e.draft.payload.ExecutionRecorded?
  {
    var r := e.draft.payload.record;
    if RecordOk(env, p, e, r) then Some(p.(execution := p.execution + [r])) else None
  }

  function Dispatch(env: Env, p: View, e: Event): Option<View> {
    match e.draft.payload
    case WorkloadCreated(_, _, _) => Created(p, e)
    case WorkloadTransitioned(_, _) => Transitioned(p, e)
    case StepCreated(_, _, _, _, _, _) => StepAdded(p, e)
    case StepTransitioned(_, _, _) => StepMoved(p, e)
    case ExecutionRecorded(_) => Recorded(env, p, e)
    case Undecodable => None
    case UnknownType => None
  }

  /** Apply: an event is accepted only next in sequence, for this aggregate, at schema version one. */
  function Applied(env: Env, p: View, e: Event): (q: Option<View>)
    ensures q.Some? ==> q.value.version == p.version + 1 && q.value.aggregate == p.aggregate
  {
    if !ValidAggregate(p.aggregate) || p.aggregate.kind != WORKLOAD || !ValidEvent(e) || e.aggregate != p.aggregate ||
       e.sequence != p.version + 1 || e.draft.schema != 1 then None
    else
      var q := Dispatch(env, p, e);
      if q.None? then None else Some(q.value.(version := e.sequence))
  }

  /** The state after a history, or nothing when some event of it is rejected. */
  function Replay(env: Env, p: View, events: seq<Event>): (q: Option<View>)
    ensures q.Some? ==> q.value.version == p.version + |events| && q.value.aggregate == p.aggregate
  {
    if events == [] then Some(p)
    else
      var before := Replay(env, p, events[..|events| - 1]);
      if before.None? then None else Applied(env, before.value, events[|events| - 1])
  }

  lemma {:induction false} ReplaySnoc(env: Env, p: View, events: seq<Event>, e: Event)
    ensures Replay(env, p, events + [e]) ==
            (if Replay(env, p, events).None? then None else Applied(env, Replay(env, p, events).value, e))
  {
    assert (events + [e])[..|events|] == events;
  }

  lemma {:induction false} ReplayAppend(env: Env, p: View, a: seq<Event>, b: seq<Event>)
    ensures Replay(env, p, a + b) ==
            (if Replay(env, p, a).None? then None else Replay(env, Replay(env, p, a).value, b))
  {
    if b == [] {
      assert a + b == a;
    } else {
      var init, last := b[..|b| - 1], b[|b| - 1];
      assert a + b == (a + init) + [last] && b == init + [last];
      ReplaySnoc(env, p, a + init, last);
      ReplayAppend(env, p, a, init);
      if Replay(env, p, a).Some? { ReplaySnoc(env, Replay(env, p, a).value, init, last); }
    }
  }

  // ---- The object the program updates ---------------------------------------

  class WorkloadProjection {
    var aggregate: Aggregate
    var version: nat
    var workload: Workload
    var steps: map<ID, Step>
    var execution: seq<ExecutionRecord>

    function Value(): View
      reads this
    {
      View(aggregate, version, workload, steps, execution)
    }

    constructor (aggregate: Aggregate)
      ensures Value() == Fresh(aggregate)
    {
      this.aggregate := aggregate;
      version := 0;
      workload := NO_WORKLOAD;
      steps := map[];
      execution := [];
    }

    /** A stored document read back. */
    constructor FromView(v: View)
      ensures Value() == v
    {
      aggregate, version, workload, steps, execution := v.aggregate, v.version, v.workload, v.steps, v.execution;
    }

    /** Apply: the accepted event's effect, or no change at all. */
    method Apply(env: Env, e: Event) returns (ok: bool)
      modifies this
      ensures ok <==> Applied(env, old(Value()), e).Some?
      ensures ok ==> Value() == Applied(env, old(Value()), e).value
      ensures !ok ==> Value() == old(Value())
    {
      hide Blank, ValidBudget, ValidRequirements, RecordOk, ValidEvent, CanTransitionWorkload, CanTransitionStep;
      if !ValidAggregate(aggregate) || aggregate.kind != WORKLOAD || !ValidEvent(e) || e.aggregate != aggregate ||
         e.sequence != version + 1 || e.draft.schema != 1 {
        return false;
      }
      match e.draft.payload {
        case WorkloadCreated(_, _, _) => ok := ApplyWorkloadCreated(e);
        case WorkloadTransitioned(_, _) => ok := ApplyWorkloadTransitioned(e);
        case StepCreated(_, _, _, _, _, _) => ok := ApplyStepCreated(e);
        case StepTransitioned(_, _, _) => ok := ApplyStepTransitioned(e);
        case ExecutionRecorded(_) => ok := ApplyExecutionRecorded(env, e);
        case Undecodable => ok := false;
        case UnknownType => ok := false;
      }
      if ok { version := e.sequence; }
    }

    method ApplyWorkloadCreated(e: Event) returns (ok: bool)
      requires e.draft.payload.WorkloadCreated?
      modifies this`workload
      ensures ok <==> Created(old(Value()), e).Some?
      ensures Value() == if ok then Created(old(Value()), e).value else old(Value())
    {
      var w := e.draft.payload;
      if version != 0 || workload.id != ZERO_ID { return false; }
      if w.session == ZERO_ID || Blank(w.goal) || !ValidBudget(w.workloadBudget) { return false; }
      workload := Workload(aggregate.id, w.session, w.goal, WCreated, w.workloadBudget, e.occurredAt, e.occurredAt);
      return true;
    }

    method ApplyWorkloadTransitioned(e: Event) returns (ok: bool)
      requires e.draft.payload.WorkloadTransitioned?
      modifies this`workload
      ensures ok <==> Transitioned(old(Value()), e).Some?
      ensures Value() == if ok then Transitioned(old(Value()), e).value else old(Value())
    {
      var t := e.draft.payload;
      if workload.id == ZERO_ID || t.fromWorkload == WUnknown || t.toWorkload == WUnknown { return false; }
      if t.fromWorkload != workload.state { return false; }
      if !CanTransitionWorkload(workload.state, t.toWorkload) { return false; }
      workload := workload.(state := t.toWorkload, updatedAt := e.occurredAt);
      return true;
    }

    method ApplyStepCreated(e: Event) returns (ok: bool)
      requires e.draft.payload.StepCreated?
      modifies this`steps
      ensures ok <==> StepAdded(old(Value()), e).Some?
      ensures Value() == if ok then StepAdded(old(Value()), e).value else old(Value())
    {
      var s := e.draft.payload;
      if workload.id == ZERO_ID || s.id == ZERO_ID || s.id in steps { return false; }
      if !ValidStepKind(s.kind) || !ValidRequirements(s.requirements) || !ValidBudget(s.stepBudget) { return false; }
      if s.attemptNumber < 1 { return false; }
      if s.parent != ZERO_ID && s.parent !in steps { return false; }
      var step := Step(s.id, workload.id, s.parent, s.kind, SPending, s.requirements, s.stepBudget, s.attemptNumber,
                       e.occurredAt, e.occurredAt);
      steps := steps[s.id := step];
      return true;
    }

    method ApplyStepTransitioned(e: Event) returns (ok: bool)
      requires e.draft.payload.StepTransitioned?
      modifies this`steps
      ensures ok <==> StepMoved(old(Value()), e).Some?
      ensures Value() == if ok then StepMoved(old(Value()), e).value else old(Value())
    {
      var t := e.draft.payload;
      if workload.id == ZERO_ID || t.step == ZERO_ID || t.fromStep == SUnknown || t.toStep == SUnknown { return false; }
      if t.step !in steps { return false; }
      var step := steps[t.step];
      if t.fromStep != step.state || !CanTransitionStep(step.state, t.toStep) { return false; }
      steps := steps[t.step := step.(state := t.toStep, updatedAt := e.occurredAt)];
      return true;
    }

    /** applyExecutionRecorded: one scan of the recorded history, then the checks of the record's stage. */
    method ApplyExecutionRecorded(env: Env, e: Event) returns (ok: bool)
      requires e.draft.payload.ExecutionRecorded?
      modifies this`execution
      ensures ok <==> Recorded(env, old(Value()), e).Some?
      ensures Value() == if ok then Recorded(env, old(Value()), e).value else old(Value())
    {
      hide ValidClass, PayloadCount, CompactionOk, ApprovalOk, PolicyOk, RoutingOk, SandboxOk, LoopOk, ValidSHA,
           ValidUsage, ValidSpend;
      var r := e.draft.payload.record;
      if workload.state != WRunning { return false; }
      if r.step !in steps || steps[r.step].state != SRunning { return false; }
      if e.draft.attempt == ZERO_ID || e.draft.correlation != workload.id { return false; }
      var previousLoop: Option<LoopEvent>, lastRouting: Option<RoutingRecord> := None, None;
      for k := 0 to |execution|
        invariant execution == old(execution)
        invariant previousLoop == LastLoop(execution[..k], r.step)
        invariant lastRouting == LastRouting(execution[..k], r.step, r.turn)
        invariant !StepFinished(execution[..k], r.step)
      {
        var previous := execution[k];
        assert execution[..k + 1][..k] == execution[..k] && execution[..k + 1][k] == previous;
        if previous.step == r.step {
          if previous.stage == FinishedStage {
            assert StepFinished(execution, r.step);
            return false;
          }
          if previous.loop.Some? { previousLoop := previous.loop; }
          if previous.routing.Some? && previous.turn == r.turn { lastRouting := previous.routing; }
        }
      }
      assert execution[..|execution|] == execution;
      if r.turn < 0 || !ValidClass(r.level) || PayloadCount(r) != 1 { return false; }
      match r.stage {
        case RequestStage => ok := ValidSHA(r.requestSHA);
        case ResumedStage => ok := ValidSHA(r.requestSHA);
        case CompactionStage => ok := CompactionOk(env, r, e.sequence);
        case ApprovalStage => ok := ApprovalOk(workload.id, r);
        case BudgetStage =>
          ok := r.budget.Some? && ValidSpend(r.budget.value.reserved) && r.budget.value.dimension != UnknownDimension;
        case CleanupStage => ok := r.cleanup.Some? && r.cleanup.value.resource != "";
        case SandboxStage => ok := SandboxOk(r);
        case PolicyStage => ok := PolicyOk(env, workload.id, e.draft.attempt, r);
        case RoutingStage => ok := RoutingOk(workload.id, e.draft.attempt, r);
        case LoopStage => ok := LoopOk(env, previousLoop, lastRouting, r);
        case FinishedStage => ok := r.result.Some? && ValidUsage(r.result.value.usage);
        case UnknownStage => ok := false;
      }
      if !ok || (r.stage != PolicyStage && r.manifest.Some?) { return false; }
      execution := execution + [r];
      return true;
    }
  }

  /** LoadWorkloadProjection: replay a whole history through the object. */
  method LoadProjection(env: Env, aggregate: Aggregate, events: seq<Event>) returns (v: Option<View>)
    ensures v == Replay(env, Fresh(aggregate), events)
  {
    hide Applied;
    var p := new WorkloadProjection(aggregate);
    for k := 0 to |events|
      invariant Replay(env, Fresh(aggregate), events[..k]) == Some(p.Value())
    {
      ReplaySnoc(env, Fresh(aggregate), events[..k], events[k]);
      assert events[..k + 1] == events[..k] + [events[k]];
      var ok := p.Apply(env, events[k]);
      if !ok {
        ReplayAppend(env, Fresh(aggregate), events[..k + 1], events[k + 1..]);
        assert events == events[..k + 1] + events[k + 1..];
        return None;
      }
    }
    assert events[..|events|] == events;
    return Some(p.Value());
  }
}
