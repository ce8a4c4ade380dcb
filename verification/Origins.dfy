/**
 Where everything in a replayed view comes from: the workload from its creation and its
 last transition, each step from its own creation and its own last transition, and what
 an accepted record of each stage has been checked for (projection.go, execution_event.go).
 */
module Origins {
  import opened Types
  import opened Policy
  import opened Routing
  import opened Projection

  // ---- The workload -----------------------------------------------------------------------

  predicate MovesWorkload(events: seq<Event>, i: nat) {
    i < |events| && events[i].draft.payload.WorkloadTransitioned?
  }

  ghost predicate LastWorkloadMove(events: seq<Event>, i: nat) {
    MovesWorkload(events, i) && forall j: nat :: MovesWorkload(events, j) ==> j <= i
  }

  /** The workload is as its creation recorded it, and where its last transition brought it. */
  ghost predicate WorkloadFrom(events: seq<Event>, a: Aggregate, w: Workload) {
    && events != [] && events[0].draft.payload.WorkloadCreated?
    && (forall i :: 0 < i < |events| ==> !events[i].draft.payload.WorkloadCreated?)
    && w.id == a.id && w.createdAt == events[0].occurredAt
    && events[0].draft.payload == WorkloadCreated(w.session, w.goal, w.budget)
    && (forall i: nat :: LastWorkloadMove(events, i) ==>
          w.state == events[i].draft.payload.toWorkload && w.updatedAt == events[i].occurredAt)
    && ((forall i: nat :: !MovesWorkload(events, i)) ==> w.state == WCreated && w.updatedAt == w.createdAt)
  }

  lemma MoveSnoc(events: seq<Event>, e: Event)
    ensures forall i: nat :: MovesWorkload(events + [e], i) <==> MovesWorkload(events, i) || (i == |events| && e.draft.payload.WorkloadTransitioned?)
    ensures e.draft.payload.WorkloadTransitioned? ==> MovesWorkload(events + [e], |events|)
    ensures e.draft.payload.WorkloadTransitioned? ==> forall i: nat :: LastWorkloadMove(events + [e], i) <==> i == |events|
    ensures !e.draft.payload.WorkloadTransitioned? ==> forall i: nat :: LastWorkloadMove(events + [e], i) <==> LastWorkloadMove(events, i)
  {
    var es := events + [e];
    assert forall i: nat :: MovesWorkload(es, i) <==> MovesWorkload(events, i) || (i == |events| && e.draft.payload.WorkloadTransitioned?);
    if e.draft.payload.WorkloadTransitioned? { assert MovesWorkload(es, |events|); }
  }

  /** What one accepted event does to the workload. */
  lemma WorkloadAfter(env: Env, p: View, e: Event)
    requires Applied(env, p, e).Some?
    ensures var w, q := p.workload, Applied(env, p, e).value.workload;
      match e.draft.payload
      case WorkloadCreated(session, goal, budget) =>
        && p.version == 0
        && q.id == p.aggregate.id && q.session == session && q.goal == goal && q.budget == budget && q.state == WCreated
        && q.createdAt == e.occurredAt && q.updatedAt == e.occurredAt
      case WorkloadTransitioned(from, to) =>
        && p.workload.id != ZERO_ID && w.state == from && q.state == to && q.updatedAt == e.occurredAt && q.id == w.id
        && q.session == w.session && q.goal == w.goal && q.budget == w.budget && q.createdAt == w.createdAt
      case _ => q == w
    ensures !e.draft.payload.WorkloadCreated? && !e.draft.payload.ExecutionRecorded? ==> p.workload.id != ZERO_ID
    ensures e.draft.payload.ExecutionRecorded? ==> p.workload.state == WRunning
  {
    hide Blank, ValidBudget, ValidRequirements, CanTransitionWorkload, CanTransitionStep, StageOk, PayloadCount, ValidEvent, StepFinished;
  }

  /** The workload of every accepted history is that of its first event, in the state of its last transition. */
  lemma {:induction false} WorkloadOrigin(env: Env, a: Aggregate, events: seq<Event>)
    requires Replay(env, Fresh(a), events).Some? && events != []
    ensures WorkloadFrom(events, a, Replay(env, Fresh(a), events).value.workload)
  {
    hide Applied, MovesWorkload, LastWorkloadMove;
    var init, e := events[..|events| - 1], events[|events| - 1];
    assert events == init + [e];
    var p := Replay(env, Fresh(a), init).value;
    WorkloadAfter(env, p, e);
    MoveSnoc(init, e);
    forall i: nat | LastWorkloadMove(init, i) ensures i < |init| && events[i] == init[i] { WorkloadMovedWithin(init, i); }
    if init != [] {
      WorkloadOrigin(env, a, init);
    } else {
      NothingMoved([]);
      assert p == Fresh(a);
    }
  }

  lemma WorkloadMovedWithin(events: seq<Event>, i: nat)
    requires LastWorkloadMove(events, i)
    ensures i < |events| && MovesWorkload(events, i)
  {
  }

  lemma NothingMoved(events: seq<Event>)
    requires events == []
    ensures forall i: nat :: !MovesWorkload(events, i) && !LastWorkloadMove(events, i)
    ensures forall i: nat, id: ID :: !MovesStep(events, id, i) && !LastStepMove(events, id, i)
  {
  }

  /** Which states each state can be entered from: nothing leaves a terminal state, and everything alive can be cancelled. */
  lemma WorkloadEntries(from: WorkloadState, to: WorkloadState)
    ensures CanTransitionWorkload(from, to) ==> !Terminal(from) && from != WUnknown && to != WUnknown && to != WCreated && to != from
    ensures CanTransitionWorkload(from, WRunning) <==> from == WCreated || from == WWaiting
    ensures CanTransitionWorkload(from, WWaiting) <==> from == WRunning
    ensures CanTransitionWorkload(from, WSucceeded) <==> from == WRunning
    ensures CanTransitionWorkload(from, WFailed) <==> from == WRunning || from == WWaiting
    ensures CanTransitionWorkload(from, WCancelled) <==> !Terminal(from) && from != WUnknown
  {
  }

  /** The same for steps. */
  lemma StepEntries(from: StepState, to: StepState)
    ensures var over := from == SSucceeded || from == SFailed || from == SCancelled || from == SUnknown;
      && (CanTransitionStep(from, to) ==> !over && to != SPending && to != SUnknown && to != from)
      && (CanTransitionStep(from, SReady) <==> from == SPending || from == SLeased || from == SUncertain)
      && (CanTransitionStep(from, SLeased) <==> from == SReady)
      && (CanTransitionStep(from, SRunning) <==> from == SLeased || from == SWaitingApproval)
      && (CanTransitionStep(from, SWaitingApproval) <==> from == SRunning)
      && (CanTransitionStep(from, SUncertain) <==> from == SLeased || from == SRunning)
      && (CanTransitionStep(from, SSucceeded) <==> from == SRunning || from == SUncertain)
      && (CanTransitionStep(from, SFailed) <==> from == SReady || from == SRunning || from == SWaitingApproval || from == SUncertain)
      && (CanTransitionStep(from, SCancelled) <==> !over)
  {
  }

  // ---- The steps ----------------------------------------------------------------------------

  predicate MakesStep(events: seq<Event>, id: ID, i: nat) {
    i < |events| && events[i].draft.payload.StepCreated? && events[i].draft.payload.id == id
  }

  predicate MovesStep(events: seq<Event>, id: ID, i: nat) {
    i < |events| && events[i].draft.payload.StepTransitioned? && events[i].draft.payload.step == id
  }

  ghost predicate LastStepMove(events: seq<Event>, id: ID, i: nat) {
    MovesStep(events, id, i) && forall j: nat :: MovesStep(events, id, j) ==> j <= i
  }

  /** The step is as the event at i recorded it, and where its own last transition brought it. */
  ghost predicate StepFrom(events: seq<Event>, a: Aggregate, s: Step, i: nat)
    requires MakesStep(events, s.id, i)
  {
    var made := events[i].draft.payload;
    && s.workload == a.id && s.parent == made.parent && s.kind == made.kind && s.requirements == made.requirements
    && s.budget == made.stepBudget && s.attempt == made.attemptNumber && s.createdAt == events[i].occurredAt
    && (forall j: nat :: LastStepMove(events, s.id, j) ==> s.state == events[j].draft.payload.toStep && s.updatedAt == events[j].occurredAt)
    && ((forall j: nat :: !MovesStep(events, s.id, j)) ==> s.state == SPending && s.updatedAt == s.createdAt)
  }

  /** A step is there exactly when it was created, once, and is as its own event made it; only such a step moves. */
  ghost predicate OneStepFrom(events: seq<Event>, a: Aggregate, steps: map<ID, Step>, id: ID) {
    && (forall i: nat :: MakesStep(events, id, i) ==> id in steps && steps[id].id == id && StepFrom(events, a, steps[id], i))
    && (id in steps ==> exists i: nat :: MakesStep(events, id, i))
    && (forall i: nat, j: nat :: MakesStep(events, id, i) && MakesStep(events, id, j) ==> i == j)
    && (forall i: nat :: MovesStep(events, id, i) ==> id in steps)
  }

  /** The steps are exactly those created, each once, each from its own event. */
  ghost predicate StepsFrom(events: seq<Event>, a: Aggregate, steps: map<ID, Step>) {
    forall id :: OneStepFrom(events, a, steps, id)
  }

  lemma StepSnoc(events: seq<Event>, e: Event, id: ID)
    ensures forall i: nat :: MakesStep(events + [e], id, i) <==>
      MakesStep(events, id, i) || (i == |events| && e.draft.payload.StepCreated? && e.draft.payload.id == id)
    ensures forall i: nat :: MovesStep(events + [e], id, i) <==>
      MovesStep(events, id, i) || (i == |events| && e.draft.payload.StepTransitioned? && e.draft.payload.step == id)
    ensures e.draft.payload.StepTransitioned? && e.draft.payload.step == id ==> MovesStep(events + [e], id, |events|)
    ensures e.draft.payload.StepTransitioned? && e.draft.payload.step == id ==>
      forall i: nat :: LastStepMove(events + [e], id, i) <==> i == |events|
    ensures !(e.draft.payload.StepTransitioned? && e.draft.payload.step == id) ==>
      forall i: nat :: LastStepMove(events + [e], id, i) <==> LastStepMove(events, id, i)
  {
    var es := events + [e];
    assert forall i: nat :: MovesStep(es, id, i) <==>
      MovesStep(events, id, i) || (i == |events| && e.draft.payload.StepTransitioned? && e.draft.payload.step == id);
    if e.draft.payload.StepTransitioned? && e.draft.payload.step == id { assert MovesStep(es, id, |events|); }
  }

  /** What one accepted event does to one step. */
  lemma StepAfter(env: Env, p: View, e: Event, id: ID)
    requires Applied(env, p, e).Some?
    ensures var q := Applied(env, p, e).value;
      match e.draft.payload
      case StepCreated(made, parent, kind, requirements, budget, attempt) =>
        if made == id then
          && id !in p.steps && id in q.steps
          && q.steps[id] == Step(id, p.workload.id, parent, kind, SPending, requirements, budget, attempt, e.occurredAt, e.occurredAt)
        else (id in q.steps <==> id in p.steps) && (id in p.steps ==> q.steps[id] == p.steps[id])
      case StepTransitioned(moved, from, to) =>
        if moved == id then
          && id in p.steps && id in q.steps && p.steps[id].state == from
          && q.steps[id] == p.steps[id].(state := to, updatedAt := e.occurredAt)
        else (id in q.steps <==> id in p.steps) && (id in p.steps ==> q.steps[id] == p.steps[id])
      case _ => q.steps == p.steps
    ensures e.draft.payload.StepCreated? ==> p.workload.id != ZERO_ID
  {
    hide Blank, ValidBudget, ValidRequirements, CanTransitionWorkload, CanTransitionStep, RecordOk, ValidEvent;
  }

  /** One step of the extended history, from the shorter one. */
  lemma OneStepKept(env: Env, a: Aggregate, events: seq<Event>, e: Event, p: View, id: ID)
    requires OneStepFrom(events, a, p.steps, id) && Applied(env, p, e).Some? && (e.draft.payload.StepCreated? ==> p.workload.id == a.id)
    ensures OneStepFrom(events + [e], a, Applied(env, p, e).value.steps, id)
  {
    hide Applied, MakesStep, MovesStep, LastStepMove;
    StepAfter(env, p, e, id);
    StepSnoc(events, e, id);
    var q, es := Applied(env, p, e).value, events + [e];
    if id in q.steps {
      if id in p.steps {
        var i: nat :| MakesStep(events, id, i);
        assert MakesStep(es, id, i);
      } else {
        assert MakesStep(es, id, |events|);
      }
    }
    forall i: nat | MakesStep(es, id, i) ensures id in q.steps && q.steps[id].id == id && StepFrom(es, a, q.steps[id], i) {
      MadeWithin(es, id, i);
      if MakesStep(events, id, i) {
        MadeWithin(events, id, i);
        assert es[i] == events[i];
        forall j: nat | LastStepMove(events, id, j) ensures j < |events| && es[j] == events[j] { MovedWithin(events, id, j); }
      } else {
        forall j: nat ensures !LastStepMove(events, id, j) {
          if LastStepMove(events, id, j) { MovedWithin(events, id, j); }
        }
      }
    }
  }

  lemma MadeWithin(events: seq<Event>, id: ID, i: nat)
    requires MakesStep(events, id, i)
    ensures i < |events| && events[i].draft.payload.StepCreated? && events[i].draft.payload.id == id
  {
  }

  lemma MovedWithin(events: seq<Event>, id: ID, j: nat)
    requires LastStepMove(events, id, j)
    ensures j < |events| && MovesStep(events, id, j)
  {
  }

  /** The steps of every accepted history are exactly its created steps, each in the state of its own last transition. */
  lemma {:induction false} StepsOrigin(env: Env, a: Aggregate, events: seq<Event>)
    requires Replay(env, Fresh(a), events).Some?
    ensures StepsFrom(events, a, Replay(env, Fresh(a), events).value.steps)
  {
    hide Applied, MakesStep, MovesStep, LastStepMove, StepFrom, WorkloadFrom, OneStepFrom;
    if events != [] {
      var init, e := events[..|events| - 1], events[|events| - 1];
      assert events == init + [e];
      StepsOrigin(env, a, init);
      var p, q := Replay(env, Fresh(a), init).value, Replay(env, Fresh(a), events).value;
      if e.draft.payload.StepCreated? { NamedAfterAggregate(env, a, init, e); }
      forall id ensures OneStepFrom(events, a, q.steps, id) { OneStepKept(env, a, init, e, p, id); }
    } else {
      NothingMade(a);
    }
  }

  lemma NothingMade(a: Aggregate)
    ensures StepsFrom([], a, map[])
  {
  }

  lemma NamedAfterAggregate(env: Env, a: Aggregate, events: seq<Event>, e: Event)
    requires Replay(env, Fresh(a), events).Some? && Applied(env, Replay(env, Fresh(a), events).value, e).Some?
    requires e.draft.payload.StepCreated?
    ensures Replay(env, Fresh(a), events).value.workload.id == a.id
  {
    hide Applied;
    StepAfter(env, Replay(env, Fresh(a), events).value, e, ZERO_ID);
    if events != [] { WorkloadOrigin(env, a, events); }
  }

  // ---- The records -----------------------------------------------------------------------------

  predicate RecordAt(events: seq<Event>, i: nat) {
    i < |events| && events[i].draft.payload.ExecutionRecorded?
  }

  predicate LoopAt(events: seq<Event>, step: ID, i: nat) {
    RecordAt(events, i) && events[i].draft.payload.record.step == step && events[i].draft.payload.record.loop.Some?
  }

  /** The loop event at j is the last of its step before i. */
  ghost predicate LoopBefore(events: seq<Event>, step: ID, j: nat, i: nat) {
    j < i && LoopAt(events, step, j) && forall k: nat :: j < k < i ==> !LoopAt(events, step, k)
  }

  /** A verdict on record was given for the manifest beside it, for this workload and step, and for this very attempt. */
  ghost predicate VerdictBound(env: Env, a: Aggregate, e: Event, r: ExecutionRecord) {
    r.verdict.Some? && r.manifest.Some? &&
    var v := r.verdict.value;
    && v.manifestSHA == Digest(env, r.manifest.value) && ValidManifest(r.manifest.value)
    && v.scope.workload == a.id && v.scope.step == r.step && v.action != UnknownAction
    && !Blank(v.policy) && !Blank(v.version) && !Blank(v.rule) && !Blank(v.reason)
    && (v.scope.kind == ExecutionScope ==> v.scope.attempt == e.draft.attempt)
  }

  /** An approval on record names who decided, about content that is not secret, in this workload and step. */
  predicate ApprovalNamed(a: Aggregate, r: ExecutionRecord) {
    r.approval.Some? &&
    var x := r.approval.value;
    && x.decision.actor != "" && x.request.scope.workload == a.id && x.request.scope.step == r.step
    && ValidManifest(x.request.manifest)
    && forall i :: 0 <= i < |x.request.manifest.items| ==> x.request.manifest.items[i].level != Secret
  }

  /** A compaction on record covers earlier events only, and nothing in it is above the record's level. */
  predicate CompactionCovers(r: ExecutionRecord, sequence: nat) {
    r.compaction.Some? &&
    var c := r.compaction.value;
    && 1 <= c.firstEvent <= c.lastEvent < sequence && c.inputs != [] && ValidUsage(c.usage)
    && c.beforeTokens >= 0 && c.afterTokens >= 0 && c.summary.content != []
    && (forall j :: 0 <= j < |c.summary.content| ==> Rank(c.summary.content[j].level) <= Rank(r.level))
    && forall i, j :: 0 <= i < |c.inputs| && 0 <= j < |c.inputs[i].content| ==> Rank(c.inputs[i].content[j].level) <= Rank(r.level)
  }

  /** A checkpoint on record comes right after the tool message of its turn, and counts every turn so far. */
  ghost predicate CheckpointPlaced(events: seq<Event>, r: ExecutionRecord, i: nat) {
    r.loop.Some? && r.loop.value.checkpoint.Some? &&
    var c := r.loop.value.checkpoint.value;
    && c.modelCalls == r.turn == r.loop.value.turn && c.toolCalls >= 1 && c.stop == ToolUse && ValidUsage(c.usage)
    && exists j: nat :: LoopBefore(events, r.step, j, i) && ToolMessage(events[j].draft.payload.record.loop.value)
  }

  predicate ToolMessage(l: LoopEvent) {
    l.kind == MessageAppended && l.message.Some? && l.message.value.role == ToolRole
  }

  /** What an accepted record of each stage has been checked for. */
  ghost predicate Lawful(env: Env, a: Aggregate, events: seq<Event>, i: nat)
    requires RecordAt(events, i)
  {
    var e, r := events[i], events[i].draft.payload.record;
    && r.turn >= 0 && ValidClass(r.level) && e.draft.attempt != ZERO_ID && e.draft.correlation == a.id
    && (r.manifest.Some? ==> r.stage == PolicyStage)
    && match r.stage
       case RequestStage => ValidSHA(r.requestSHA)
       case ResumedStage => ValidSHA(r.requestSHA)
       case PolicyStage => VerdictBound(env, a, e, r)
       case ApprovalStage => ApprovalNamed(a, r)
       case CompactionStage => CompactionCovers(r, i + 1)
       case BudgetStage => r.budget.Some? && ValidSpend(r.budget.value.reserved) && r.budget.value.dimension != UnknownDimension
       case SandboxStage => r.sandbox.Some? && r.sandbox.value.backend != "" && r.sandbox.value.phase != UnknownPhase
       case CleanupStage => r.cleanup.Some? && r.cleanup.value.resource != ""
       case RoutingStage => r.routing.Some? && r.turn >= 1 && r.routing.value.request.workload == a.id && r.routing.value.request.step == r.step
       case LoopStage => r.loop.Some? && (r.loop.value.kind == Checkpoint ==> CheckpointPlaced(events, r, i))
       case FinishedStage => r.result.Some? && ValidUsage(r.result.value.usage)
       case UnknownStage => false
  }

  /** The acceptor's own search finds the last loop event of the step. */
  lemma {:induction false} SearchFindsLast(env: Env, a: Aggregate, events: seq<Event>, step: ID) returns (j: nat)
    requires Replay(env, Fresh(a), events).Some? && LastLoop(Replay(env, Fresh(a), events).value.execution, step).Some?
    ensures LoopBefore(events, step, j, |events|)
    ensures LastLoop(Replay(env, Fresh(a), events).value.execution, step) == events[j].draft.payload.record.loop
  {
    hide Applied;
    assert events != [];
    var init, e := events[..|events| - 1], events[|events| - 1];
    var p, q := Replay(env, Fresh(a), init).value, Replay(env, Fresh(a), events).value;
    ExecutionAfter(env, p, e);
    if LoopAt(events, step, |events| - 1) {
      j := |events| - 1;
    } else {
      if e.draft.payload.ExecutionRecorded? {
        assert q.execution[..|p.execution|] == p.execution && q.execution[|p.execution|] == e.draft.payload.record;
      }
      j := SearchFindsLast(env, a, init, step);
      assert events[j] == init[j];
      assert LoopAt(init, step, j);
      assert LoopAt(events, step, j);
      forall k: nat | j < k < |events| ensures !LoopAt(events, step, k) {
        if k < |init| { assert events[k] == init[k] && !LoopAt(init, step, k); }
      }
    }
  }

  lemma ExecutionAfter(env: Env, p: View, e: Event)
    requires Applied(env, p, e).Some?
    ensures Applied(env, p, e).value.execution ==
            if e.draft.payload.ExecutionRecorded? then p.execution + [e.draft.payload.record] else p.execution
  {
    hide Blank, ValidBudget, ValidRequirements, CanTransitionWorkload, CanTransitionStep, RecordOk, ValidEvent;
  }

  lemma PolicyChecked(env: Env, a: Aggregate, e: Event, r: ExecutionRecord)
    requires PolicyOk(env, a.id, e.draft.attempt, r)
    ensures VerdictBound(env, a, e, r)
  {
    hide ValidManifest, Digest, ValidScope, Blank;
  }

  lemma ApprovalChecked(a: Aggregate, r: ExecutionRecord)
    requires ApprovalOk(a.id, r)
    ensures ApprovalNamed(a, r)
  {
    hide ValidManifest, ValidScope;
  }

  lemma CompactionChecked(env: Env, r: ExecutionRecord, n: nat)
    requires CompactionOk(env, r, n)
    ensures CompactionCovers(r, n)
  {
    hide ValidModel, ValidPart;
  }

  /** Every execution record of an accepted history is lawful. */
  lemma RecordsLawful(env: Env, a: Aggregate, events: seq<Event>, i: nat)
    requires Replay(env, Fresh(a), events).Some? && RecordAt(events, i)
    ensures Lawful(env, a, events, i)
  {
    hide Applied, PolicyOk, ApprovalOk, CompactionOk, VerdictBound, ApprovalNamed, CompactionCovers, ValidSHA, ValidUsage, ValidSpend,
         PayloadCount, RoutingOk, LoopOk, ToolMessage, WorkloadFrom, LoopAt;
    var before, e := events[..i], events[i];
    assert events == (before + [e]) + events[i + 1..];
    ReplayAppend(env, Fresh(a), before + [e], events[i + 1..]);
    ReplaySnoc(env, Fresh(a), before, e);
    var p, r := Replay(env, Fresh(a), before).value, e.draft.payload.record;
    RecordChecked(env, p, e);
    if before == [] {
      EmptyView(env, a);
      assert false;
    }
    WorkloadOrigin(env, a, before);
    OriginNamed(before, a, p.workload);
    match r.stage {
      case PolicyStage => PolicyChecked(env, a, e, r);
      case ApprovalStage => ApprovalChecked(a, r);
      case CompactionStage => CompactionChecked(env, r, e.sequence);
      case RoutingStage => RoutingChecked(a.id, e.draft.attempt, r);
      case LoopStage =>
        LoopChecked(env, p, r);
        if r.loop.value.kind == Checkpoint {
          var j := SearchFindsLast(env, a, before, r.step);
          LoopBeforeWithin(before, events, r.step, j);
        }
      case _ =>
    }
  }

  lemma EmptyView(env: Env, a: Aggregate)
    ensures Replay(env, Fresh(a), []).value.workload.state == WUnknown
  {
  }

  lemma OriginNamed(events: seq<Event>, a: Aggregate, w: Workload)
    requires WorkloadFrom(events, a, w)
    ensures w.id == a.id
  {
  }

  lemma LoopBeforeWithin(before: seq<Event>, events: seq<Event>, step: ID, j: nat)
    requires LoopBefore(before, step, j, |before|) && before <= events
    ensures LoopBefore(events, step, j, |before|) && events[j] == before[j]
  {
    forall k: nat | j < k < |before| ensures !LoopAt(events, step, k) {
      assert !LoopAt(before, step, k) && events[k] == before[k];
    }
  }

  lemma RecordChecked(env: Env, p: View, e: Event)
    requires Applied(env, p, e).Some? && e.draft.payload.ExecutionRecorded?
    ensures RecordOk(env, p, e, e.draft.payload.record) && e.sequence == p.version + 1 && p.workload.state == WRunning
  {
    hide StageOk, PayloadCount, StepFinished;
  }

  lemma RoutingChecked(workload: ID, attempt: ID, r: ExecutionRecord)
    requires RoutingOk(workload, attempt, r)
    ensures r.routing.Some? && r.turn >= 1 && r.routing.value.request.workload == workload && r.routing.value.request.step == r.step
  {
    hide ValidDecision;
  }

  lemma LoopChecked(env: Env, p: View, r: ExecutionRecord)
    requires LoopOk(env, LastLoop(p.execution, r.step), LastRouting(p.execution, r.step, r.turn), r)
    ensures r.loop.Some?
    ensures r.loop.value.kind == Checkpoint ==>
      && r.loop.value.checkpoint.Some? && LastLoop(p.execution, r.step).Some? && ToolMessage(LastLoop(p.execution, r.step).value)
      && var c := r.loop.value.checkpoint.value;
         c.modelCalls == r.turn == r.loop.value.turn && c.toolCalls >= 1 && c.stop == ToolUse && ValidUsage(c.usage)
  {
    hide Carries, ValidModelEvent, ValidMessage, ValidUsage;
  }

  /** Two verdicts on record with the same manifest hash were given for the same manifest, unless the hash collides. */
  lemma VerdictsShareManifest(env: Env, a: Aggregate, events: seq<Event>, i: nat, j: nat)
    requires Replay(env, Fresh(a), events).Some? && RecordAt(events, i) && RecordAt(events, j)
    requires var x, y := events[i].draft.payload.record, events[j].draft.payload.record;
      && x.stage == PolicyStage && y.stage == PolicyStage && x.verdict.Some? && y.verdict.Some?
      && x.verdict.value.manifestSHA == y.verdict.value.manifestSHA
    requires forall k :: k == i || k == j ==>
      var m := events[k].draft.payload.record.manifest; m.Some? ==> Representable(m.value.items)
    ensures events[i].draft.payload.record.manifest == events[j].draft.payload.record.manifest || exists x, y :: x != y && env.sha256(x) == env.sha256(y)
  {
    hide Replay, Digest, ValidManifest, Representable, Blank;
    RecordsLawful(env, a, events, i);
    RecordsLawful(env, a, events, j);
    DigestPinsManifest(env, events[i].draft.payload.record.manifest.value, events[j].draft.payload.record.manifest.value);
  }
}
