/**
 What every accepted history guarantees: contiguous loops, an audit chain behind
 each loop event, final records that are final, and an acyclic forest of steps.
 */
module History {
  import opened Types
  import opened Policy
  import opened Routing
  import opened Projection

  // ---- Invariants of the recorded execution ----------------------------------

  function LoopsOf(ex: seq<ExecutionRecord>, step: ID): seq<LoopEvent> {
    if ex == [] then []
    else
      var r := ex[|ex| - 1];
      var before := LoopsOf(ex[..|ex| - 1], step);
      if r.step == step && r.loop.Some? then before + [r.loop.value] else before
  }

  /** A step's loop events are numbered 1, 2, 3, ... and nothing follows a stop. */
  predicate Contiguous(loops: seq<LoopEvent>) {
    forall k :: 0 <= k < |loops| ==> loops[k].sequence == k + 1 && (loops[k].kind == LoopStopped ==> k == |loops| - 1)
  }

  predicate NothingAfterFinished(ex: seq<ExecutionRecord>) {
    forall i, j :: 0 <= i < j < |ex| && ex[i].step == ex[j].step ==> ex[i].stage != FinishedStage
  }

  predicate RoutingsValid(ex: seq<ExecutionRecord>, workload: ID) {
    forall i :: 0 <= i < |ex| && ex[i].routing.Some? ==>
      && ValidDecision(ex[i].routing.value.decision, ex[i].routing.value.request)
      && ex[i].routing.value.request.workload == workload && ex[i].routing.value.request.step == ex[i].step
  }

  /**
   Record j is the routing decision behind loop record i: the same step and turn, and the one candidate it
   selected carries the loop event's model, passed every gate and holds verdicts for exactly this placement.
   */
  predicate Backs(ex: seq<ExecutionRecord>, workload: ID, i: int, j: int, k: int)
    requires 0 <= j < i < |ex| && ex[i].loop.Some?
  {
    && ex[j].step == ex[i].step && ex[j].turn == ex[i].turn && ex[j].routing.Some?
    && var q := ex[j].routing.value.request;
       var d := ex[j].routing.value.decision;
       && q.workload == workload && q.step == ex[i].step
       && 0 <= k < |q.candidates| && q.candidates[k].id == d.selected && q.candidates[k].model.ref == ex[i].loop.value.model
       && (forall m :: 0 <= m < |q.candidates| && q.candidates[m].id == d.selected ==> m == k)
       && Eligible(q, q.candidates[k]) && Authorized(q, q.candidates[k])
  }

  ghost predicate Audited(ex: seq<ExecutionRecord>, workload: ID, i: int)
    requires 0 <= i < |ex|
  {
    ex[i].loop.Some? && ex[i].loop.value.kind != LoopStopped ==>
      exists j, k :: 0 <= j < i && Backs(ex, workload, i, j, k)
  }

  ghost predicate SoundExecution(ex: seq<ExecutionRecord>, workload: ID) {
    && (forall step :: Contiguous(LoopsOf(ex, step)))
    && NothingAfterFinished(ex)
    && RoutingsValid(ex, workload)
    && forall i :: 0 <= i < |ex| ==> Audited(ex, workload, i)
  }

  // ---- Lemmas about the last loop event and routing record ------------------

  lemma {:induction false} LastLoopIsLast(ex: seq<ExecutionRecord>, step: ID)
    ensures LastLoop(ex, step) == (var l := LoopsOf(ex, step); if l == [] then None else Some(l[|l| - 1]))
  {
    if ex != [] { LastLoopIsLast(ex[..|ex| - 1], step); }
  }

  lemma {:induction false} LastRoutingFound(ex: seq<ExecutionRecord>, step: ID, turn: int) returns (j: int)
    requires LastRouting(ex, step, turn).Some?
    ensures 0 <= j < |ex| && ex[j].routing == LastRouting(ex, step, turn) && ex[j].step == step && ex[j].turn == turn
  {
    var r := ex[|ex| - 1];
    if r.step == step && r.routing.Some? && r.turn == turn {
      j := |ex| - 1;
    } else {
      j := LastRoutingFound(ex[..|ex| - 1], step, turn);
    }
  }

  /** One payload per record, and each stage demands its own: the payload tells the stage. */
  lemma PayloadTellsStage(env: Env, p: View, e: Event, r: ExecutionRecord)
    requires RecordOk(env, p, e, r)
    ensures r.routing.Some? ==> r.stage == RoutingStage
    ensures r.loop.Some? ==> r.stage == LoopStage
    ensures r.budget.Some? ==> r.stage == BudgetStage
    ensures r.compaction.Some? ==> r.stage == CompactionStage
  {
    hide Open, ValidClass, ValidVerdict, ValidManifest, ValidDecision, ValidScope, LastLoop, LastRouting, Carries,
      CheckpointOk, ValidModelEvent, ValidMessage, Digest, ManifestClass, ValidUsage, ValidModel;
  }

  // ---- One accepted record keeps every invariant -----------------------------

  lemma LoopsExtended(env: Env, p: View, e: Event, r: ExecutionRecord, step: ID)
    requires RecordOk(env, p, e, r) && Contiguous(LoopsOf(p.execution, step))
    ensures Contiguous(LoopsOf(p.execution + [r], step))
  {
    assert (p.execution + [r])[..|p.execution|] == p.execution;
    PayloadTellsStage(env, p, e, r);
    LastLoopIsLast(p.execution, step);
    hide Open, ValidClass, PayloadCount, Carries, CheckpointOk, ValidModelEvent, ValidMessage, LastRouting;
  }

  lemma RecordAudited(env: Env, p: View, e: Event, r: ExecutionRecord)
    requires RecordOk(env, p, e, r) && RoutingsValid(p.execution, p.workload.id)
    ensures Audited(p.execution + [r], p.workload.id, |p.execution|)
  {
    var ex := p.execution + [r];
    if r.loop.Some? && r.loop.value.kind != LoopStopped {
      PayloadTellsStage(env, p, e, r);
      var routing := LastRouting(p.execution, r.step, r.turn);
      assert Carries(routing, r.loop.value.model);
      var j := LastRoutingFound(p.execution, r.step, r.turn);
      var q, d := routing.value.request, routing.value.decision;
      assert ex[j] == p.execution[j];
      hide Open, ValidClass, PayloadCount, CheckpointOk, ValidModelEvent, ValidMessage, ValidDecision, Eligible,
           Authorized, LastRouting, LoopOk;
      var k := SelectedUnique(d, q);
      assert Backs(ex, p.workload.id, |p.execution|, j, k);
    }
  }

  lemma AuditKept(ex: seq<ExecutionRecord>, r: ExecutionRecord, workload: ID)
    requires forall i :: 0 <= i < |ex| ==> Audited(ex, workload, i)
    ensures forall i :: 0 <= i < |ex| ==> Audited(ex + [r], workload, i)
  {
    hide Eligible, Authorized;
    forall i | 0 <= i < |ex| ensures Audited(ex + [r], workload, i) {
      assert Audited(ex, workload, i);
      if ex[i].loop.Some? && ex[i].loop.value.kind != LoopStopped {
        var j, k :| 0 <= j < i && Backs(ex, workload, i, j, k);
        assert Backs(ex + [r], workload, i, j, k);
      }
    }
  }

  lemma RoutingsKept(env: Env, p: View, e: Event, r: ExecutionRecord)
    requires RecordOk(env, p, e, r) && RoutingsValid(p.execution, p.workload.id)
    ensures RoutingsValid(p.execution + [r], p.workload.id)
  {
    PayloadTellsStage(env, p, e, r);
    hide Open, ValidClass, PayloadCount, ValidDecision, LoopOk, LastLoop, LastRouting, CompactionOk, ApprovalOk,
         PolicyOk, SandboxOk;
  }

  lemma FinishKept(env: Env, p: View, e: Event, r: ExecutionRecord)
    requires RecordOk(env, p, e, r) && NothingAfterFinished(p.execution)
    ensures NothingAfterFinished(p.execution + [r])
  {
    hide StageOk, ValidClass, PayloadCount;
  }

  lemma RecordKeepsSound(env: Env, p: View, e: Event, r: ExecutionRecord)
    requires RecordOk(env, p, e, r) && SoundExecution(p.execution, p.workload.id)
    ensures SoundExecution(p.execution + [r], p.workload.id)
  {
    hide RecordOk, Contiguous, LoopsOf, Audited, RoutingsValid, NothingAfterFinished;
    forall step ensures Contiguous(LoopsOf(p.execution + [r], step)) {
      LoopsExtended(env, p, e, r, step);
    }
    RecordAudited(env, p, e, r);
    AuditKept(p.execution, r, p.workload.id);
    RoutingsKept(env, p, e, r);
    FinishKept(env, p, e, r);
  }

  // ---- The steps of an accepted history form a forest -------------------------

  /** order lists the steps so that each parent comes before its children. */
  ghost predicate ParentsFirst(steps: map<ID, Step>, order: seq<ID>) {
    && Distinct(order) && (forall s :: s in steps <==> s in order) && ZERO_ID !in steps
    && forall i :: 0 <= i < |order| && order[i] in steps ==>
         var parent := steps[order[i]].parent;
         parent == ZERO_ID || exists j :: 0 <= j < i && order[j] == parent
  }

  ghost predicate Forest(steps: map<ID, Step>) {
    exists order :: ParentsFirst(steps, order)
  }

  /** The n-th ancestor of a step, or the zero identifier above a root. */
  function Ancestor(steps: map<ID, Step>, s: ID, n: nat): ID
    decreases n
  {
    if n == 0 then s else if s in steps then Ancestor(steps, steps[s].parent, n - 1) else ZERO_ID
  }

  lemma {:induction false} AncestorEarlier(steps: map<ID, Step>, order: seq<ID>, i: nat, n: nat)
    requires ParentsFirst(steps, order) && i < |order| && n > 0
    ensures Ancestor(steps, order[i], n) == ZERO_ID || exists j :: 0 <= j < i && order[j] == Ancestor(steps, order[i], n)
    ensures n > i ==> Ancestor(steps, order[i], n) == ZERO_ID
  {
    var parent := steps[order[i]].parent;
    if n > 1 && parent != ZERO_ID {
      var j :| 0 <= j < i && order[j] == parent;
      AncestorEarlier(steps, order, j, n - 1);
    }
  }

  /** No step is its own ancestor, and every chain of parents ends at a root. */
  lemma ForestAcyclic(steps: map<ID, Step>, s: ID)
    requires Forest(steps) && s in steps
    ensures forall n: nat :: n > 0 ==> Ancestor(steps, s, n) != s
    ensures exists n: nat :: Ancestor(steps, s, n) == ZERO_ID
  {
    var order :| ParentsFirst(steps, order);
    var i :| 0 <= i < |order| && order[i] == s;
    forall n: nat | n > 0 ensures Ancestor(steps, s, n) != s {
      AncestorEarlier(steps, order, i, n);
    }
    AncestorEarlier(steps, order, i, i + 1);
  }

  lemma StepAddedKeepsForest(p: View, e: Event)
    requires Forest(p.steps) && e.draft.payload.StepCreated? && StepAdded(p, e).Some?
    ensures Forest(StepAdded(p, e).value.steps)
  {
    hide ValidRequirements, ValidBudget, ValidStepKind;
    var order :| ParentsFirst(p.steps, order);
    var s := e.draft.payload;
    var q := StepAdded(p, e).value;
    var order' := order + [s.id];
    forall i | 0 <= i < |order'| && order'[i] in q.steps
      ensures var parent := q.steps[order'[i]].parent;
              parent == ZERO_ID || exists j :: 0 <= j < i && order'[j] == parent
    {
      var parent := q.steps[order'[i]].parent;
      if i < |order| {
        assert order[i] == order'[i];
        if parent != ZERO_ID {
          var j :| 0 <= j < i && order[j] == parent;
          assert order'[j] == parent;
        }
      } else if parent != ZERO_ID {
        var j :| 0 <= j < |order| && order[j] == parent;
        assert order'[j] == parent;
      }
    }
    assert ParentsFirst(q.steps, order');
  }

  lemma StepMovedKeepsForest(p: View, e: Event)
    requires Forest(p.steps) && e.draft.payload.StepTransitioned? && StepMoved(p, e).Some?
    ensures Forest(StepMoved(p, e).value.steps)
  {
    hide CanTransitionStep;
    var order :| ParentsFirst(p.steps, order);
    assert ParentsFirst(StepMoved(p, e).value.steps, order);
  }

  // ---- Whole histories ---------------------------------------------------------

  ghost predicate Sound(p: View) {
    && Forest(p.steps) && SoundExecution(p.execution, p.workload.id)
    && (p.workload.id == ZERO_ID ==> p.workload.state == WUnknown && p.execution == [])
  }

  lemma AppliedKeepsSound(env: Env, p: View, e: Event)
    requires Sound(p) && Applied(env, p, e).Some?
    ensures Sound(Applied(env, p, e).value)
  {
    hide Forest, SoundExecution, RecordOk, Blank, ValidBudget, ValidRequirements, CanTransitionStep,
         CanTransitionWorkload, ValidEvent;
    match e.draft.payload {
      case StepCreated(_, _, _, _, _, _) => StepAddedKeepsForest(p, e);
      case StepTransitioned(_, _, _) => StepMovedKeepsForest(p, e);
      case ExecutionRecorded(r) =>
        RecordKeepsSound(env, p, e, r);
        RecordNeedsWorkload(env, p, e, r);
      case WorkloadCreated(_, _, _) => NothingRecorded(p.aggregate.id);
      case WorkloadTransitioned(_, _) =>
    }
  }

  lemma RecordNeedsWorkload(env: Env, p: View, e: Event, r: ExecutionRecord)
    requires RecordOk(env, p, e, r) && (p.workload.id == ZERO_ID ==> p.workload.state != WRunning)
    ensures p.workload.id != ZERO_ID
  {
  }

  lemma NothingRecorded(workload: ID)
    ensures SoundExecution([], workload)
  {
  }

  /** Every accepted history is sound, whatever produced it. */
  lemma {:induction false} HistorySound(env: Env, aggregate: Aggregate, events: seq<Event>)
    requires Replay(env, Fresh(aggregate), events).Some?
    ensures Sound(Replay(env, Fresh(aggregate), events).value)
  {
    hide Sound, Applied;
    if events == [] {
      FreshSound(aggregate);
    } else {
      var before := events[..|events| - 1];
      HistorySound(env, aggregate, before);
      AppliedKeepsSound(env, Replay(env, Fresh(aggregate), before).value, events[|events| - 1]);
    }
  }

  lemma FreshSound(aggregate: Aggregate)
    ensures Sound(Fresh(aggregate))
  {
    NothingRecorded(ZERO_ID);
    var order: seq<ID> := [];
    assert ParentsFirst(map[], order);
  }

  /** Once a workload is terminal no event changes its execution records or its state. */
  lemma {:induction false} TerminalFreezes(env: Env, p: View, events: seq<Event>)
    requires Terminal(p.workload.state) && p.workload.id != ZERO_ID
    requires Replay(env, p, events).Some?
    ensures Replay(env, p, events).value.execution == p.execution
    ensures Replay(env, p, events).value.workload == p.workload
  {
    if events != [] {
      TerminalFreezes(env, p, events[..|events| - 1]);
      hide StageOk, ValidClass, PayloadCount, Blank, ValidBudget, ValidRequirements, CanTransitionStep, ValidEvent;
    }
  }

  /** In an accepted history a finished step has no later record, and each step's loop is 1, 2, 3, ... up to a stop. */
  lemma HistoryOrdered(env: Env, aggregate: Aggregate, events: seq<Event>, step: ID)
    requires Replay(env, Fresh(aggregate), events).Some?
    ensures var ex := Replay(env, Fresh(aggregate), events).value.execution;
      Contiguous(LoopsOf(ex, step)) && NothingAfterFinished(ex)
  {
    HistorySound(env, aggregate, events);
  }

  /** Each loop event of an accepted history has the routing decision that authorized it behind it. */
  lemma HistoryAudited(env: Env, aggregate: Aggregate, events: seq<Event>, i: nat) returns (j: int, k: int)
    requires Replay(env, Fresh(aggregate), events).Some?
    requires i < |Replay(env, Fresh(aggregate), events).value.execution|
    requires var r := Replay(env, Fresh(aggregate), events).value.execution[i];
      r.loop.Some? && r.loop.value.kind != LoopStopped
    ensures var p := Replay(env, Fresh(aggregate), events).value;
      0 <= j < i && Backs(p.execution, p.workload.id, i, j, k)
  {
    HistorySound(env, aggregate, events);
    var p := Replay(env, Fresh(aggregate), events).value;
    hide Replay, Backs;
    assert Audited(p.execution, p.workload.id, i);
    j, k :| 0 <= j < i && Backs(p.execution, p.workload.id, i, j, k);
  }
}
