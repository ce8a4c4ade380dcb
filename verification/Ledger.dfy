/**
 What a stored history says about the protocol: one pass over the events that keeps
 the totals, the last loop event, the last routing and the reservation still open.
 Ties that pass to the scan of restore and to the acceptor's own searches.
 */
module Ledger {
  import opened Types
  import opened Projection
  import opened Engine

  datatype Placement = Placement(turn: int, routing: RoutingRecord)

  /** How much of the final batch has been written: none, the finished record, the step's end, or the workload's too. */
  datatype Phase = Underway | Concluding | Settled | Concluded

  /**
   pendingAt is the index of the last reservation whose call has not been settled by a checkpoint or a compaction;
   intents counts the tool-started events.
   */
  datatype Ledger = Ledger(
    reserved: Spend, extraCalls: nat, compactionUsage: Usage, checkpoint: Option<LoopEvent>, request: Option<string>,
    lastLoop: Option<LoopEvent>, routing: Option<Placement>, lastTurn: int, reservations: nat, pendingAt: Option<nat>,
    intents: nat, phase: Phase)
  const EMPTY := Ledger(NO_SPEND, 0, NO_USAGE, None, None, None, None, 0, 0, None, 0, Underway)

  function Entered(l: Ledger, i: nat, r: ExecutionRecord): Ledger {
    Ledger(
      if r.budget.Some? then Plus(l.reserved, r.budget.value.reserved) else l.reserved,
      if r.compaction.Some? then l.extraCalls + 1 else l.extraCalls,
      if r.compaction.Some? then PlusUsage(l.compactionUsage, r.compaction.value.usage) else l.compactionUsage,
      if IsCheckpoint(r) then r.loop else if IsEffect(r) then None else l.checkpoint,
      if r.stage == RequestStage then Some(r.requestSHA) else l.request,
      if r.loop.Some? then r.loop else l.lastLoop,
      if r.routing.Some? then Some(Placement(r.turn, r.routing.value)) else l.routing,
      if r.loop.Some? && r.loop.value.kind == TurnStarted then r.loop.value.turn else l.lastTurn,
      if IsReservation(r) then l.reservations + 1 else l.reservations,
      if r.compaction.Some? || IsCheckpoint(r) then None else if IsReservation(r) then Some(i) else l.pendingAt,
      if r.loop.Some? && r.loop.value.kind == ToolStarted then l.intents + 1 else l.intents,
      if r.stage == FinishedStage && l.phase == Underway then Concluding else l.phase)
  }

  function Noted(l: Ledger, i: nat, e: Event): Ledger {
    match e.draft.payload
    case ExecutionRecorded(r) => Entered(l, i, r)
    case StepTransitioned(_, from, _) => if from == SRunning && l.phase != Concluded then l.(phase := Settled) else l
    case WorkloadTransitioned(from, to) =>
      if from != WRunning then l
      else if Terminal(to) then l.(phase := Concluded)
      else if l.phase == Underway then l.(phase := Concluding)
      else l
    case _ => l
  }

  function Read(log: seq<Event>): Ledger {
    if log == [] then EMPTY else Noted(Read(log[..|log| - 1]), |log| - 1, log[|log| - 1])
  }

  lemma ReadSnoc(log: seq<Event>, e: Event)
    ensures Read(log + [e]) == Noted(Read(log), |log|, e)
  {
    assert (log + [e])[..|log|] == log;
  }

  /** A record that leaves the ledger as it is: policy, approval, sandbox, cleanup and resumption. */
  predicate Quiet(r: ExecutionRecord) {
    r.budget.None? && r.compaction.None? && r.loop.None? && r.routing.None? && r.stage != RequestStage && r.stage != FinishedStage
  }

  /** An open reservation is an index of the history, and a usable checkpoint leaves none open. */
  lemma {:induction false} ReadBounds(log: seq<Event>)
    ensures Read(log).pendingAt.Some? ==> Read(log).pendingAt.value < |log|
    ensures Read(log).checkpoint.Some? ==> Read(log).pendingAt.None?
    ensures Read(log).checkpoint.Some? ==> Read(log).lastLoop == Read(log).checkpoint && Read(log).checkpoint.value.kind == Checkpoint
  {
    if log != [] { ReadBounds(log[..|log| - 1]); }
  }

  // ---- The records of a history ---------------------------------------------------

  function Execs(log: seq<Event>): seq<ExecutionRecord> {
    if log == [] then []
    else
      var p := log[|log| - 1].draft.payload;
      if p.ExecutionRecorded? then Execs(log[..|log| - 1]) + [p.record] else Execs(log[..|log| - 1])
  }

  /** An accepted history is replayed to a view whose execution records are exactly the recorded ones, in order. */
  lemma {:induction false} ReplayKeepsRecords(env: Env, a: Aggregate, log: seq<Event>)
    requires Replay(env, Fresh(a), log).Some?
    ensures Replay(env, Fresh(a), log).value.execution == Execs(log)
  {
    hide RecordOk, ValidEvent, ValidAggregate, ValidRequirements, ValidBudget, Blank, CanTransitionWorkload,
         CanTransitionStep;
    if log != [] { ReplayKeepsRecords(env, a, log[..|log| - 1]); }
  }

  /** The ledger holds what restore would carry out of its scan, for any request digest. */
  lemma {:induction false} ScanIsRead(log: seq<Event>, digest: string)
    ensures Scan(Execs(log), digest) ==
            var l := Read(log); Carry(l.reserved, l.extraCalls, l.compactionUsage, l.checkpoint, l.request == Some(digest))
  {
    if log != [] {
      var init, p := log[..|log| - 1], log[|log| - 1].draft.payload;
      ScanIsRead(init, digest);
      if p.ExecutionRecorded? { ScanSnoc(Execs(init), p.record, digest); }
    }
  }

  lemma ScanSnoc(rs: seq<ExecutionRecord>, r: ExecutionRecord, digest: string)
    ensures Scan(rs + [r], digest) == Scanned(Scan(rs, digest), r, digest)
  {
    assert (rs + [r])[..|rs|] == rs;
  }

  predicate OneStep(log: seq<Event>, step: ID) {
    forall i :: 0 <= i < |log| && log[i].draft.payload.ExecutionRecorded? ==> log[i].draft.payload.record.step == step
  }

  function RoutingFor(l: Ledger, turn: int): Option<RoutingRecord> {
    if l.routing.Some? && l.routing.value.turn == turn then Some(l.routing.value.routing) else None
  }

  /** With one step on record, the ledger's last loop event and routing are the ones the acceptor finds. */
  lemma {:induction false} SearchesAgree(log: seq<Event>, step: ID, turn: int)
    requires OneStep(log, step)
    ensures LastLoop(Execs(log), step) == Read(log).lastLoop
    ensures RoutingFor(Read(log), turn).Some? ==> LastRouting(Execs(log), step, turn) == RoutingFor(Read(log), turn)
  {
    if log != [] {
      var init, p := log[..|log| - 1], log[|log| - 1].draft.payload;
      assert forall i :: 0 <= i < |init| ==> init[i] == log[i];
      SearchesAgree(init, step, turn);
      if p.ExecutionRecorded? {
        assert log[|log| - 1].draft.payload.record.step == step;
        assert Execs(log)[..|Execs(init)|] == Execs(init) && Execs(log)[|Execs(init)|] == p.record;
      }
    }
  }

  /** What Readable hands to a resumer, read off the ledger. */
  lemma ReadableIsRead(w: World, r: Request, log: seq<Event>)
    requires Readable(w, r, log).Some?
    ensures var l, rs := Read(log), Readable(w, r, log).value;
      && log != [] && l.phase != Concluded && l.checkpoint == Some(rs.checkpoint) && l.request == Some(w.digest(r))
      && rs.carry.reserved == l.reserved && rs.carry.extraCalls == l.extraCalls && rs.carry.compactionUsage == l.compactionUsage
  {
    hide Replay;
    ReplayKeepsRecords(w.env, AggregateOf(r), log);
    ScanIsRead(log, w.digest(r));
    if Read(log).phase == Concluded { ConcludedIsTerminal(w.env, AggregateOf(r), log); }
  }

  /** The other half: an accepted, running history of this request that ends at a checkpoint is offered to it. */
  lemma ReadIsReadable(w: World, r: Request, log: seq<Event>)
    requires log != [] && log[|log| - 1].draft.attempt == r.attempt
    requires Read(log).request == Some(w.digest(r)) && Read(log).checkpoint.Some?
    requires var p := Replay(w.env, Fresh(AggregateOf(r)), log); p.Some? && p.value.workload.state == WRunning
    ensures Readable(w, r, log).Some?
  {
    hide Replay, Scan, Read, Execs;
    ReplayKeepsRecords(w.env, AggregateOf(r), log);
    ScanIsRead(log, w.digest(r));
  }

  // ---- The final batch ----------------------------------------------------------------

  /** After the terminal transition an accepted history is never running again. */
  lemma {:induction false} ConcludedIsTerminal(env: Env, a: Aggregate, log: seq<Event>)
    requires Read(log).phase == Concluded && Replay(env, Fresh(a), log).Some?
    ensures Terminal(Replay(env, Fresh(a), log).value.workload.state)
  {
    hide RecordOk, ValidEvent, ValidAggregate, ValidRequirements, ValidBudget, Blank, CanTransitionStep;
    if log != [] && Read(log[..|log| - 1]).phase == Concluded { ConcludedIsTerminal(env, a, log[..|log| - 1]); }
  }

  /** The workload and the step are where the opening batch put them. */
  predicate InProgress(p: View, r: Request) {
    && p.workload.id == r.workload && p.workload.id != ZERO_ID && p.workload.state == WRunning
    && r.step in p.steps && p.steps[r.step].state == SRunning && !StepFinished(p.execution, r.step)
  }

  lemma ReplayStep(env: Env, p: View, log: seq<Event>, n: nat)
    requires n < |log|
    ensures Replay(env, p, log[..n + 1]) ==
            if Replay(env, p, log[..n]).None? then None else Applied(env, Replay(env, p, log[..n]).value, log[n])
  {
    assert log[..n + 1] == log[..n] + [log[n]];
    ReplaySnoc(env, p, log[..n], log[n]);
  }

  /** Where part of the opening batch has brought the workload and its step. */
  predicate Reached(p: View, r: Request, workload: WorkloadState, step: Option<StepState>) {
    && p.workload.id == r.workload && p.workload.id != ZERO_ID && p.workload.state == workload && p.execution == []
    && (step.Some? ==> r.step in p.steps && p.steps[r.step].state == step.value)
  }

  lemma OpeningStep(env: Env, r: Request, p: View, e: Event, workload: WorkloadState, step: Option<StepState>)
    requires Applied(env, p, e).Some? && p.aggregate == AggregateOf(r)
    requires if e.draft.payload.WorkloadCreated? then p == Fresh(AggregateOf(r)) && step.None? else Reached(p, r, workload, step)
    ensures var q := Applied(env, p, e).value;
      match e.draft.payload
      case WorkloadCreated(_, _, _) => Reached(q, r, WCreated, None)
      case WorkloadTransitioned(_, to) => Reached(q, r, to, step)
      case StepCreated(id, _, _, _, _, _) => id == r.step ==> Reached(q, r, workload, Some(SPending))
      case StepTransitioned(id, _, to) => id == r.step ==> Reached(q, r, workload, Some(to))
      case _ => true
  {
    hide RecordOk, ValidEvent, ValidRequirements, ValidBudget, Blank, CanTransitionWorkload, CanTransitionStep;
  }

  /** The opening batch, if accepted, brings the workload and its step to running. */
  lemma OpeningRuns(w: World, r: Request)
    requires Replay(w.env, Fresh(AggregateOf(r)), Sealed(r, 0, Opening(w, r))).Some?
    ensures InProgress(Replay(w.env, Fresh(AggregateOf(r)), Sealed(r, 0, Opening(w, r))).value, r)
  {
    hide Applied, Replay, Reached;
    var env, log, a := w.env, Sealed(r, 0, Opening(w, r)), Fresh(AggregateOf(r));
    assert log[..7] == log && log[..0] == [];
    for n := 7 downto 0
      invariant forall k :: n <= k <= 7 ==> Replay(env, a, log[..k]).Some?
    {
      ReplayStep(env, a, log, n);
    }
    EmptyReplay(env, a);
    ReplayStep(env, a, log, 0);
    ReplayStep(env, a, log, 1);
    ReplayStep(env, a, log, 2);
    ReplayStep(env, a, log, 3);
    ReplayStep(env, a, log, 4);
    ReplayStep(env, a, log, 5);
    ReplayStep(env, a, log, 6);
    assert forall k :: 0 <= k <= 7 ==> Replay(env, a, log[..k]).Some?;
    OpeningStep(env, r, Replay(env, a, log[..0]).value, log[0], WUnknown, None);
    OpeningStep(env, r, Replay(env, a, log[..1]).value, log[1], WCreated, None);
    OpeningStep(env, r, Replay(env, a, log[..2]).value, log[2], WRunning, None);
    OpeningStep(env, r, Replay(env, a, log[..3]).value, log[3], WRunning, Some(SPending));
    OpeningStep(env, r, Replay(env, a, log[..4]).value, log[4], WRunning, Some(SReady));
    OpeningStep(env, r, Replay(env, a, log[..5]).value, log[5], WRunning, Some(SLeased));
    RequestRuns(env, r, Replay(env, a, log[..6]).value, log[6]);
  }

  lemma RequestRuns(env: Env, r: Request, p: View, e: Event)
    requires Reached(p, r, WRunning, Some(SRunning)) && Applied(env, p, e).Some?
    requires e.draft.payload.ExecutionRecorded? && e.draft.payload.record.stage == RequestStage
    ensures InProgress(Applied(env, p, e).value, r)
  {
    hide RecordOk, ValidEvent;
  }

  lemma EmptyReplay(env: Env, p: View)
    ensures Replay(env, p, []) == Some(p)
  {
  }

  /** An event that concludes nothing leaves them running. */
  lemma AppliedRuns(env: Env, r: Request, p: View, e: Event, l: Ledger, i: nat)
    requires InProgress(p, r) && Applied(env, p, e).Some? && l.phase == Underway && Noted(l, i, e).phase == Underway
    ensures InProgress(Applied(env, p, e).value, r)
  {
    hide RecordOk, ValidEvent, ValidAggregate, ValidRequirements, ValidBudget, Blank, CanTransitionWorkload;
    if e.draft.payload.ExecutionRecorded? {
      var q := Applied(env, p, e).value;
      assert q.execution == p.execution + [e.draft.payload.record];
    }
  }

  lemma PhaseBefore(l: Ledger, i: nat, e: Event)
    requires Noted(l, i, e).phase == Underway
    ensures l.phase == Underway
  {
  }

  /** Until the final batch, an accepted history leaves the workload and the step running. */
  lemma {:induction false} UnderwayRuns(w: World, r: Request, log: seq<Event>)
    requires |log| >= 7 && log[..7] == Sealed(r, 0, Opening(w, r)) && Read(log).phase == Underway
    requires Replay(w.env, Fresh(AggregateOf(r)), log).Some?
    ensures InProgress(Replay(w.env, Fresh(AggregateOf(r)), log).value, r)
  {
    hide Applied, Opening, Noted, InProgress;
    if |log| == 7 {
      assert log == log[..7];
      OpeningRuns(w, r);
    } else {
      var init, e := log[..|log| - 1], log[|log| - 1];
      assert init[..7] == log[..7];
      PhaseBefore(Read(init), |init|, e);
      UnderwayRuns(w, r, init);
      AppliedRuns(w.env, r, Replay(w.env, Fresh(AggregateOf(r)), init).value, e, Read(init), |init|);
    }
  }
}
