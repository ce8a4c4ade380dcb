/**
 One runner's side of the durable protocol: compare-and-append with replies that
 may be lost, reservations, budget failures, and the restoration of a checkpoint
 (engine.go, lifecycle.go, recovery.go).
 */
module Engine {
  import opened Types
  import opened Policy
  import opened Routing
  import opened Projection

  /** What a caller submits. */
  datatype Request = Request(
    workload: ID, session: ID, step: ID, attempt: ID, goal: string, budget: Budget, zone: Zone, autonomous: bool,
    level: Class, outputLevel: Class,
    messages: seq<Message>, requirements: Requirements)

  /**
   What the engine meets but does not define: hashing and JSON, their uses on requests and calls, and the requests that
   callers present to it.
   */
  datatype World = World(env: Env, digest: Request -> string, manifestOf: ToolCall -> Manifest, requests: set<Request>)

  /** The fields of engineRun that the protocol depends on. */
  datatype RunState = RunState(
    sequence: nat, storeErr: bool, reserved: Spend, extraCalls: nat, compactionUsage: Usage, budgetDimension: Dimension)
  const NEW_RUN := RunState(0, false, NO_SPEND, 0, NO_USAGE, NoDimension)

  // ---- Appending ------------------------------------------------------------------

  /** What happens to one append in flight; Refused covers every failure before the commit. */
  datatype Fault = Delivered | Refused | ReplyLost | Incomplete

  /** The fault, and whether the caller's context was cancelled when an error came back. */
  datatype How = How(fault: Fault, cancelled: bool)

  function AggregateOf(r: Request): Aggregate {
    Aggregate(WORKLOAD, r.workload)
  }

  /** A stored event. Its identifier and time are immaterial here. */
  function Seal(r: Request, n: nat, p: Payload): Event {
    Event(n, AggregateOf(r), n, Draft(1, r.workload, r.attempt, p, true), 1, true)
  }

  function Sealed(r: Request, base: nat, ps: seq<Payload>): (es: seq<Event>)
    ensures |es| == |ps|
  {
    seq(|ps|, i requires 0 <= i < |ps| => Seal(r, base + i + 1, ps[i]))
  }

  /** The store commits only at the expected version. */
  predicate Committing(log: seq<Event>, sequence: nat, how: How) {
    |log| == sequence && how.fault != Refused
  }

  /** engineRun.append: the log, the runner's state, and whether the runner saw success. */
  function Appending(r: Request, run: RunState, log: seq<Event>, ps: seq<Payload>, how: How): (seq<Event>, RunState, bool) {
    if run.storeErr then (log, run, false)
    else if !Committing(log, run.sequence, how) then (log, run.(storeErr := !how.cancelled), false)
    else
      var log' := log + Sealed(r, |log|, ps);
      match how.fault
      case Delivered => (log', run.(sequence := |log'|), true)
      case ReplyLost => (log', run.(storeErr := !how.cancelled), false)
      case _ => (log', run.(storeErr := true), false)
  }

  /** Success means: committed, at the runner's own version, and nothing else happened in between. */
  lemma AppendOutcome(r: Request, run: RunState, log: seq<Event>, ps: seq<Payload>, how: How)
    ensures var (log', run', ok) := Appending(r, run, log, ps, how);
      && log <= log' && (log' != log ==> |log| == run.sequence && !run.storeErr && log' == log + Sealed(r, |log|, ps))
      && (ok <==> !run.storeErr && |log| == run.sequence && how.fault == Delivered)
      && (ok ==> log' == log + Sealed(r, |log|, ps) && run' == run.(sequence := |log'|))
      && (!ok ==> run' == run || run' == run.(storeErr := true))
  {
  }

  /** A runner whose version is stale can never commit again, whatever it tries. */
  lemma StaleNeverCommits(r: Request, run: RunState, log: seq<Event>, ps: seq<Payload>, how: How)
    requires run.sequence < |log| || run.storeErr
    ensures var (log', run', ok) := Appending(r, run, log, ps, how);
      !ok && log' == log && (run'.sequence < |log'| || run'.storeErr)
  {
  }

  // ---- Records the runner writes ---------------------------------------------------

  function BudgetEntry(r: Request, turn: int, b: BudgetRecord): Payload {
    ExecutionRecorded(Blankly(r.step, turn, BudgetStage, r.level).(budget := Some(b)))
  }

  function ResumedEntry(r: Request, digest: string): Payload {
    ExecutionRecorded(Blankly(r.step, 0, ResumedStage, r.level).(requestSHA := digest))
  }

  function RequestEntry(r: Request, digest: string): Payload {
    ExecutionRecorded(Blankly(r.step, 0, RequestStage, r.level).(requestSHA := digest))
  }

  /** The initial batch of a run: the workload and its step brought to running, and the request digest. */
  function Opening(w: World, r: Request): seq<Payload> {
    [WorkloadCreated(r.session, r.goal, r.budget), WorkloadTransitioned(WCreated, WRunning),
     StepCreated(r.step, ZERO_ID, ModelTurn, r.requirements, r.budget, 1),
     StepTransitioned(r.step, SPending, SReady), StepTransitioned(r.step, SReady, SLeased),
     StepTransitioned(r.step, SLeased, SRunning), RequestEntry(r, w.digest(r))]
  }

  // ---- Reservations -----------------------------------------------------------------

  /** The first dimension in which used plus want passes the limit. */
  function Exceeding(limit: Spend, used: Spend, want: Spend): (d: Dimension)
    ensures d == NoDimension <==> FitsWith(used, want, limit)
    ensures d == NoDimension || d == InputTokens || d == OutputTokens || d == Cost
  {
    if want.input > limit.input - used.input then InputTokens
    else if want.output > limit.output - used.output then OutputTokens
    else if want.cost > limit.cost - used.cost then Cost
    else NoDimension
  }

  /** budgetFailure: the dimension is noted and recorded. */
  function Failing(r: Request, run: RunState, log: seq<Event>, turn: int, d: Dimension, how: How): (seq<Event>, RunState) {
    var (log', run', ok) :=
      Appending(r, run.(budgetDimension := d), log, [BudgetEntry(r, turn, BudgetRecord(NO_SPEND, d))], how);
    (log', run')
  }

  /** reserve: no estimate, no call; a bound past the budget is a budget failure; otherwise record it, then count it. */
  function Reserving(r: Request, run: RunState, log: seq<Event>, turn: int, estimate: Option<Spend>, cap: int, how: How):
    (seq<Event>, RunState, Option<Spend>)
  {
    if estimate.None? || !ValidSpend(estimate.value) then (log, run, None)
    else
      var bound := estimate.value;
      var d := Exceeding(Limit(r.budget), run.reserved, bound);
      if d != NoDimension then
        var (log', run') := Failing(r, run, log, turn, d, how);
        (log', run', None)
      else if cap > bound.output then (log, run, None)
      else
        var (log', run', ok) := Appending(r, run, log, [BudgetEntry(r, turn, BudgetRecord(bound, NoDimension))], how);
        if ok then (log', run'.(reserved := Plus(run.reserved, bound)), Some(bound)) else (log', run', None)
  }

  // ---- Restoring ----------------------------------------------------------------------

  /** What restore keeps while it scans the execution records. */
  datatype Carry = Carry(reserved: Spend, extraCalls: nat, compactionUsage: Usage, checkpoint: Option<LoopEvent>, matched: bool)
  const NOTHING_CARRIED := Carry(NO_SPEND, 0, NO_USAGE, None, false)

  predicate IsReservation(r: ExecutionRecord) {
    r.budget.Some? && r.budget.value.dimension == NoDimension
  }

  /** A record that stands for an external effect, intended or done: a loop event, a reservation or a compaction. */
  predicate IsEffect(r: ExecutionRecord) {
    r.loop.Some? || IsReservation(r) || r.compaction.Some?
  }

  predicate IsCheckpoint(r: ExecutionRecord) {
    r.loop.Some? && r.loop.value.kind == Checkpoint && r.compaction.None?
  }

  function Scanned(c: Carry, r: ExecutionRecord, digest: string): Carry {
    Carry(
      if r.budget.Some? then Plus(c.reserved, r.budget.value.reserved) else c.reserved,
      if r.compaction.Some? then c.extraCalls + 1 else c.extraCalls,
      if r.compaction.Some? then PlusUsage(c.compactionUsage, r.compaction.value.usage) else c.compactionUsage,
      if IsCheckpoint(r) then r.loop else if IsEffect(r) then None else c.checkpoint,
      if r.stage == RequestStage then r.requestSHA == digest else c.matched)
  }

  function Scan(rs: seq<ExecutionRecord>, digest: string): Carry {
    if rs == [] then NOTHING_CARRIED else Scanned(Scan(rs[..|rs| - 1], digest), rs[|rs| - 1], digest)
  }

  /** The checkpoint at i is usable: no effect was recorded after it. */
  predicate LastEffect(rs: seq<ExecutionRecord>, i: nat) {
    i < |rs| && IsEffect(rs[i]) && forall j :: i < j < |rs| ==> !IsEffect(rs[j])
  }

  /** The scan ends with a checkpoint exactly when the last effect on record is one. */
  lemma {:induction false} CheckpointIsLastEffect(rs: seq<ExecutionRecord>, digest: string)
    ensures Scan(rs, digest).checkpoint.Some? <==> exists i: nat :: LastEffect(rs, i) && IsCheckpoint(rs[i])
    ensures forall i: nat :: LastEffect(rs, i) && IsCheckpoint(rs[i]) ==> Scan(rs, digest).checkpoint == rs[i].loop
  {
    if rs != [] {
      var init, last := rs[..|rs| - 1], rs[|rs| - 1];
      CheckpointIsLastEffect(init, digest);
      if IsEffect(last) {
        assert LastEffect(rs, |rs| - 1);
        forall i: nat | LastEffect(rs, i) ensures i == |rs| - 1 {
        }
      } else {
        forall i: nat ensures LastEffect(rs, i) <==> LastEffect(init, i) {
          if LastEffect(init, i) {
            assert forall j :: i < j < |rs| ==> rs[j] == if j < |init| then init[j] else last;
          }
        }
      }
    }
  }

  datatype Restart = Restart(checkpoint: LoopEvent, carry: Carry)

  /** What restore reads: a checkpoint to continue from, if the history is accepted and offers one to this request. */
  function Readable(w: World, r: Request, log: seq<Event>): Option<Restart> {
    var p := Replay(w.env, Fresh(AggregateOf(r)), log);
    if p.None? || log == [] || p.value.workload.state != WRunning then None
    else
      var c := Scan(p.value.execution, w.digest(r));
      if !c.matched || c.checkpoint.None? || log[|log| - 1].draft.attempt != r.attempt then None
      else Some(Restart(c.checkpoint.value, c))
  }

  function RestoredRun(rs: Restart, sequence: nat): RunState {
    RunState(sequence, false, rs.carry.reserved, rs.carry.extraCalls, rs.carry.compactionUsage, NoDimension)
  }

  // ---- The runner as an object -----------------------------------------------------------

  /** The shared stream, as one runner's calls see it. */
  class Journal {
    var events: seq<Event>

    /** One append in flight: committed or not, acknowledged or not. */
    method Append(expected: nat, es: seq<Event>, fault: Fault) returns (acknowledged: Option<nat>)
      modifies this
      ensures events == if |old(events)| == expected && fault != Refused then old(events) + es else old(events)
      ensures acknowledged == if |old(events)| != expected || fault == Refused || fault == ReplyLost then None
                              else if fault == Incomplete then Some(0) else Some(|es|)
    {
      if |events| != expected || fault == Refused { return None; }
      events := events + es;
      if fault == ReplyLost { return None; }
      return if fault == Incomplete then Some(0) else Some(|es|);
    }
  }

  class EngineRun {
    const world: World
    const request: Request
    var sequence: nat
    var storeErr: bool
    var reserved: Spend
    var extraCalls: nat
    var compactionUsage: Usage
    var budgetDimension: Dimension

    function State(): RunState
      reads this
    {
      RunState(sequence, storeErr, reserved, extraCalls, compactionUsage, budgetDimension)
    }

    constructor (world: World, request: Request)
      ensures State() == NEW_RUN && this.world == world && this.request == request
    {
      this.world, this.request := world, request;
      sequence, storeErr, reserved, extraCalls, compactionUsage, budgetDimension := 0, false, NO_SPEND, 0, NO_USAGE, NoDimension;
    }

    method Append(j: Journal, ps: seq<Payload>, how: How) returns (ok: bool)
      requires ps != []
      modifies this`sequence, this`storeErr, j
      ensures (j.events, State(), ok) == Appending(request, old(State()), old(j.events), ps, how)
    {
      if storeErr { return false; }
      var es := Sealed(request, sequence, ps);
      var acknowledged := j.Append(sequence, es, how.fault);
      if acknowledged.None? {
        if how.cancelled { return false; }
        storeErr := true;
        return false;
      }
      if acknowledged.value != |ps| {
        storeErr := true;
        return false;
      }
      sequence := sequence + |ps|;
      return true;
    }

    method BudgetFailure(j: Journal, turn: int, d: Dimension, how: How)
      modifies this`sequence, this`storeErr, this`budgetDimension, j
      ensures (j.events, State()) == Failing(request, old(State()), old(j.events), turn, d, how)
    {
      budgetDimension := d;
      var ok := Append(j, [BudgetEntry(request, turn, BudgetRecord(NO_SPEND, d))], how);
    }

    method Reserve(j: Journal, turn: int, estimate: Option<Spend>, cap: int, how: How) returns (bound: Option<Spend>)
      modifies this`sequence, this`storeErr, this`budgetDimension, this`reserved, j
      ensures (j.events, State(), bound) == Reserving(request, old(State()), old(j.events), turn, estimate, cap, how)
    {
      if estimate.None? || !ValidSpend(estimate.value) { return None; }
      var want := estimate.value;
      var dimension := NoDimension;
      if want.input > request.budget.maxInput - reserved.input { dimension := InputTokens; }
      else if want.output > request.budget.maxOutput - reserved.output { dimension := OutputTokens; }
      else if want.cost > request.budget.maxCost - reserved.cost { dimension := Cost; }
      if dimension != NoDimension {
        BudgetFailure(j, turn, dimension, how);
        return None;
      }
      if cap > want.output { return None; }
      var ok := Append(j, [BudgetEntry(request, turn, BudgetRecord(want, NoDimension))], how);
      if !ok { return None; }
      reserved := Spend(reserved.input + want.input, reserved.output + want.output, reserved.cost + want.cost);
      return Some(want);
    }

    /** The scan of restore: totals, the last checkpoint, and whether the last request on record is this one. */
    method ScanRecords(records: seq<ExecutionRecord>) returns (checkpoint: Option<LoopEvent>, matched: bool)
      requires State() == NEW_RUN
      modifies this`reserved, this`extraCalls, this`compactionUsage
      ensures Carry(reserved, extraCalls, compactionUsage, checkpoint, matched) == Scan(records, world.digest(request))
    {
      var digest := world.digest(request);
      checkpoint, matched := None, false;
      for k := 0 to |records|
        invariant Carry(reserved, extraCalls, compactionUsage, checkpoint, matched) == Scan(records[..k], digest)
      {
        var record := records[k];
        assert records[..k + 1][..k] == records[..k];
        if record.stage == RequestStage { matched := record.requestSHA == digest; }
        if record.budget.Some? {
          if record.budget.value.dimension == NoDimension { checkpoint := None; }
          var b := record.budget.value.reserved;
          reserved := Spend(reserved.input + b.input, reserved.output + b.output, reserved.cost + b.cost);
        }
        if record.compaction.Some? {
          extraCalls := extraCalls + 1;
          compactionUsage := PlusUsage(compactionUsage, record.compaction.value.usage);
        }
        if record.loop.Some? {
          checkpoint := if record.loop.value.kind == Checkpoint then record.loop else None;
        }
        if record.compaction.Some? { checkpoint := None; }
      }
      assert records[..|records|] == records;
    }

    /**
     restore: a checkpoint comes back exactly when the history is accepted and running, its last request and attempt
     are this one's, its last effect is a checkpoint, and the claim of the next version succeeds.
     */
    method Restore(j: Journal, how: How) returns (checkpoint: Option<LoopEvent>)
      requires State() == NEW_RUN
      modifies this, j
      ensures checkpoint.Some? <==>
        Readable(world, request, old(j.events)).Some? && how.fault == Delivered
      ensures checkpoint.Some? ==>
        var restart := Readable(world, request, old(j.events)).value;
        && checkpoint.value == restart.checkpoint
        && j.events == old(j.events) + [Seal(request, |old(j.events)| + 1, ResumedEntry(request, world.digest(request)))]
        && State() == RestoredRun(restart, |j.events|)
      ensures Readable(world, request, old(j.events)).None? ==> j.events == old(j.events)
    {
      hide Scan, Replay;
      var events := j.events;
      var projection := LoadProjection(world.env, AggregateOf(request), events);
      if projection.None? || events == [] { return None; }
      if projection.value.workload.state != WRunning { return None; }
      var found, matched := ScanRecords(projection.value.execution);
      if !matched || found.None? { return None; }
      if events[|events| - 1].draft.attempt != request.attempt { return None; }
      sequence := |events|;
      var entry := ResumedEntry(request, world.digest(request));
      var ok := Append(j, [entry], how);
      if !ok { return None; }
      assert Sealed(request, |events|, [entry]) == [Seal(request, |events| + 1, entry)];
      return found;
    }
  }
}
