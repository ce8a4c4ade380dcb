/**
 What every reachable state of the protocol machine satisfies: about the stream alone,
 about the effects seen outside, and about each runner against its own prefix of the stream.
 */
module Invariant {
  import opened Types
  import opened Policy
  import opened Projection
  import opened Engine
  import opened StreamProtocol
  import opened Ledger
  import opened Protocol

  // ---- Records as witnesses ----------------------------------------------------------

  predicate Own(s: State, pid: nat, i: nat) {
    i < |s.log| && i < |s.authors| && s.authors[i] == pid
  }

  /** The runner's own committed reservation of this bound for this turn. */
  predicate Reserves(s: State, pid: nat, at: nat, turn: int, bound: Spend) {
    Own(s, pid, at) && s.creator.Some? &&
    s.log[at].draft.payload == BudgetEntry(s.creator.value, turn, BudgetRecord(bound, NoDimension))
  }

  predicate IsLoop(e: Event, kind: LoopKind, turn: int) {
    e.draft.payload.ExecutionRecorded? && e.draft.payload.record.loop.Some? &&
    e.draft.payload.record.loop.value.kind == kind && e.draft.payload.record.loop.value.turn == turn
  }

  /** The runner's own committed turn-started event. */
  predicate Starts(s: State, pid: nat, i: nat, turn: int) {
    Own(s, pid, i) && IsLoop(s.log[i], TurnStarted, turn)
  }

  /** The runner's own committed tool-started event for this call. */
  predicate Intends(s: State, pid: nat, i: nat, turn: int, call: ToolCall) {
    Own(s, pid, i) && IsLoop(s.log[i], ToolStarted, turn) && s.log[i].draft.payload.record.loop.value.toolCall == Some(call)
  }

  /** A verdict about exactly this call, by this request, as a tool execution. */
  predicate About(w: World, r: Request, call: ToolCall, v: Verdict) {
    && v.manifestSHA == Digest(w.env, w.manifestOf(call))
    && v.scope.kind == ExecutionScope && v.scope.workload == r.workload && v.scope.step == r.step
    && v.scope.attempt == r.attempt && v.scope.stepKind == ToolStep
    && v.scope.target.Some? && v.scope.target.value.kind == ToolTarget && v.scope.target.value.toolName == call.name
    && v.scope.target.value.zone == r.zone
  }

  /** The runner's own committed allow verdict for exactly this call. */
  predicate Permits(w: World, s: State, pid: nat, i: nat, call: ToolCall) {
    Own(s, pid, i) && s.creator.Some? && s.log[i].draft.payload.ExecutionRecorded? &&
    var r := s.log[i].draft.payload.record;
    && r.stage == PolicyStage && r.manifest == Some(w.manifestOf(call)) && r.verdict.Some?
    && r.verdict.value.action == Allow && About(w, s.creator.value, call, r.verdict.value)
  }

  // ---- Effects -------------------------------------------------------------------------

  /** The effect follows its runner's own committed intent. */
  predicate Justified(w: World, s: State, e: Effect) {
    match e
    case SummaryOpened(pid, turn, at, bound) => Reserves(s, pid, at, turn, bound)
    case StreamOpened(pid, turn, at, bound, start) => at < start && Reserves(s, pid, at, turn, bound) && Starts(s, pid, start, turn)
    case ToolRan(pid, turn, k, call, begun, verdict) =>
      begun < verdict && Intends(s, pid, begun, turn, call) && Permits(w, s, pid, verdict, call)
  }

  /** The loop's own stream of a turn, or a tool of its batch. */
  predicate OfTurn(e: Effect, turn: int) {
    !e.SummaryOpened? && e.turn == turn
  }

  /** Two effects of which the outside world must see only one. */
  predicate Clash(a: Effect, b: Effect) {
    || (!a.SummaryOpened? && !b.SummaryOpened? && a.turn == b.turn && a.pid != b.pid)
    || (a.StreamOpened? && b.StreamOpened? && a.turn == b.turn)
    || (a.ToolRan? && b.ToolRan? && a.turn == b.turn && a.k == b.k)
    || (!a.ToolRan? && !b.ToolRan? && a.at == b.at)
  }

  function Opens(es: seq<Effect>): nat {
    if es == [] then 0 else Opens(es[..|es| - 1]) + if es[|es| - 1].ToolRan? then 0 else 1
  }

  function ToolRuns(es: seq<Effect>): nat {
    if es == [] then 0 else ToolRuns(es[..|es| - 1]) + if es[|es| - 1].ToolRan? then 1 else 0
  }

  ghost predicate EffectsOk(w: World, s: State) {
    var l := Read(s.log);
    && (forall i :: 0 <= i < |s.effects| ==> Justified(w, s, s.effects[i]))
    && (forall i :: 0 <= i < |s.effects| ==> s.effects[i].SummaryOpened? || s.effects[i].turn <= l.lastTurn)
    && (forall i, j :: 0 <= i < j < |s.effects| ==> !Clash(s.effects[i], s.effects[j]))
    && Opens(s.effects) <= l.reservations && ToolRuns(s.effects) <= l.intents && AtMost(s.spent, l.reserved)
  }

  // ---- The stream -------------------------------------------------------------------------

  /** What a loop result keeps at all times. */
  predicate Sane(w: World, r: Request, c: LoopResult) {
    && ValidUsage(c.usage) && 0 <= c.toolCalls <= r.budget.maxToolCalls
    && forall i :: 0 <= i < |c.messages| ==> ValidMessage(w.env, c.messages[i])
  }

  /** A record as the engine writes it; policy, approval, sandbox and cleanup records are its collaborators' own. */
  predicate Written(w: World, r: Request, c: ExecutionRecord) {
    match c.stage
    case RequestStage => ExecutionRecorded(c) == RequestEntry(r, w.digest(r))
    case ResumedStage => ExecutionRecorded(c) == ResumedEntry(r, w.digest(r))
    case BudgetStage =>
      c.budget.Some? && ExecutionRecorded(c) == BudgetEntry(r, c.turn, c.budget.value) && c.turn >= 0 &&
      c.budget.value.dimension != UnknownDimension
    case RoutingStage =>
      c.routing.Some? && ExecutionRecorded(c) == RoutingEntry(r, c.turn, c.routing.value) && RoutingOk(r.workload, r.attempt, c)
    case LoopStage => c.loop.Some?
    case CompactionStage => c.compaction.Some? && ExecutionRecorded(c) == CompactionEntry(r, c.turn, c.compaction.value) && c.turn >= 0
    case FinishedStage =>
      c.result.Some? && ValidClass(c.level) &&
      c == Blankly(r.step, 0, FinishedStage, c.level).(result := c.result, failureCode := c.failureCode)
    case UnknownStage => false
    case _ => true
  }

  /** The two transitions of the final batch, each in its place. */
  predicate Ending(r: Request, l: Ledger, p: Payload) {
    match p
    case StepTransitioned(id, from, to) => l.phase == Concluding && id == r.step && from == SRunning && CanTransitionStep(SRunning, to)
    case WorkloadTransitioned(from, to) => l.phase == Settled && from == WRunning && Terminal(to)
    case _ => false
  }

  /** An event that may follow a history with this ledger. */
  predicate EntryOk(w: World, r: Request, l: Ledger, e: Event) {
    if e.draft.payload.ExecutionRecorded? then
      var c := e.draft.payload.record;
      && l.phase == Underway && c.step == r.step && Written(w, r, c)
      && (c.budget.Some? ==> ValidSpend(c.budget.value.reserved))
      && (c.loop.Some? ==>
            && c.stage == LoopStage && LoopOk(w.env, l.lastLoop, RoutingFor(l, c.turn), c)
            && PayloadCount(c) == 1 && ValidClass(c.level) && c.turn >= 0 && c.manifest.None?
            && (c.loop.value.kind == TurnStarted ==> c.turn == l.lastTurn + 1))
    else l.request.None? || Ending(r, l, e.draft.payload)
  }

  /** Two usage totals and what is still due are within what is reserved. */
  predicate Covered(a: Usage, b: Usage, due: Spend, reserved: Spend) {
    && a.input + b.input + due.input <= reserved.input && a.output + b.output + due.output <= reserved.output
    && a.cost + b.cost + due.cost <= reserved.cost
  }

  /** A history with this ledger can be continued from its checkpoint, with everything accounted for. */
  predicate Resumable(w: World, r: Request, l: Ledger) {
    l.checkpoint.Some? && l.checkpoint.value.checkpoint.Some? &&
    var c := l.checkpoint.value.checkpoint.value;
    && l.checkpoint.value.sequence >= 1 && Sane(w, r, c) && c.stop == ToolUse && c.toolCalls >= 1
    && c.modelCalls == l.lastTurn && c.modelCalls >= 1
    && l.reservations == c.modelCalls + l.extraCalls && c.modelCalls + l.extraCalls <= r.budget.maxModelCalls
    && l.intents == c.toolCalls
    && ValidUsage(l.compactionUsage)
    && Covered(c.usage, l.compactionUsage, NO_SPEND, l.reserved)
  }

  predicate LedgerOk(w: World, r: Request, l: Ledger) {
    && l.request == Some(w.digest(r)) && l.lastTurn >= 0
    && AtMost(l.reserved, Limit(r.budget)) && l.reservations <= r.budget.maxModelCalls
    && l.intents <= r.budget.maxToolCalls
    && (l.checkpoint.Some? ==> Resumable(w, r, l))
  }

  /** The stream is the creator's opening batch and admissible records after it, numbered from one. */
  ghost predicate Chronicled(w: World, s: State) {
    && |s.authors| == |s.log| && (s.creator.None? <==> s.log == [])
    && (s.creator.Some? ==>
          var r := s.creator.value;
          && Submittable(w, r) && r.workload == s.workload && LedgerOk(w, r, Read(s.log))
          && |s.log| >= 7 && s.log[..7] == Sealed(r, 0, Opening(w, r))
          && (forall i :: 0 <= i < |s.log| ==> s.log[i] == Seal(r, i + 1, s.log[i].draft.payload))
          && (forall i :: 0 <= i < |s.log| ==> EntryOk(w, r, Read(s.log[..i]), s.log[i])))
  }

  /** The final batch is there as a whole or not at all. */
  predicate Whole(phase: Phase) {
    phase == Underway || phase == Concluded
  }

  ghost predicate LogOk(w: World, s: State) {
    Chronicled(w, s) && Whole(Read(s.log).phase)
  }

  // ---- One runner against its prefix of the stream -------------------------------------------

  /** The runner holds a reservation that is not settled. */
  predicate Outstanding(pc: PC) {
    pc.SummaryReserved? || pc.Summarizing? || pc.TurnReserved? || pc.TurnBegun? || pc.Streaming? || pc.Intending? ||
    pc.Running? || pc.Reporting? || pc.Reported?
  }

  /** A reservation not yet counted as a call, and calls the current turn may still make. */
  function Uncounted(pc: PC): nat {
    Bit(pc.SummaryReserved? || pc.TurnReserved?)
  }

  function Ahead(pc: PC): nat {
    match pc
    case Selecting(compacting, _, _) => if compacting then 2 else 1
    case SummaryReserved(_, _) => 2
    case Summarizing(_, _, _, _) => 1
    case TurnReserved(_, _, _) => 1
    case _ => 0
  }

  /** Calls of the turn counted by the loop whose tool-started event is still to come. */
  function Owed(pc: PC): int {
    if pc.Intending? then |pc.calls| - |pc.starts| else 0
  }

  function Unrun(status: seq<Status>): nat {
    if status == [] then 0 else Unrun(status[..|status| - 1]) + if status[|status| - 1] == Ran then 0 else 1
  }

  /** Calls of the turn with an intent on record that may still run. */
  function Pledged(pc: PC): nat {
    match pc
    case Intending(_, _, starts) => |starts|
    case Running(_, _, _, status) => Unrun(status)
    case _ => 0
  }

  function HeldSpend(d: TurnData): Spend {
    if d.held.Some? && d.held.value.usage.Some? then SpendOf(d.held.value.usage.value) else NO_SPEND
  }

  /** Spend of the current call that is reserved and not yet in the run's totals. */
  function Due(pc: PC): Spend {
    match pc
    case SummaryReserved(_, bound) => bound
    case Summarizing(_, bound, _, _) => bound
    case TurnReserved(_, bound, _) => bound
    case TurnBegun(_, bound, _) => bound
    case Streaming(_, bound, used, d) => Plus(Minus(bound, used), HeldSpend(d))
    case _ => NO_SPEND
  }

  /** Spend of the current call that may still be accepted. */
  function Left(pc: PC): Spend {
    match pc
    case SummaryReserved(_, bound) => bound
    case Summarizing(_, bound, used, _) => Minus(bound, used)
    case TurnReserved(_, bound, _) => bound
    case TurnBegun(_, bound, _) => bound
    case Streaming(_, bound, used, _) => Minus(bound, used)
    case _ => NO_SPEND
  }

  function Heard(l: Option<LoopEvent>): nat {
    if l.Some? then l.value.sequence else 0
  }

  /** The runner's counters and totals are the ledger's. */
  predicate Balanced(w: World, p: Proc, l: Ledger) {
    var r := p.request;
    && Submittable(w, r) && Sane(w, r, p.result)
    && p.run.reserved == l.reserved && AtMost(l.reserved, Limit(r.budget))
    && p.run.compactionUsage == l.compactionUsage && ValidUsage(l.compactionUsage)
    && p.run.extraCalls == l.extraCalls + Bit(p.pc.Summarizing?)
    && p.result.modelCalls == l.lastTurn && l.lastTurn >= 0
    && l.reservations == p.result.modelCalls + p.run.extraCalls + Uncounted(p.pc)
    && p.result.modelCalls + p.run.extraCalls + Ahead(p.pc) <= r.budget.maxModelCalls
    && l.intents == p.result.toolCalls - Owed(p.pc)
    && Covered(p.result.usage, l.compactionUsage, Due(p.pc), l.reserved)
    && ValidSpend(Left(p.pc)) && ValidSpend(Due(p.pc))
    && (p.pc.Summarizing? ==> ValidUsage(p.pc.usage) && SpendOf(p.pc.usage) == p.pc.used)
    && (p.pc.Streaming? && p.pc.data.held.Some? && p.pc.data.held.value.usage.Some? ==> ValidUsage(p.pc.data.held.value.usage.value))
    && (InTurn(p.pc) ==> p.turn == p.result.modelCalls && p.turn >= 1)
    && (Ahead(p.pc) > 0 ==> p.turn == p.result.modelCalls + 1)
  }

  /** The loop's next event continues the recorded ones. */
  predicate Voiced(p: Proc, l: Ledger) {
    && (Live(p.pc) || p.pc.Admitting? ==> !p.muted)
    && (!p.muted && !p.pc.Finishing? ==>
          p.emitted == Heard(l.lastLoop) && (l.lastLoop.Some? ==> l.lastLoop.value.kind != LoopStopped))
  }

  /** What the runner's position says about the ledger. */
  predicate Positioned(w: World, p: Proc, l: Ledger) {
    && (InTurn(p.pc) || p.pc.TurnReserved? ==> Carries(RoutingFor(l, p.turn), p.model))
    && (p.pc.Intending? || p.pc.Running? || p.pc.Reporting? || p.pc.Reported? ==> p.result.stop == ToolUse && p.result.toolCalls >= 1)
    && match p.pc
       case Boundary =>
         p.result.modelCalls > 0 ==> l.checkpoint.Some? && l.checkpoint.value.checkpoint == Some(p.result) && l.checkpoint.value.sequence == p.emitted
       case Selecting(compacting, replacement, routed) =>
         && (routed.Some? ==> Carries(RoutingFor(l, p.turn), routed.value))
         && (compacting ==> replacement.None?)
         && (replacement.Some? ==> ValidMessage(w.env, replacement.value))
       case TurnReserved(_, _, replacement) => replacement.Some? ==> ValidMessage(w.env, replacement.value)
       case Reported(_) =>
         l.lastLoop.Some? && l.lastLoop.value.kind == MessageAppended && l.lastLoop.value.message.Some? &&
         l.lastLoop.value.message.value.role == ToolRole
       case _ => true
  }

  /** The runner as its prefix of the stream shows it. */
  predicate Standing(w: World, p: Proc, l: Ledger) {
    && !p.tripped && p.turn >= 0 && l.phase == Underway && Voiced(p, l) && Positioned(w, p, l)
    && (Live(p.pc) || p.pc.Admitting? ==> Balanced(w, p, l))
    && (p.pc.Admitting? ==> l.lastTurn == 0)
  }

  ghost predicate Held(w: World, s: State, pid: nat, p: Proc) {
    && s.creator == Some(p.request) && |s.authors| == |s.log|
    && 0 < p.run.sequence <= |s.log| && s.authors[p.run.sequence - 1] == pid
    && var l := Read(s.log[..p.run.sequence]);
       && (l.pendingAt.Some? ==> l.pendingAt.value < |s.log| && s.authors[l.pendingAt.value] == pid)
       && Standing(w, p, l)
  }

  // ---- A runner with an open reservation against the whole state ------------------------------

  predicate StatusOk(w: World, s: State, pid: nat, r: Request, turn: int, call: ToolCall, begun: nat, t: Status) {
    match t
    case Asked(v) => About(w, r, call, v)
    case Granted(v) => About(w, r, call, v)
    case Allowed(at) => begun < at && Permits(w, s, pid, at, call)
    case _ => true
  }

  /** The records behind the next effect. */
  predicate Witnessed(w: World, s: State, pid: nat, p: Proc) {
    match p.pc
    case SummaryReserved(at, bound) => Reserves(s, pid, at, p.turn, bound)
    case TurnReserved(at, bound, _) => Reserves(s, pid, at, p.turn, bound)
    case TurnBegun(at, bound, start) => at < start && Reserves(s, pid, at, p.turn, bound) && Starts(s, pid, start, p.turn)
    case Intending(_, calls, starts) =>
      |starts| < |calls| && forall i :: 0 <= i < |starts| ==> Intends(s, pid, starts[i], p.turn, calls[i])
    case Running(_, calls, starts, status) =>
      && |starts| == |calls| && |status| == |calls|
      && (forall i :: 0 <= i < |starts| ==> Intends(s, pid, starts[i], p.turn, calls[i]))
      && (forall i :: 0 <= i < |status| ==> StatusOk(w, s, pid, p.request, p.turn, calls[i], starts[i], status[i]))
    case _ => true
  }

  /** The next effect has not happened before. */
  predicate Unspent(es: seq<Effect>, pid: nat, p: Proc) {
    match p.pc
    case SummaryReserved(at, _) => forall i :: 0 <= i < |es| ==> es[i].ToolRan? || es[i].at != at
    case TurnReserved(at, _, _) => forall i :: 0 <= i < |es| ==> es[i].ToolRan? || es[i].at != at
    case TurnBegun(at, _, _) =>
      && (forall i :: 0 <= i < |es| ==> es[i].ToolRan? || es[i].at != at)
      && (forall i :: 0 <= i < |es| ==> !OfTurn(es[i], p.turn))
    case Streaming(_, _, _, _) => forall i :: 0 <= i < |es| && OfTurn(es[i], p.turn) ==> es[i].pid == pid && !es[i].ToolRan?
    case Intending(_, _, _) => forall i :: 0 <= i < |es| && OfTurn(es[i], p.turn) ==> es[i].pid == pid && !es[i].ToolRan?
    case Running(_, _, _, status) =>
      forall i :: 0 <= i < |es| && OfTurn(es[i], p.turn) ==>
        es[i].pid == pid && (es[i].ToolRan? ==> es[i].k < |status| && status[es[i].k] == Ran)
    case _ => true
  }

  ghost predicate Engaged(w: World, s: State, pid: nat, p: Proc)
    requires Outstanding(p.pc)
  {
    var l := Read(s.log);
    && l.pendingAt == Some(p.pc.at) && p.pc.at < |s.authors| && s.authors[p.pc.at] == pid
    && FitsWith(s.spent, Left(p.pc), l.reserved)
    && Opens(s.effects) + Bit(p.pc.SummaryReserved? || p.pc.TurnReserved? || p.pc.TurnBegun?) <= l.reservations
    && ToolRuns(s.effects) + Pledged(p.pc) <= l.intents
    && Witnessed(w, s, pid, p) && Unspent(s.effects, pid, p)
  }

  /** What a history with this ledger offers to a resumer of this request. */
  predicate Offers(w: World, r: Request, l: Ledger, rs: Restart) {
    && l.checkpoint == Some(rs.checkpoint) && l.request == Some(w.digest(r)) && l.phase != Concluded
    && rs.carry.reserved == l.reserved && rs.carry.extraCalls == l.extraCalls && rs.carry.compactionUsage == l.compactionUsage
  }

  /** A resumer that has read the stream and not yet claimed it. */
  ghost predicate Reading(w: World, s: State, p: Proc)
    requires p.pc.Loaded?
  {
    && p.run.sequence <= |s.log| && p.run.sequence > 0 && Submittable(w, p.request)
    && p.run == RestoredRun(p.pc.restart, p.run.sequence) && !p.muted && !p.tripped && p.turn >= 0
    && Offers(w, p.request, Read(s.log[..p.run.sequence]), p.pc.restart)
  }

  ghost predicate ProcOk(w: World, s: State, pid: nat, p: Proc) {
    if p.pc.Gone? then !p.tripped
    else if p.pc.Loaded? then Reading(w, s, p)
    else Held(w, s, pid, p) && (Outstanding(p.pc) ==> Engaged(w, s, pid, p))
  }

  ghost predicate Inv(w: World, s: State) {
    LogOk(w, s) && EffectsOk(w, s) && forall pid :: pid in s.procs ==> ProcOk(w, s, pid, s.procs[pid])
  }

  // ---- How the invariant moves ------------------------------------------------------------------

  /** s' has a longer stream and is otherwise s. */
  ghost predicate Longer(s: State, s': State) {
    && s.log <= s'.log && s.authors <= s'.authors && |s.authors| == |s.log| && |s'.authors| == |s'.log|
    && s'.creator == s.creator && s'.effects == s.effects && s'.spent == s.spent
  }

  lemma WitnessesLast(w: World, s: State, s': State)
    requires Longer(s, s')
    ensures forall pid: nat, i: nat :: Own(s, pid, i) ==> Own(s', pid, i) && s'.log[i] == s.log[i]
  {
  }

  /** A runner without an open reservation is unaffected by what others append or do. */
  lemma BystanderKeeps(w: World, s: State, s': State, pid: nat, p: Proc)
    requires ProcOk(w, s, pid, p) && !Outstanding(p.pc)
    requires s.log <= s'.log && s.authors <= s'.authors && |s'.authors| == |s'.log| && |s.authors| == |s.log| && s'.creator == s.creator
    ensures ProcOk(w, s', pid, p)
  {
    hide Read, Standing, Offers, Submittable;
    if !p.pc.Gone? {
      assert s'.log[..p.run.sequence] == s.log[..p.run.sequence];
    }
  }

  /** Whoever is at the end of the stream is the only runner that can hold an open reservation. */
  lemma Exclusive(w: World, s: State, pid: nat, other: nat)
    requires Inv(w, s) && pid in s.procs && other in s.procs && Outstanding(s.procs[other].pc)
    requires s.procs[pid].run.sequence == |s.log| && !s.procs[pid].pc.Gone?
    ensures other == pid
  {
    hide Read, Standing, Submittable, LogOk, EffectsOk, Witnessed, Unspent, Opens, ToolRuns, Unrun, AtMost, FitsWith, Covered, Plus;
    var p, q := s.procs[pid], s.procs[other];
    assert ProcOk(w, s, other, q) && ProcOk(w, s, pid, p);
    assert s.log[..|s.log|] == s.log;
    if p.pc.Loaded? {
      ReadBounds(s.log);
      assert false;
    }
  }

  /** Two runners never hold open reservations at once. */
  lemma OneEngaged(w: World, s: State, a: nat, b: nat)
    requires Inv(w, s) && a in s.procs && b in s.procs && Outstanding(s.procs[a].pc) && Outstanding(s.procs[b].pc)
    ensures a == b
  {
    hide Read, Held, LogOk, EffectsOk, Witnessed, Unspent, Opens, ToolRuns, Unrun, AtMost, FitsWith, Covered, Plus;
    assert ProcOk(w, s, a, s.procs[a]) && ProcOk(w, s, b, s.procs[b]);
  }

  /** An event that may be appended now. */
  predicate Enterable(w: World, s: State, e: Event) {
    && s.creator.Some? && e == Seal(s.creator.value, |s.log| + 1, e.draft.payload)
    && EntryOk(w, s.creator.value, Read(s.log), e) && LedgerOk(w, s.creator.value, Noted(Read(s.log), |s.log|, e))
  }

  predicate Admissible(w: World, s: State, e: Event) {
    Enterable(w, s, e) && Whole(Noted(Read(s.log), |s.log|, e).phase)
  }

  lemma ChronicleGrows(w: World, s: State, pid: nat, e: Event)
    requires Chronicled(w, s) && EffectsOk(w, s) && Enterable(w, s, e)
    ensures var s' := Grown(s, pid, s.log + [e]);
      Longer(s, s') && Read(s'.log) == Noted(Read(s.log), |s.log|, e) && Chronicled(w, s') && EffectsOk(w, s')
  {
    hide Read, EntryOk, LedgerOk, Submittable, Reserves, Starts, Intends, Permits, Clash, Opens, ToolRuns, Sealed, Opening,
         Noted;
    var s' := Grown(s, pid, s.log + [e]);
    ReadSnoc(s.log, e);
    assert Longer(s, s') by { assert s'.authors[..|s.authors|] == s.authors; }
    forall i | 0 <= i < |s'.log| ensures EntryOk(w, s.creator.value, Read(s'.log[..i]), s'.log[i]) {
      if i < |s.log| { assert s'.log[..i] == s.log[..i]; } else { assert s'.log[..i] == s.log; }
    }
    assert s'.log[..7] == s.log[..7];
    assert Chronicled(w, s');
    EntryGrows(w, s.creator.value, Read(s.log), |s.log|, e);
    forall i | 0 <= i < |s'.effects| ensures Justified(w, s', s'.effects[i]) {
      JustifiedLasts(w, s, s', s.effects[i]);
    }
  }

  lemma LogGrows(w: World, s: State, pid: nat, e: Event)
    requires LogOk(w, s) && EffectsOk(w, s) && Admissible(w, s, e)
    ensures var s' := Grown(s, pid, s.log + [e]);
      Longer(s, s') && Read(s'.log) == Noted(Read(s.log), |s.log|, e) && LogOk(w, s') && EffectsOk(w, s')
  {
    hide Chronicled, Enterable, Read, EffectsOk;
    ChronicleGrows(w, s, pid, e);
  }

  /** No record lowers a total. */
  lemma EntryGrows(w: World, r: Request, l: Ledger, i: nat, e: Event)
    requires EntryOk(w, r, l, e)
    ensures var l' := Noted(l, i, e); l.lastTurn <= l'.lastTurn && l.reservations <= l'.reservations && l.intents <= l'.intents && AtMost(l.reserved, l'.reserved)
  {
    hide PayloadCount, Carries, CheckpointOk, ValidModelEvent, ValidMessage, Written, RoutingOk;
  }

  lemma JustifiedLasts(w: World, s: State, s': State, e: Effect)
    requires Longer(s, s') && Justified(w, s, e)
    ensures Justified(w, s', e)
  {
    hide About, IsLoop, BudgetEntry;
    WitnessesLast(w, s, s');
  }

  predicate QuietEvent(e: Event) {
    e.draft.payload.ExecutionRecorded? && Quiet(e.draft.payload.record)
  }

  /** A record that leaves the ledger alone leaves an open reservation as it was. */
  lemma EngagedKeeps(w: World, s: State, s': State, e: Event, pid: nat, p: Proc)
    requires Outstanding(p.pc) && Engaged(w, s, pid, p) && Longer(s, s') && s'.log == s.log + [e]
    requires QuietEvent(e)
    ensures Engaged(w, s', pid, p)
  {
    hide Read, About, IsLoop, BudgetEntry, Unspent, Opens, ToolRuns, Unrun, AtMost, FitsWith, Covered, Plus;
    ReadSnoc(s.log, e);
    WitnessesLast(w, s, s');
  }

  /** The whole state keeps the invariant when one runner commits an admissible event and lands well. */
  lemma CommitKeeps(w: World, s: State, pid: nat, q: Proc, e: Event)
    requires Inv(w, s) && pid in s.procs && s.procs[pid].run.sequence == |s.log| && !s.procs[pid].pc.Gone?
    requires Admissible(w, s, e) && ProcOk(w, Grown(s, pid, s.log + [e]), pid, q)
    ensures Inv(w, Put(Grown(s, pid, s.log + [e]), pid, q))
  {
    hide Admissible, Read, ProcOk, LogOk, EffectsOk, Outstanding;
    var s1 := Grown(s, pid, s.log + [e]);
    LogGrows(w, s, pid, e);
    forall other | other in s.procs && other != pid ensures ProcOk(w, s1, other, s.procs[other]) {
      if Outstanding(s.procs[other].pc) { Exclusive(w, s, pid, other); }
      BystanderKeeps(w, s, s1, other, s.procs[other]);
    }
    PutKeeps(w, s1, pid, q);
  }

  /** Only the runner itself changes; ProcOk never looks at the other runners. */
  lemma PutKeeps(w: World, s: State, pid: nat, q: Proc)
    requires LogOk(w, s) && EffectsOk(w, s) && ProcOk(w, s, pid, q)
    requires forall other :: other in s.procs && other != pid ==> ProcOk(w, s, other, s.procs[other])
    ensures Inv(w, Put(s, pid, q))
  {
    hide Read, Offers, Standing, EntryOk, LedgerOk, Submittable, Sealed, Opening, Justified, Clash, Opens, ToolRuns, Reserves,
         Starts, Intends, StatusOk, AtMost, FitsWith, Covered, Plus, Unspent;
    var s' := Put(s, pid, q);
    assert LogOk(w, s');
    forall i | 0 <= i < |s'.effects| ensures Justified(w, s', s'.effects[i]) { JustifiedSame(w, s, s', s.effects[i]); }
    assert EffectsOk(w, s');
    forall other | other in s'.procs ensures ProcOk(w, s', other, s'.procs[other]) {
      ProcSame(w, s, s', other, s'.procs[other]);
    }
  }

  ghost predicate SameStream(s: State, s': State) {
    s'.log == s.log && s'.authors == s.authors && s'.creator == s.creator && s'.effects == s.effects && s'.spent == s.spent
  }

  lemma JustifiedSame(w: World, s: State, s': State, e: Effect)
    requires SameStream(s, s') && Justified(w, s, e)
    ensures Justified(w, s', e)
  {
  }

  lemma ProcSame(w: World, s: State, s': State, pid: nat, p: Proc)
    requires SameStream(s, s') && ProcOk(w, s, pid, p)
    ensures ProcOk(w, s', pid, p)
  {
    hide Read, Offers, Standing, Submittable, Opens, AtMost, FitsWith, Covered, Plus, Unspent, About, IsLoop, BudgetEntry;
  }
}
