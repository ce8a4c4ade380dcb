/**
 The durable execution protocol as a step machine (engine.go, recovery.go, lifecycle.go,
 context.go, loop/engine.go). Any number of runners share one event stream: an original
 run, duplicates of it, crashed runs and resumers. Policies, routers, approvers,
 estimators, models, tools, cancellation, lost replies and crashes are arbitrary
 parameters of the steps. A step whose guard does not hold changes nothing.
 */
module Protocol {
  import opened Types
  import opened Policy
  import opened Routing
  import opened Projection
  import opened Engine
  import opened StreamProtocol
  import ToolBatch

  /** What one model turn has produced so far; held is an event past the spend check and not yet given to the loop. */
  datatype TurnData = TurnData(
    progress: Progress, text: string, calls: seq<ToolCall>, stop: StopReason, failed: bool, held: Option<ModelEvent>)
  const NO_DATA := TurnData(UNSTARTED, "", [], NoStop, false, None)

  /** One call of a running batch. */
  datatype Status = Waiting | Asked(verdict: Verdict) | Granted(verdict: Verdict) | Allowed(at: nat) | Ran | Barred

  /** Where a runner is. at, start and starts are indexes of its own records in the stream. */
  datatype PC =
    | Loaded(restart: Restart)
    | Admitting
    | Boundary
    | Selecting(compacting: bool, replacement: Option<Message>, routed: Option<ModelRef>)
    | SummaryReserved(at: nat, bound: Spend)
    | Summarizing(at: nat, bound: Spend, used: Spend, usage: Usage)
    | TurnReserved(at: nat, bound: Spend, replacement: Option<Message>)
    | TurnBegun(at: nat, bound: Spend, start: nat)
    | Streaming(at: nat, bound: Spend, used: Spend, data: TurnData)
    | Intending(at: nat, calls: seq<ToolCall>, starts: seq<nat>)
    | Running(at: nat, calls: seq<ToolCall>, starts: seq<nat>, status: seq<Status>)
    | Reporting(at: nat, calls: seq<ToolCall>, finished: nat, reported: nat, parts: seq<ContentPart>)
    | Reported(at: nat)
    | Stopping
    | Finishing
    | Gone

  /** muted is the emitter's failed flag; tripped says that the loop's own usage guard fired. */
  datatype Proc = Proc(
    request: Request, run: RunState, emitted: nat, muted: bool, result: LoopResult, turn: int, model: ModelRef,
    tripped: bool, pc: PC)

  /** An external effect, with the records its runner had committed for it. */
  datatype Effect =
    | SummaryOpened(pid: nat, turn: int, at: nat, bound: Spend)
    | StreamOpened(pid: nat, turn: int, at: nat, bound: Spend, start: nat)
    | ToolRan(pid: nat, turn: int, k: nat, call: ToolCall, begun: nat, verdict: nat)

  /**
   log is the shared stream and authors the runner that committed each event; creator is the request whose opening
   batch was committed. effects and spent record what the outside world saw: calls made and usage accepted.
   */
  datatype State = State(
    workload: ID, log: seq<Event>, authors: seq<nat>, creator: Option<Request>, procs: map<nat, Proc>,
    effects: seq<Effect>, spent: Spend)

  function Initial(workload: ID): State {
    State(workload, [], [], None, map[], [], NO_SPEND)
  }

  datatype Move =
    | Submit(r: Request) | Admit | Load(r: Request) | Claim
    | BeginTurn | Note(record: ExecutionRecord) | Compact | Route(routing: RoutingRecord)
    | Reserve(estimate: Option<Spend>, cap: int)
    | OpenSummary | SummaryEvent(event: ModelEvent) | EndSummary(text: string, draft: CompactionRecord)
    | StartTurn | OpenStream | Recv(event: ModelEvent) | Relay | EndStream
    | Intend | Judge(k: nat, sandbox: Sandbox, answer: Answer) | Decide(k: nat, decision: ApprovalDecision) | Resolve(k: nat)
    | RunTool(k: nat) | EndBatch(finished: nat) | Report(output: ToolOutput, failure: Option<ToolFailure>)
    | AppendResults | Save
    | Fail | Abandon | Stop(failed: bool, cancelled: bool, code: string)
    | Finish(code: string, state: WorkloadState)
    | Crash

  /** One runner takes one step; how says what happens to the append in it, if there is one. */
  datatype Action = Action(pid: nat, move: Move, how: How)

  predicate Live(pc: PC) {
    !pc.Loaded? && !pc.Admitting? && !pc.Stopping? && !pc.Finishing? && !pc.Gone?
  }

  predicate InTurn(pc: PC) {
    pc.TurnBegun? || pc.Streaming? || pc.Intending? || pc.Running? || pc.Reporting? || pc.Reported?
  }

  /** Twice the model calls left, plus one while a turn is under way. */
  function TurnsLeft(p: Proc): int {
    2 * (p.request.budget.maxModelCalls - p.result.modelCalls) + Bit(InTurn(p.pc))
  }

  /** What one step of a live runner may do to that measure: never raise it; a turn begun or saved lowers it. */
  predicate Lowers(p: Proc, s': State, pid: nat) {
    pid in s'.procs &&
    (Live(s'.procs[pid].pc) ==>
      && TurnsLeft(s'.procs[pid]) <= TurnsLeft(p)
      && ((p.pc.TurnReserved? && s'.procs[pid].pc.TurnBegun?) || (p.pc.Reported? && s'.procs[pid].pc.Boundary?) ==>
            TurnsLeft(s'.procs[pid]) < TurnsLeft(p)))
  }

  ghost predicate Steady(s: State, pid: nat, p: Proc, s': State) {
    pid in s.procs && s.procs[pid] == p && Live(p.pc) ==> Lowers(p, s', pid)
  }

  /** A step of one runner: other runners stay as they were, and a step that acts on the outside world writes nothing. */
  ghost predicate Private(s: State, pid: nat, s': State) {
    && s'.workload == s.workload && s.effects <= s'.effects
    && (s'.effects != s.effects ==> s'.log == s.log && s'.authors == s.authors && s'.creator == s.creator)
    && (forall q :: q in s.procs && q != pid ==> q in s'.procs && s'.procs[q] == s.procs[q])
    && (forall q :: q in s'.procs && q != pid ==> q in s.procs)
  }

  // ---- Writing ---------------------------------------------------------------------

  function Put(s: State, pid: nat, p: Proc): State {
    s.(procs := s.procs[pid := p])
  }

  /** The stream after a runner's append, with its new events attributed. */
  function Grown(s: State, pid: nat, log: seq<Event>): State
    requires |s.log| <= |log|
  {
    s.(log := log, authors := s.authors + seq(|log| - |s.log|, i => pid))
  }

  /** A runner appends one record or batch and moves on, or falls back when it did not see success. */
  function Wrote(s: State, pid: nat, p: Proc, ps: seq<Payload>, how: How, success: Proc, fallback: Proc): (s': State)
    ensures s'.effects == s.effects && s'.spent == s.spent && s'.workload == s.workload && s'.creator == s.creator
    ensures pid in s'.procs && s'.procs == s.procs[pid := s'.procs[pid]]
    ensures s'.procs[pid] == success.(run := s'.procs[pid].run) || s'.procs[pid] == fallback.(run := s'.procs[pid].run)
    ensures s.log <= s'.log
  {
    var (log, run, ok) := Appending(p.request, p.run, s.log, ps, how);
    var q := if ok then success else fallback;
    Put(Grown(s, pid, log), pid, q.(run := q.run.(sequence := run.sequence, storeErr := run.storeErr)))
  }

  /** A budget failure is recorded and the turn is over. */
  function Exhausted(s: State, pid: nat, p: Proc, d: Dimension, how: How): State {
    var q := p.(pc := Stopping, run := p.run.(budgetDimension := d));
    Wrote(s, pid, p, [BudgetEntry(p.request, p.turn, BudgetRecord(NO_SPEND, d))], how, q, q)
  }

  function Stopped(p: Proc): Proc {
    p.(pc := Stopping)
  }

  // ---- Loop events -------------------------------------------------------------------

  /** higherClassification: an unlabelled part counts as confidential. */
  function Raised(a: Class, b: Class): (c: Class)
    ensures Rank(c) >= Rank(a) && (ValidClass(a) ==> ValidClass(c))
    ensures Rank(c) >= Rank(if b == Unlabelled then Confidential else b)
    ensures Rank(c) <= Rank(a) ==> c == a
  {
    var b' := if b == Unlabelled then Confidential else b;
    if Rank(b') > Rank(a) then b' else a
  }

  function RaisedBy(a: Class, parts: seq<ContentPart>): (c: Class)
    ensures Rank(c) >= Rank(a) && (ValidClass(a) ==> ValidClass(c))
  {
    if parts == [] then a else Raised(RaisedBy(a, parts[..|parts| - 1]), parts[|parts| - 1].level)
  }

  /** The classification RecordLoopEvent gives a loop event. */
  function LoopLevel(r: Request, l: LoopEvent): (c: Class)
    ensures ValidClass(r.level) ==> ValidClass(c)
  {
    var c := if l.modelEvent.Some? || l.toolCall.Some? then Raised(r.level, r.outputLevel) else r.level;
    var c := if l.toolOutput.Some? then Raised(c, l.toolOutput.value.level) else c;
    if l.message.Some? then RaisedBy(c, l.message.value.content) else c
  }

  function LoopEntry(r: Request, l: LoopEvent): Payload {
    ExecutionRecorded(Blankly(r.step, l.turn, LoopStage, LoopLevel(r, l)).(loop := Some(l)))
  }

  /** A loop event of the runner's current turn and model, numbered next. */
  function Utter(p: Proc, kind: LoopKind): LoopEvent {
    LoopEvent(kind, p.emitted + 1, p.turn, p.model, None, None, None, None, None, "", NoStop)
  }

  /** loopEmitter.emit: the counter advances either way; a failed emit mutes the terminal event and ends the loop. */
  function Emitted(s: State, pid: nat, p: Proc, l: LoopEvent, how: How, success: Proc): State {
    Wrote(s, pid, p, [LoopEntry(p.request, l)], how,
          success.(emitted := p.emitted + 1), Stopped(p).(emitted := p.emitted + 1, muted := true))
  }

  // ---- Starting and resuming ---------------------------------------------------------

  /** A request some caller presents, past everything Engine.run checks before it touches the store. */
  predicate Submittable(w: World, r: Request) {
    && r in w.requests
    && r.workload != ZERO_ID && r.session != ZERO_ID && r.step != ZERO_ID && r.attempt != ZERO_ID && !Blank(r.goal)
    && ValidBudget(r.budget) && r.budget.maxModelCalls > 0 && ValidClass(r.level) && ValidClass(r.outputLevel)
    && ValidRequirements(r.requirements)
    && forall i :: 0 <= i < |r.messages| ==> ValidMessage(w.env, r.messages[i])
  }

  function NewResult(r: Request): LoopResult {
    LoopResult(r.messages, NO_USAGE, NoStop, 0, 0, [], "")
  }

  function NewProc(r: Request, run: RunState, pc: PC): Proc {
    Proc(r, run, 0, false, NewResult(r), 0, NO_MODEL, false, pc)
  }

  /** Run: the opening batch at version zero, or nothing. */
  function DoSubmit(w: World, s: State, pid: nat, r: Request, how: How): (s': State)
    ensures Private(s, pid, s')
  {
    if pid in s.procs || r.workload != s.workload || !Submittable(w, r) then s
    else
      var p := NewProc(r, NEW_RUN, Gone);
      var s' := Wrote(s, pid, p, Opening(w, r), how, p.(pc := Admitting), p);
      if s'.log == s.log then s' else s'.(creator := Some(r))
  }

  function DoAdmit(s: State, pid: nat, p: Proc, how: How): (s': State)
    ensures Private(s, pid, s') && Steady(s, pid, p, s')
  {
    if !p.pc.Admitting? then s
    else if p.request.budget.maxSteps < 1 then
      var s' := Exhausted(s, pid, p, Steps, how);
      Put(s', pid, s'.procs[pid].(pc := Finishing))
    else Put(s, pid, p.(pc := Boundary))
  }

  /** Resume, first half: read the stream. */
  function DoLoad(w: World, s: State, pid: nat, r: Request): (s': State)
    ensures Private(s, pid, s')
  {
    if pid in s.procs || r.workload != s.workload || !Submittable(w, r) || Readable(w, r, s.log).None? then s
    else
      var rs := Readable(w, r, s.log).value;
      Put(s, pid, NewProc(r, RestoredRun(rs, |s.log|), Loaded(rs)))
  }

  /** The runner once its claim is on record: it continues from the checkpoint it read. */
  function Claimed(p: Proc): Proc
    requires p.pc.Loaded? && p.pc.restart.checkpoint.checkpoint.Some?
  {
    var c := p.pc.restart.checkpoint;
    p.(pc := Boundary, emitted := c.sequence, result := c.checkpoint.value)
  }

  /** Resume, second half: claim the next version; only then continue from the checkpoint. */
  function DoClaim(w: World, s: State, pid: nat, p: Proc, how: How): (s': State)
    ensures Private(s, pid, s') && Steady(s, pid, p, s')
  {
    if !p.pc.Loaded? || p.pc.restart.checkpoint.checkpoint.None? then s
    else Wrote(s, pid, p, [ResumedEntry(p.request, w.digest(p.request))], how, Claimed(p), p.(pc := Gone))
  }

  // ---- Selecting a turn ---------------------------------------------------------------

  /** The head of the turn loop and of SelectTurn: both model-call checks. */
  function DoBeginTurn(s: State, pid: nat, p: Proc, how: How): (s': State)
    ensures Private(s, pid, s') && Steady(s, pid, p, s')
  {
    if !p.pc.Boundary? then s
    else
      var q := p.(turn := p.result.modelCalls + 1);
      if p.result.modelCalls >= p.request.budget.maxModelCalls then
        Put(s, pid, Stopped(q).(result := p.result.(budgetExceeded := "model_calls")))
      else if q.turn + p.run.extraCalls > p.request.budget.maxModelCalls then Exhausted(s, pid, q, ModelCalls, how)
      else Put(s, pid, q.(pc := Selecting(false, None, None)))
  }

  /** A policy, approval, sandbox or cleanup record: written wherever a collaborator is consulted or closed. */
  predicate Remark(step: ID, record: ExecutionRecord) {
    && record.step == step && record.budget.None? && record.compaction.None? && record.loop.None?
    && record.routing.None? && record.result.None? && record.requestSHA == ""
    && (record.stage == PolicyStage || record.stage == ApprovalStage || record.stage == SandboxStage || record.stage == CleanupStage)
  }

  /** Tool handlers and cleanup carry on after a failed record; everything else fails with it. */
  function DoNote(s: State, pid: nat, p: Proc, record: ExecutionRecord, how: How): (s': State)
    ensures Private(s, pid, s') && Steady(s, pid, p, s')
  {
    if !Remark(p.request.step, record) then s
    else
      match p.pc
      case Selecting(_, _, _) => Wrote(s, pid, p, [ExecutionRecorded(record)], how, p, Stopped(p))
      case Summarizing(_, _, _, _) => Wrote(s, pid, p, [ExecutionRecorded(record)], how, p, Stopped(p))
      case Streaming(_, _, _, _) => Wrote(s, pid, p, [ExecutionRecorded(record)], how, p, Stopped(p))
      case Running(_, _, _, _) => Wrote(s, pid, p, [ExecutionRecorded(record)], how, p, p)
      case Stopping => Wrote(s, pid, p, [ExecutionRecorded(record)], how, p, p)
      case Finishing => Wrote(s, pid, p, [ExecutionRecorded(record)], how, p, p)
      case _ => s
  }

  /** prepareContext decides to summarize first: one extra call must still fit. */
  function DoCompact(s: State, pid: nat, p: Proc, how: How): (s': State)
    ensures Private(s, pid, s') && Steady(s, pid, p, s')
  {
    if !p.pc.Selecting? || p.pc.compacting || p.pc.replacement.Some? || p.pc.routed.Some? then s
    else if p.turn + p.run.extraCalls >= p.request.budget.maxModelCalls then Exhausted(s, pid, p, ModelCalls, how)
    else Put(s, pid, p.(pc := Selecting(true, None, None)))
  }

  /** The budget handed to routing: what the loop's usage leaves. */
  function Remaining(p: Proc): Budget {
    var b, u := p.request.budget, p.result.usage;
    b.(maxInput := b.maxInput - u.input, maxOutput := b.maxOutput - u.output, maxCost := b.maxCost - u.cost)
  }

  /** The routing of this turn that EvaluateRouter let through. */
  predicate Routable(p: Proc, rr: RoutingRecord) {
    && rr.request.workload == p.request.workload && rr.request.step == p.request.step
    && rr.request.attempt == p.request.attempt && rr.request.budget == Remaining(p)
    && ValidDecision(rr.decision, rr.request)
  }

  function RoutingEntry(r: Request, turn: int, rr: RoutingRecord): Payload {
    ExecutionRecorded(Blankly(r.step, turn, RoutingStage, r.level).(routing := Some(rr)))
  }

  /** The model of the selected candidate. */
  function Chosen(rr: RoutingRecord): (m: Option<ModelRef>)
    ensures m.Some? ==> Carries(Some(rr), m.value)
  {
    ChosenAmong(rr, rr.request.candidates, 0)
  }

  function ChosenAmong(rr: RoutingRecord, cs: seq<Candidate>, k: nat): (m: Option<ModelRef>)
    requires cs == rr.request.candidates && k <= |cs|
    ensures m.Some? ==> Carries(Some(rr), m.value)
    decreases |cs| - k
  {
    if rr.decision.selected == ZERO_ID || k == |cs| then None
    else if cs[k].id == rr.decision.selected then Some(cs[k].model.ref)
    else ChosenAmong(rr, cs, k + 1)
  }

  function DoRoute(s: State, pid: nat, p: Proc, rr: RoutingRecord, how: How): (s': State)
    ensures Private(s, pid, s') && Steady(s, pid, p, s')
  {
    hide Routable, Chosen, Wrote;
    if !p.pc.Selecting? || p.pc.routed.Some? || !Routable(p, rr) then s
    else
      var next := if Chosen(rr).Some? then p.(pc := p.pc.(routed := Chosen(rr))) else Stopped(p);
      Wrote(s, pid, p, [RoutingEntry(p.request, p.turn, rr)], how, next, Stopped(p))
  }

  /** The runner once its reservation at index at is on record. */
  function Reserved(p: Proc, at: nat, bound: Spend): Proc
    requires p.pc.Selecting? && p.pc.routed.Some?
  {
    p.(pc := if p.pc.compacting then SummaryReserved(at, bound) else TurnReserved(at, bound, p.pc.replacement),
       run := p.run.(reserved := Plus(p.run.reserved, bound)),
       model := if p.pc.compacting then p.model else p.pc.routed.value)
  }

  /** reserve, for the summary or for the turn itself. */
  function DoReserve(s: State, pid: nat, p: Proc, estimate: Option<Spend>, cap: int, how: How): (s': State)
    ensures Private(s, pid, s') && Steady(s, pid, p, s')
  {
    if !p.pc.Selecting? || p.pc.routed.None? then s
    else if estimate.None? || !ValidSpend(estimate.value) then Put(s, pid, Stopped(p))
    else
      var bound := estimate.value;
      var d := Exceeding(Limit(p.request.budget), p.run.reserved, bound);
      if d != NoDimension then Exhausted(s, pid, p, d, how)
      else if cap > bound.output then Put(s, pid, Stopped(p))
      else
        Wrote(s, pid, p, [BudgetEntry(p.request, p.turn, BudgetRecord(bound, NoDimension))], how,
              Reserved(p, |s.log|, bound), Stopped(p))
  }

  // ---- Summaries -----------------------------------------------------------------------

  /** The summary's stream is open; the extra call is counted whatever becomes of it. */
  function SummaryBegun(p: Proc): Proc
    requires p.pc.SummaryReserved?
  {
    p.(pc := Summarizing(p.pc.at, p.pc.bound, NO_SPEND, NO_USAGE), run := p.run.(extraCalls := p.run.extraCalls + 1))
  }

  function DoOpenSummary(s: State, pid: nat, p: Proc): (s': State)
    ensures Private(s, pid, s') && Steady(s, pid, p, s')
  {
    if !p.pc.SummaryReserved? then s
    else Put(s.(effects := s.effects + [SummaryOpened(pid, p.turn, p.pc.at, p.pc.bound)]), pid, SummaryBegun(p))
  }

  /** The spend check of a wrapped stream: the dimension in which a usage report passes what is left of the bound. */
  function Overrun(bound: Spend, used: Spend, u: Usage): (d: Dimension)
    ensures d == NoDimension <==> FitsWith(used, SpendOf(u), bound)
    ensures d != UnknownDimension
  {
    Exceeding(bound, used, SpendOf(u))
  }

  /** The summary's stream after a usage report within its bound. */
  function SummaryUsed(p: Proc, u: Usage): Proc
    requires p.pc.Summarizing?
  {
    p.(pc := p.pc.(used := Plus(p.pc.used, SpendOf(u)), usage := PlusUsage(p.pc.usage, u)))
  }

  function DoSummaryEvent(s: State, pid: nat, p: Proc, e: ModelEvent, how: How): (s': State)
    ensures Private(s, pid, s') && Steady(s, pid, p, s')
  {
    if !p.pc.Summarizing? || e.usage.None? then s
    else
      var u := e.usage.value;
      if !ValidUsage(u) then Put(s, pid, Stopped(p))
      else if Overrun(p.pc.bound, p.pc.used, u) != NoDimension then Exhausted(s, pid, p, Overrun(p.pc.bound, p.pc.used, u), how)
      else Put(s.(spent := Plus(s.spent, SpendOf(u))), pid, SummaryUsed(p, u))
  }

  function Summary(r: Request, text: string): Message {
    Message(User, [ContentPart(TextContent, Raised(r.level, r.outputLevel), text, ZERO_ID, "", "", "", false)])
  }

  function CompactionEntry(r: Request, turn: int, c: CompactionRecord): Payload {
    ExecutionRecorded(Blankly(r.step, turn, CompactionStage, Raised(r.level, r.outputLevel)).(compaction := Some(c)))
  }

  /** The runner once its summary is on record: the usage is counted and the summary will replace the conversation. */
  function Summarized(p: Proc, summary: Message): Proc
    requires p.pc.Summarizing?
  {
    p.(pc := Selecting(false, Some(summary), None),
       run := p.run.(compactionUsage := PlusUsage(p.run.compactionUsage, p.pc.usage)))
  }

  /** The summary is recorded, then counted, and will replace the conversation; draft carries the rest of the record. */
  function DoEndSummary(s: State, pid: nat, p: Proc, text: string, draft: CompactionRecord, how: How): (s': State)
    ensures Private(s, pid, s') && Steady(s, pid, p, s')
  {
    if !p.pc.Summarizing? then s
    else if text == "" || Rank(Raised(p.request.level, p.request.outputLevel)) > Rank(p.request.level) then Put(s, pid, Stopped(p))
    else
      var c := draft.(summary := Summary(p.request, text), usage := p.pc.usage);
      Wrote(s, pid, p, [CompactionEntry(p.request, p.turn, c)], how, Summarized(p, c.summary), Stopped(p))
  }

  // ---- One model turn --------------------------------------------------------------------

  /** The conversation the turn is asked about: the summary, if there is one. */
  function Refreshed(p: Proc): Proc
    requires p.pc.TurnReserved?
  {
    if p.pc.replacement.Some? then p.(result := p.result.(messages := [p.pc.replacement.value])) else p
  }

  /** The runner once its turn-started event at index start is on record: the model call is counted. */
  function Begun(p: Proc, start: nat): Proc
    requires p.pc.TurnReserved?
  {
    var q := Refreshed(p);
    q.(pc := TurnBegun(p.pc.at, p.pc.bound, start), result := q.result.(modelCalls := p.result.modelCalls + 1))
  }

  function DoStartTurn(s: State, pid: nat, p: Proc, how: How): (s': State)
    ensures Private(s, pid, s') && Steady(s, pid, p, s')
  {
    if !p.pc.TurnReserved? then s
    else Emitted(s, pid, Refreshed(p), Utter(p, TurnStarted), how, Begun(p, |s.log|))
  }

  function DoOpenStream(s: State, pid: nat, p: Proc): (s': State)
    ensures Private(s, pid, s') && Steady(s, pid, p, s')
  {
    if !p.pc.TurnBegun? then s
    else
      Put(s.(effects := s.effects + [StreamOpened(pid, p.turn, p.pc.at, p.pc.bound, p.pc.start)]), pid,
          p.(pc := Streaming(p.pc.at, p.pc.bound, NO_SPEND, NO_DATA)))
  }

  /** An event past the spend check, held until the loop takes it. */
  function Holding(p: Proc, e: ModelEvent): Proc
    requires p.pc.Streaming?
  {
    var used := if e.usage.Some? then Plus(p.pc.used, SpendOf(e.usage.value)) else p.pc.used;
    p.(pc := p.pc.(used := used, data := p.pc.data.(held := Some(e))))
  }

  /** engineModelStream.Recv up to the policy on the way back: the spend check. */
  function DoRecv(s: State, pid: nat, p: Proc, e: ModelEvent, how: How): (s': State)
    ensures Private(s, pid, s') && Steady(s, pid, p, s')
  {
    if !p.pc.Streaming? || p.pc.data.held.Some? then s
    else if e.usage.None? then Put(s, pid, Holding(p, e))
    else
      var u := e.usage.value;
      if !ValidUsage(u) then Put(s, pid, Stopped(p))
      else if Overrun(p.pc.bound, p.pc.used, u) != NoDimension then Exhausted(s, pid, p, Overrun(p.pc.bound, p.pc.used, u), how)
      else Put(s.(spent := Plus(s.spent, SpendOf(u))), pid, Holding(p, e))
  }

  /** A sum of two non-negative 64-bit values: the wrapped result, negative exactly when it overflowed. */
  function Wrap(x: int): int {
    if x > MAX_INT64 then x - 2 * (MAX_INT64 + 1) else x
  }

  /** A usage report of non-negative 64-bit values. */
  predicate Int64Usage(u: Usage) {
    && 0 <= u.input <= MAX_INT64 && 0 <= u.output <= MAX_INT64 && 0 <= u.cacheRead <= MAX_INT64
    && 0 <= u.cacheWrite <= MAX_INT64 && 0 <= u.cost <= MAX_INT64
  }

  /**
   addUsage: a wrapped total is never more than the sum; of 64-bit reports the total is valid exactly when no field
   overflowed, and then it is the sum.
   */
  function AddUsage(a: Usage, b: Usage): (total: Usage)
    ensures AtMost(SpendOf(total), Plus(SpendOf(a), SpendOf(b)))
    ensures Int64Usage(a) && Int64Usage(b) ==> (ValidUsage(total) <==> Int64Usage(PlusUsage(a, b)))
    ensures Int64Usage(PlusUsage(a, b)) ==> total == PlusUsage(a, b)
  {
    Usage(Wrap(a.input + b.input), Wrap(a.output + b.output), Wrap(a.cacheRead + b.cacheRead),
          Wrap(a.cacheWrite + b.cacheWrite), Wrap(a.cost + b.cost))
  }

  /** exceededUsage: the loop's own guard. */
  predicate ExceedsUsage(u: Usage, b: Budget) {
    u.input > b.maxInput || u.output > b.maxOutput || u.cost > b.maxCost
  }

  /** What consumeTurn does with an event once the event is on record. */
  function Consumed(p: Proc, e: ModelEvent, v: Progress): (q: Proc)
    requires p.pc.Streaming?
    ensures q.request == p.request && q.result.modelCalls == p.result.modelCalls && (q.pc.Streaming? || q.pc.Stopping?)
  {
    var d := p.pc.data.(held := None, progress := v);
    match e.kind
    case TextDeltaEvent => p.(pc := p.pc.(data := d.(text := d.text + e.text)))
    case ToolCallEvent => if e.call.Some? then p.(pc := p.pc.(data := d.(calls := d.calls + [e.call.value]))) else Stopped(p)
    case UsageEvent =>
      if e.usage.None? then Stopped(p)
      else
        var total := AddUsage(p.result.usage, e.usage.value);
        var q := p.(result := p.result.(usage := total));
        if !ValidUsage(total) then Stopped(q)
        else if ExceedsUsage(total, p.request.budget) then Stopped(q).(tripped := true)
        else q.(pc := p.pc.(data := d))
    case StopEvent => p.(pc := p.pc.(data := d.(stop := e.stop)))
    case ErrorEvent => p.(pc := p.pc.(data := d.(failed := true)))
    case _ => p.(pc := p.pc.(data := d))
  }

  /** The loop's half of receiving: the validator, the record of the event, then its content. */
  function DoRelay(w: World, s: State, pid: nat, p: Proc, how: How): (s': State)
    ensures Private(s, pid, s') && Steady(s, pid, p, s')
  {
    if !p.pc.Streaming? || p.pc.data.held.None? then s
    else
      var e := p.pc.data.held.value;
      var (v, ok) := Accepted(w.env, p.pc.data.progress, e);
      if !ok then Put(s, pid, Stopped(p))
      else Emitted(s, pid, p, Utter(p, ModelOutput).(modelEvent := Some(e)), how, Consumed(p, e, v))
  }

  function CallParts(level: Class, calls: seq<ToolCall>): (parts: seq<ContentPart>)
    ensures |parts| == |calls|
  {
    seq(|calls|, i requires 0 <= i < |calls| =>
      ContentPart(ToolCallContent, level, "", ZERO_ID, calls[i].id, calls[i].name, calls[i].input, false))
  }

  function AssistantMessage(level: Class, text: string, calls: seq<ToolCall>): Message {
    var head := if text == "" then [] else [ContentPart(TextContent, level, text, ZERO_ID, "", "", "", false)];
    Message(Assistant, head + CallParts(level, calls))
  }

  /** The call identifiers already in the conversation. */
  predicate Mentions(messages: seq<Message>, id: string) {
    exists i, j :: 0 <= i < |messages| && 0 <= j < |messages[i].content| &&
      messages[i].content[j].kind == ToolCallContent && messages[i].content[j].toolCallID == id
  }

  /** No call identifier is repeated, in the turn or from the conversation. */
  predicate FreshCalls(messages: seq<Message>, calls: seq<ToolCall>) {
    && (forall i :: 0 <= i < |calls| ==> !Mentions(messages, calls[i].id))
    && (forall i, j :: 0 <= i < j < |calls| ==> calls[i].id != calls[j].id)
  }

  /** What the loop does with a completed turn once its message is on record. */
  function AfterTurn(p: Proc, at: nat, d: TurnData): (q: Proc)
    ensures q.request == p.request && q.result.modelCalls == p.result.modelCalls && (q.pc.Intending? || q.pc.Stopping?)
  {
    if d.failed then Stopped(p)
    else
      var q := p.(result := p.result.(stop := d.stop));
      if d.stop != ToolUse || d.calls == [] then Stopped(q)
      else if p.result.toolCalls + |d.calls| > p.request.budget.maxToolCalls then
        Stopped(q).(result := q.result.(budgetExceeded := "tool_calls"))
      else q.(pc := Intending(at, d.calls, []), result := q.result.(toolCalls := q.result.toolCalls + |d.calls|))
  }

  function DoEndStream(w: World, s: State, pid: nat, p: Proc, how: How): (s': State)
    ensures Private(s, pid, s') && Steady(s, pid, p, s')
  {
    if !p.pc.Streaming? || p.pc.data.held.Some? then s
    else
      var d := p.pc.data;
      var m := AssistantMessage(p.request.outputLevel, d.text, d.calls);
      if !Complete(d.progress) || !FreshCalls(p.result.messages, d.calls) then Put(s, pid, Stopped(p))
      else if m.content == [] then Put(s, pid, AfterTurn(p, p.pc.at, d))
      else if !ValidMessage(w.env, m) then Put(s, pid, Stopped(p))
      else
        var q := p.(result := p.result.(messages := p.result.messages + [m]));
        Emitted(s, pid, q, Utter(p, MessageAppended).(message := Some(m)), how, AfterTurn(q, p.pc.at, d))
  }

  // ---- One batch of tools ----------------------------------------------------------------

  /** The runner after its next tool-started event, at index i. */
  function Intended(p: Proc, i: nat): Proc
    requires p.pc.Intending?
  {
    var starts := p.pc.starts + [i];
    p.(pc := if |starts| < |p.pc.calls| then Intending(p.pc.at, p.pc.calls, starts)
             else Running(p.pc.at, p.pc.calls, starts, seq(|p.pc.calls|, k => Waiting)))
  }

  function DoIntend(s: State, pid: nat, p: Proc, how: How): (s': State)
    ensures Private(s, pid, s') && Steady(s, pid, p, s')
  {
    if !p.pc.Intending? || |p.pc.starts| >= |p.pc.calls| then s
    else
      Emitted(s, pid, p, Utter(p, ToolStarted).(toolCall := Some(p.pc.calls[|p.pc.starts|])), how, Intended(p, |s.log|))
  }

  /** The question engineToolHandler.Execute puts to the execution policy. */
  function ToolQuestion(w: World, r: Request, call: ToolCall, zone: Zone, autonomous: bool, sandbox: Sandbox): ExecutionRequest {
    ExecutionRequest(r.workload, r.step, r.attempt, ToolStep, Target(sandbox, ToolTarget, zone, None, call.name),
                     w.manifestOf(call), autonomous)
  }

  function VerdictEntry(r: Request, turn: int, m: Manifest, v: Verdict): Payload {
    ExecutionRecorded(Blankly(r.step, turn, PolicyStage, ManifestClass(m.items)).(manifest := Some(m), verdict := Some(v)))
  }

  function Marked(p: Proc, k: nat, t: Status): Proc
    requires p.pc.Running? && k < |p.pc.status|
  {
    p.(pc := p.pc.(status := p.pc.status[k := t]))
  }

  /** The policy is asked about one waiting call and its verdict recorded; only a recorded allow lets the call run. */
  function DoJudge(w: World, s: State, pid: nat, p: Proc, k: nat, sandbox: Sandbox, answer: Answer, how: How): (s': State)
    ensures Private(s, pid, s') && Steady(s, pid, p, s')
  {
    hide EvaluateExecution, ValidManifest, ManifestClass, VerdictEntry, Wrote, ValidVerdict, ValidExecutionRequest, Digest,
         ScopeForExecution;
    if !p.pc.Running? || k >= |p.pc.status| || k >= |p.pc.calls| || p.pc.status[k] != Waiting then s
    else
      var q := ToolQuestion(w, p.request, p.pc.calls[k], p.request.zone, p.request.autonomous, sandbox);
      var v := EvaluateExecution(w.env, answer, q);
      if !ValidManifest(q.manifest) then Put(s, pid, Marked(p, k, Barred))
      else
        var next := if v.action == Allow then Allowed(|s.log|) else if v.action == RequireApproval then Asked(v) else Barred;
        Wrote(s, pid, p, [VerdictEntry(p.request, p.turn, q.manifest, v)], how, Marked(p, k, next), Marked(p, k, Barred))
  }

  function ApprovalEntry(r: Request, turn: int, m: Manifest, v: Verdict, d: ApprovalDecision): Payload {
    ExecutionRecorded(Blankly(r.step, turn, ApprovalStage, ManifestClass(m.items)).(
      approval := Some(Approval(ApprovalRequest(v.scope, m), d))))
  }

  /** approve: secret content is never put to an approver; the decision is recorded before it counts. */
  function DoDecide(w: World, s: State, pid: nat, p: Proc, k: nat, d: ApprovalDecision, how: How): (s': State)
    ensures Private(s, pid, s') && Steady(s, pid, p, s')
  {
    if !p.pc.Running? || k >= |p.pc.status| || k >= |p.pc.calls| || !p.pc.status[k].Asked? || Blank(d.actor) then s
    else
      var m, v := w.manifestOf(p.pc.calls[k]), p.pc.status[k].verdict;
      if !ValidManifest(m) || ManifestClass(m.items) == Secret then Put(s, pid, Marked(p, k, Barred))
      else
        Wrote(s, pid, p, [ApprovalEntry(p.request, p.turn, m, v, d)], how,
              Marked(p, k, if d.approved then Granted(v) else Barred), Marked(p, k, Barred))
  }

  function Approved(v: Verdict): Verdict {
    v.(policy := "fabricrunner.approval", version := "1", rule := "approval.granted", action := Allow,
       reason := "recorded approval granted")
  }

  /** resolveApproval: the granted verdict is itself recorded before the call may run. */
  function DoResolve(w: World, s: State, pid: nat, p: Proc, k: nat, how: How): (s': State)
    ensures Private(s, pid, s') && Steady(s, pid, p, s')
  {
    if !p.pc.Running? || k >= |p.pc.status| || k >= |p.pc.calls| || !p.pc.status[k].Granted? then s
    else
      var m, v := w.manifestOf(p.pc.calls[k]), Approved(p.pc.status[k].verdict);
      Wrote(s, pid, p, [VerdictEntry(p.request, p.turn, m, v)], how, Marked(p, k, Allowed(|s.log|)), Marked(p, k, Barred))
  }

  function DoRunTool(s: State, pid: nat, p: Proc, k: nat): (s': State)
    ensures Private(s, pid, s') && Steady(s, pid, p, s')
  {
    if !p.pc.Running? || k >= |p.pc.status| || k >= |p.pc.calls| || k >= |p.pc.starts| || !p.pc.status[k].Allowed? then s
    else
      var e := ToolRan(pid, p.turn, k, p.pc.calls[k], p.pc.starts[k], p.pc.status[k].at);
      Put(s.(effects := s.effects + [e]), pid, Marked(p, k, Ran))
  }

  /** executeBatch returns; on cancellation it may return with only the first results. */
  function DoEndBatch(s: State, pid: nat, p: Proc, finished: nat): (s': State)
    ensures Private(s, pid, s') && Steady(s, pid, p, s')
  {
    if !p.pc.Running? || finished > |p.pc.calls| then s
    else Put(s, pid, p.(pc := Reporting(p.pc.at, p.pc.calls, finished, 0, [])))
  }

  function DoReport(s: State, pid: nat, p: Proc, o: ToolOutput, failure: Option<ToolFailure>, how: How): (s': State)
    ensures Private(s, pid, s') && Steady(s, pid, p, s')
  {
    if !p.pc.Reporting? || p.pc.reported >= p.pc.finished || p.pc.reported >= |p.pc.calls| then s
    else
      var call := p.pc.calls[p.pc.reported];
      var q := if failure.Some? then p.(result := p.result.(failures := p.result.failures + [failure.value])) else p;
      var l := Utter(p, ToolCompleted).(toolCall := Some(call), toolOutput := Some(o),
                                         failureCode := if failure.Some? then failure.value.code else "");
      Emitted(s, pid, q, l, how,
              q.(pc := p.pc.(reported := p.pc.reported + 1, parts := p.pc.parts + ToolBatch.OutputParts(call, o))))
  }

  function DoAppendResults(w: World, s: State, pid: nat, p: Proc, how: How): (s': State)
    ensures Private(s, pid, s') && Steady(s, pid, p, s')
  {
    if !p.pc.Reporting? || p.pc.reported != p.pc.finished then s
    else
      var m := Message(ToolRole, p.pc.parts);
      if p.pc.finished != |p.pc.calls| || !ValidMessage(w.env, m) then Put(s, pid, Stopped(p))
      else
        var q := p.(result := p.result.(messages := p.result.messages + [m]));
        Emitted(s, pid, q, Utter(p, MessageAppended).(message := Some(m)), how, q.(pc := Reported(p.pc.at)))
  }

  /** The checkpoint event: the loop's whole result. */
  function Saving(p: Proc): LoopEvent {
    Utter(p, Checkpoint).(checkpoint := Some(p.result))
  }

  /** The turn boundary: the checkpoint is committed. */
  function DoSave(s: State, pid: nat, p: Proc, how: How): (s': State)
    ensures Private(s, pid, s') && Steady(s, pid, p, s')
  {
    if !p.pc.Reported? then s
    else Emitted(s, pid, p, Saving(p), how, p.(pc := Boundary))
  }

  // ---- Ending ------------------------------------------------------------------------------

  /** The terminal loop event, unless an emit failed before. */
  function DoStop(s: State, pid: nat, p: Proc, failed: bool, cancelled: bool, code: string, how: How): (s': State)
    ensures Private(s, pid, s') && Steady(s, pid, p, s')
  {
    if !p.pc.Stopping? then s
    else if p.muted then Put(s, pid, p.(pc := Finishing))
    else
      var stop := if cancelled then Cancelled else if failed || p.result.stop == NoStop then UnknownStop else p.result.stop;
      var l := Utter(p, LoopStopped).(stop := stop, failureCode := code);
      var q := p.(pc := Finishing, emitted := p.emitted + 1);
      Wrote(s, pid, p, [LoopEntry(p.request, l)], how, q, q.(muted := true))
  }

  /** The dimension as the result names it. */
  function DimensionName(d: Dimension): string {
    match d
    case InputTokens => "input_tokens"
    case OutputTokens => "output_tokens"
    case Cost => "cost"
    case Steps => "steps"
    case ModelCalls => "model_calls"
    case ToolCalls => "tool_calls"
    case WallTime => "wall_time"
    case _ => ""
  }

  /** The result of the run: the loop's, plus the summaries; a budget failure of the engine names its dimension. */
  function FinalResult(p: Proc): LoopResult {
    p.result.(modelCalls := p.result.modelCalls + p.run.extraCalls,
              usage := PlusUsage(p.result.usage, p.run.compactionUsage),
              budgetExceeded := if p.run.budgetDimension == NoDimension then p.result.budgetExceeded
                                else DimensionName(p.run.budgetDimension))
  }

  function StepOutcome(state: WorkloadState): StepState {
    if state == WSucceeded then SSucceeded else if state == WFailed then SFailed else SCancelled
  }

  /** The highest level of the request and of everything said. */
  function RaisedByAll(a: Class, messages: seq<Message>): (c: Class)
    ensures Rank(c) >= Rank(a) && (ValidClass(a) ==> ValidClass(c))
  {
    if messages == [] then a else RaisedBy(RaisedByAll(a, messages[..|messages| - 1]), messages[|messages| - 1].content)
  }

  /** The final batch. */
  function Closing(p: Proc, failure: string, state: WorkloadState): seq<Payload> {
    [ExecutionRecorded(Blankly(p.request.step, 0, FinishedStage, RaisedByAll(p.request.level, p.result.messages)).(
       result := Some(FinalResult(p)), failureCode := failure)),
     StepTransitioned(p.request.step, SRunning, StepOutcome(state)), WorkloadTransitioned(WRunning, state)]
  }

  function DoFinish(s: State, pid: nat, p: Proc, failure: string, state: WorkloadState, how: How): (s': State)
    ensures Private(s, pid, s') && Steady(s, pid, p, s')
  {
    if !p.pc.Finishing? || !Terminal(state) then s
    else Wrote(s, pid, p, Closing(p, failure, state), how, p.(pc := Gone), p.(pc := Gone))
  }

  // ---- The machine ---------------------------------------------------------------------------

  function Next(w: World, s: State, a: Action): State {
    match a.move
    case Submit(r) => DoSubmit(w, s, a.pid, r, a.how)
    case Load(r) => DoLoad(w, s, a.pid, r)
    case _ => if a.pid in s.procs then Acts(w, s, a.pid, s.procs[a.pid], a.move, a.how) else s
  }

  function Acts(w: World, s: State, pid: nat, p: Proc, move: Move, how: How): State {
    match move
    case Submit(_) => s
    case Load(_) => s
    case Admit => DoAdmit(s, pid, p, how)
    case Claim => DoClaim(w, s, pid, p, how)
    case BeginTurn => DoBeginTurn(s, pid, p, how)
    case Note(record) => DoNote(s, pid, p, record, how)
    case Compact => DoCompact(s, pid, p, how)
    case Route(rr) => DoRoute(s, pid, p, rr, how)
    case Reserve(estimate, cap) => DoReserve(s, pid, p, estimate, cap, how)
    case OpenSummary => DoOpenSummary(s, pid, p)
    case SummaryEvent(e) => DoSummaryEvent(s, pid, p, e, how)
    case EndSummary(text, draft) => DoEndSummary(s, pid, p, text, draft, how)
    case StartTurn => DoStartTurn(s, pid, p, how)
    case OpenStream => DoOpenStream(s, pid, p)
    case Recv(e) => DoRecv(s, pid, p, e, how)
    case Relay => DoRelay(w, s, pid, p, how)
    case EndStream => DoEndStream(w, s, pid, p, how)
    case Intend => DoIntend(s, pid, p, how)
    case Judge(k, sandbox, answer) => DoJudge(w, s, pid, p, k, sandbox, answer, how)
    case Decide(k, d) => DoDecide(w, s, pid, p, k, d, how)
    case Resolve(k) => DoResolve(w, s, pid, p, k, how)
    case RunTool(k) => DoRunTool(s, pid, p, k)
    case EndBatch(finished) => DoEndBatch(s, pid, p, finished)
    case Report(o, failure) => DoReport(s, pid, p, o, failure, how)
    case AppendResults => DoAppendResults(w, s, pid, p, how)
    case Save => DoSave(s, pid, p, how)
    case Fail => if Live(p.pc) then Put(s, pid, Stopped(p)) else s
    case Abandon => if p.pc.Boundary? then Put(s, pid, p.(pc := Finishing)) else s
    case Stop(failed, cancelled, code) => DoStop(s, pid, p, failed, cancelled, code, how)
    case Finish(failure, state) => DoFinish(s, pid, p, failure, state, how)
    case Crash => Put(s, pid, p.(pc := Gone))
  }

  /** The k-th step of a run leads from the k-th state to the next. */
  ghost predicate Stepped(w: World, states: seq<State>, run: seq<Action>, k: nat) {
    k < |run| && k + 1 < |states| && states[k + 1] == Next(w, states[k], run[k])
  }

  /** A whole run from an empty stream: any interleaving of steps of any number of runners, and every state on the way. */
  ghost predicate Behaviour(w: World, workload: ID, states: seq<State>, run: seq<Action>) {
    |states| == |run| + 1 && states[0] == Initial(workload) && forall k: nat :: k < |run| ==> Stepped(w, states, run, k)
  }
}
