/**
 The guarantees are not vacuous: when every collaborator answers, a run opens its stream,
 runs its tool, saves its turn, and is taken over from there after a crash.
 */
module Liveness {
  import opened Types
  import opened Policy
  import opened Routing
  import opened Projection
  import opened Engine
  import opened Ledger
  import opened Protocol
  import opened Safety
  import SP = StreamProtocol
  import opened Guarantees
  import opened Acceptance

  // ---- One step ---------------------------------------------------------------------------------------

  /** A runner at the end of the stream, with its store in order. */
  predicate Ready(s: State, pid: nat) {
    pid in s.procs && s.procs[pid].run.sequence == |s.log| && !s.procs[pid].run.storeErr
  }

  /** The state after a runner at the end of the stream has committed one record and moved on. */
  function Committed(s: State, pid: nat, payload: Payload, success: Proc): State {
    Put(Grown(s, pid, s.log + [Seal(success.request, |s.log| + 1, payload)]), pid,
        success.(run := success.run.(sequence := |s.log| + 1, storeErr := false)))
  }

  lemma WroteCommits(s: State, pid: nat, p: Proc, payload: Payload, success: Proc, fallback: Proc)
    requires p.run.sequence == |s.log| && !p.run.storeErr && success.request == p.request
    ensures Wrote(s, pid, p, [payload], SURE, success, fallback) == Committed(s, pid, payload, success)
  {
    assert Sealed(p.request, |s.log|, [payload]) == [Seal(p.request, |s.log| + 1, payload)];
  }

  lemma EmitCommits(s: State, pid: nat, p: Proc, l: LoopEvent, success: Proc)
    requires p.run.sequence == |s.log| && !p.run.storeErr && success.request == p.request
    ensures Emitted(s, pid, p, l, SURE, success) == Committed(s, pid, LoopEntry(p.request, l), success.(emitted := p.emitted + 1))
  {
    hide Wrote, Committed, LoopEntry;
    WroteCommits(s, pid, p, LoopEntry(p.request, l), success.(emitted := p.emitted + 1), Stopped(p).(emitted := p.emitted + 1, muted := true));
  }

  lemma CommittedShape(s: State, pid: nat, payload: Payload, success: Proc)
    ensures var s' := Committed(s, pid, payload, success);
      && pid in s'.procs && s'.procs[pid] == success.(run := s'.procs[pid].run) && s'.effects == s.effects
      && s'.procs == s.procs[pid := s'.procs[pid]] && s'.workload == s.workload
      && s'.procs[pid].run == success.run.(sequence := |s'.log|, storeErr := false) && |s'.log| == |s.log| + 1
  {
  }

  lemma CommittedSame(s: State, s': State, pid: nat, payload: Payload, success: Proc)
    requires pid in s.procs && pid in s'.procs && s' == Put(s, pid, s'.procs[pid])
    ensures Committed(s', pid, payload, success) == Committed(s, pid, payload, success)
  {
    var a, b := Committed(s', pid, payload, success), Committed(s, pid, payload, success);
    assert a.procs == b.procs;
  }

  /** The runner is at the end of a stream whose records all pass their own checks. */
  ghost predicate InOrder(w: World, s: State, pid: nat) {
    Ready(s, pid) && s.creator == Some(s.procs[pid].request) && AllVouched(w, s)
  }

  lemma InOrderReady(w: World, s: State, pid: nat)
    requires InOrder(w, s, pid)
    ensures Ready(s, pid)
  {
  }

  lemma CommittedInOrder(w: World, s: State, pid: nat, payload: Payload, success: Proc)
    requires InOrder(w, s, pid) && success.request == s.procs[pid].request
    requires Vouched(w, success.request, Seal(success.request, |s.log| + 1, payload))
    ensures InOrder(w, Committed(s, pid, payload, success), pid)
  {
    hide Vouched;
  }

  /** An effect or a private move leaves the stream in order. */
  lemma StaysInOrder(w: World, s: State, pid: nat, s': State)
    requires InOrder(w, s, pid) && pid in s'.procs && s'.procs[pid].run == s.procs[pid].run && s'.procs[pid].request == s.procs[pid].request
    requires s'.log == s.log && s'.creator == s.creator
    ensures InOrder(w, s', pid)
  {
  }

  lemma LoopVouched(w: World, r: Request, n: nat, l: LoopEvent)
    ensures Vouched(w, r, Seal(r, n, LoopEntry(r, l)))
  {
    hide LoopLevel;
  }

  /** A loop event at the end of the stream, in order before and after. */
  lemma EmitsInOrder(w: World, s: State, pid: nat, q: Proc, l: LoopEvent, success: Proc)
    requires InOrder(w, s, pid) && q.request == s.procs[pid].request && q.run == s.procs[pid].run && success.request == q.request
    ensures var s' := Emitted(s, pid, q, l, SURE, success);
      && InOrder(w, s', pid) && s'.effects == s.effects
      && s'.procs[pid] == success.(emitted := q.emitted + 1, run := s'.procs[pid].run)
  {
    hide Emitted, LoopEntry, Committed, InOrder;
    assert Ready(s, pid) by { InOrderReady(w, s, pid); }
    EmitCommits(s, pid, q, l, success);
    LoopVouched(w, q.request, |s.log| + 1, l);
    CommittedInOrder(w, s, pid, LoopEntry(q.request, l), success.(emitted := q.emitted + 1));
    CommittedShape(s, pid, LoopEntry(q.request, l), success.(emitted := q.emitted + 1));
  }

  /** Each of these moves is its own function of the runner. */
  lemma BeginStepIs(w: World, s: State, pid: nat, move: Move)
    requires pid in s.procs
    ensures var p, s' := s.procs[pid], Next(w, s, Action(pid, move, SURE));
      match move
      case Admit => s' == DoAdmit(s, pid, p, SURE)
      case BeginTurn => s' == DoBeginTurn(s, pid, p, SURE)
      case Route(rr) => s' == DoRoute(s, pid, p, rr, SURE)
      case Reserve(estimate, cap) => s' == DoReserve(s, pid, p, estimate, cap, SURE)
      case _ => true
  {
    hide DoSubmit, DoAdmit, DoLoad, DoClaim, DoBeginTurn, DoNote, DoCompact, DoRoute, DoReserve, DoOpenSummary,
         DoSummaryEvent, DoEndSummary, DoStartTurn, DoOpenStream, DoRecv, DoRelay, DoEndStream, DoIntend, DoJudge, DoDecide,
         DoResolve, DoRunTool, DoEndBatch, DoReport, DoAppendResults, DoSave, DoStop, DoFinish, Private, Steady;
  }

  lemma StreamStepIs(w: World, s: State, pid: nat, move: Move)
    requires pid in s.procs
    ensures var p, s' := s.procs[pid], Next(w, s, Action(pid, move, SURE));
      match move
      case OpenSummary => s' == DoOpenSummary(s, pid, p)
      case StartTurn => s' == DoStartTurn(s, pid, p, SURE)
      case OpenStream => s' == DoOpenStream(s, pid, p)
      case Recv(e) => s' == DoRecv(s, pid, p, e, SURE)
      case Relay => s' == DoRelay(w, s, pid, p, SURE)
      case EndStream => s' == DoEndStream(w, s, pid, p, SURE)
      case _ => true
  {
    hide DoSubmit, DoAdmit, DoLoad, DoClaim, DoBeginTurn, DoNote, DoCompact, DoRoute, DoReserve, DoOpenSummary,
         DoSummaryEvent, DoEndSummary, DoStartTurn, DoOpenStream, DoRecv, DoRelay, DoEndStream, DoIntend, DoJudge, DoDecide,
         DoResolve, DoRunTool, DoEndBatch, DoReport, DoAppendResults, DoSave, DoStop, DoFinish, Private, Steady;
  }

  lemma CallStepIs(w: World, s: State, pid: nat, move: Move)
    requires pid in s.procs
    ensures var p, s' := s.procs[pid], Next(w, s, Action(pid, move, SURE));
      match move
      case Intend => s' == DoIntend(s, pid, p, SURE)
      case Judge(k, sandbox, answer) => s' == DoJudge(w, s, pid, p, k, sandbox, answer, SURE)
      case RunTool(k) => s' == DoRunTool(s, pid, p, k)
      case EndBatch(finished) => s' == DoEndBatch(s, pid, p, finished)
      case _ => true
  {
    hide DoSubmit, DoAdmit, DoLoad, DoClaim, DoBeginTurn, DoNote, DoCompact, DoRoute, DoReserve, DoOpenSummary,
         DoSummaryEvent, DoEndSummary, DoStartTurn, DoOpenStream, DoRecv, DoRelay, DoEndStream, DoIntend, DoJudge, DoDecide,
         DoResolve, DoRunTool, DoEndBatch, DoReport, DoAppendResults, DoSave, DoStop, DoFinish, Private, Steady;
  }

  lemma ReportStepIs(w: World, s: State, pid: nat, move: Move)
    requires pid in s.procs
    ensures var p, s' := s.procs[pid], Next(w, s, Action(pid, move, SURE));
      match move
      case Report(o, failure) => s' == DoReport(s, pid, p, o, failure, SURE)
      case AppendResults => s' == DoAppendResults(w, s, pid, p, SURE)
      case Save => s' == DoSave(s, pid, p, SURE)
      case _ => true
  {
    hide DoSubmit, DoAdmit, DoLoad, DoClaim, DoBeginTurn, DoNote, DoCompact, DoRoute, DoReserve, DoOpenSummary,
         DoSummaryEvent, DoEndSummary, DoStartTurn, DoOpenStream, DoRecv, DoRelay, DoEndStream, DoIntend, DoJudge, DoDecide,
         DoResolve, DoRunTool, DoEndBatch, DoReport, DoAppendResults, DoSave, DoStop, DoFinish, Private, Steady;
  }

  // ---- The first stream ------------------------------------------------------------------------------

  /** A fresh runner's first turn when every collaborator answers. */
  function FirstTurn(pid: nat, r: Request, rr: RoutingRecord, bound: Spend): seq<Action> {
    [Action(pid, Submit(r), SURE), Action(pid, Admit, SURE), Action(pid, BeginTurn, SURE), Action(pid, Route(rr), SURE),
     Action(pid, Reserve(Some(bound), 0), SURE), Action(pid, StartTurn, SURE), Action(pid, OpenStream, SURE)]
  }

  lemma Submits(w: World, pid: nat, r: Request)
    requires Submittable(w, r)
    ensures var s := DoSubmit(w, Initial(r.workload), pid, r, SURE);
      InOrder(w, s, pid) && s.procs[pid] == NewProc(r, NEW_RUN.(sequence := 7), Admitting) && |s.log| == 7 && s.effects == []
  {
    hide Submittable, Private;
    SealedSome(w, r);
    var s := DoSubmit(w, Initial(r.workload), pid, r, SURE);
    assert s.log == Sealed(r, 0, Opening(w, r));
    forall i | 0 <= i < |s.log| ensures Vouched(w, r, s.log[i]) { OpeningVouched(w, r, i); }
  }

  lemma OpeningVouched(w: World, r: Request, i: nat)
    requires i < 7
    ensures Vouched(w, r, Sealed(r, 0, Opening(w, r))[i])
  {
    assert Sealed(r, 0, Opening(w, r))[i] == Seal(r, i + 1, Opening(w, r)[i]);
  }

  /** From submission to the head of the first turn. */
  lemma BeginsTurn(s: State, pid: nat, r: Request)
    requires pid in s.procs && s.procs[pid] == NewProc(r, NEW_RUN.(sequence := 7), Admitting)
    requires r.budget.maxSteps >= 1 && r.budget.maxModelCalls >= 1
    ensures var s1 := DoAdmit(s, pid, s.procs[pid], SURE);
      && pid in s1.procs
      && DoBeginTurn(s1, pid, s1.procs[pid], SURE) ==
         Put(s, pid, s.procs[pid].(turn := 1, pc := Selecting(false, None, None)))
  {
    hide Private, Steady;
    var s1 := DoAdmit(s, pid, s.procs[pid], SURE);
    assert s1 == Put(s, pid, s.procs[pid].(pc := Boundary));
    var s' := Put(s, pid, s.procs[pid].(turn := 1, pc := Selecting(false, None, None)));
    assert DoBeginTurn(s1, pid, s1.procs[pid], SURE).procs == s'.procs;
  }

  lemma RoutesTurn(w: World, s: State, pid: nat, rr: RoutingRecord)
    requires InOrder(w, s, pid) && s.procs[pid].pc.Selecting? && s.procs[pid].pc.routed.None? && Routable(s.procs[pid], rr) && Chosen(rr).Some?
    ensures var p, s' := s.procs[pid], DoRoute(s, pid, s.procs[pid], rr, SURE);
      && InOrder(w, s', pid) && |s'.log| == |s.log| + 1 && s'.effects == s.effects
      && s'.procs[pid] == p.(pc := p.pc.(routed := Chosen(rr)), run := p.run.(sequence := |s'.log|))
  {
    hide Routable, Chosen, Wrote, Committed, InOrder, Private, Steady;
    InOrderReady(w, s, pid);
    var p := s.procs[pid];
    var next := p.(pc := p.pc.(routed := Chosen(rr)));
    WroteCommits(s, pid, p, RoutingEntry(p.request, p.turn, rr), next, Stopped(p));
    CommittedInOrder(w, s, pid, RoutingEntry(p.request, p.turn, rr), next);
    CommittedShape(s, pid, RoutingEntry(p.request, p.turn, rr), next);
  }

  lemma ReserveCommits(s: State, pid: nat, bound: Spend, cap: int)
    requires Ready(s, pid) && s.procs[pid].pc.Selecting? && s.procs[pid].pc.routed.Some? && ValidSpend(bound) && cap <= bound.output
    requires FitsWith(s.procs[pid].run.reserved, bound, Limit(s.procs[pid].request.budget))
    ensures var p := s.procs[pid];
      DoReserve(s, pid, p, Some(bound), cap, SURE) ==
      Committed(s, pid, BudgetEntry(p.request, p.turn, BudgetRecord(bound, NoDimension)), Reserved(p, |s.log|, bound))
  {
    hide Wrote, Committed, BudgetEntry, Plus, AtMost, FitsWith, Limit, Private, Steady;
    var p := s.procs[pid];
    WroteCommits(s, pid, p, BudgetEntry(p.request, p.turn, BudgetRecord(bound, NoDimension)), Reserved(p, |s.log|, bound), Stopped(p));
  }

  lemma ReservesTurn(w: World, s: State, pid: nat, bound: Spend, cap: int)
    requires InOrder(w, s, pid) && s.procs[pid].pc.Selecting? && s.procs[pid].pc.routed.Some? && ValidSpend(bound) && cap <= bound.output
    requires FitsWith(s.procs[pid].run.reserved, bound, Limit(s.procs[pid].request.budget))
    ensures var p, s' := s.procs[pid], DoReserve(s, pid, s.procs[pid], Some(bound), cap, SURE);
      && InOrder(w, s', pid) && |s'.log| == |s.log| + 1 && s'.effects == s.effects
      && s'.procs[pid] == Reserved(p, |s.log|, bound).(run := s'.procs[pid].run)
  {
    hide DoReserve, Committed, Plus, AtMost, FitsWith, Limit, InOrder, Private, Steady;
    InOrderReady(w, s, pid);
    var p := s.procs[pid];
    var entry := BudgetEntry(p.request, p.turn, BudgetRecord(bound, NoDimension));
    ReserveCommits(s, pid, bound, cap);
    CommittedInOrder(w, s, pid, entry, Reserved(p, |s.log|, bound));
    CommittedShape(s, pid, entry, Reserved(p, |s.log|, bound));
  }

  /** A reserved turn is announced and its stream opened. */
  lemma OpensStream(s: State, pid: nat)
    requires Ready(s, pid) && s.procs[pid].pc.TurnReserved?
    ensures var p := s.procs[pid];
      var s1 := DoStartTurn(s, pid, p, SURE);
      && pid in s1.procs
      && var s' := DoOpenStream(s1, pid, s1.procs[pid]);
         && s' == Put(s'.(procs := s1.procs), pid, s'.procs[pid]) && s'.log == s1.log && s'.creator == s1.creator && s'.procs[pid].run == s1.procs[pid].run
         && s'.procs[pid] == Begun(p, |s.log|).(emitted := p.emitted + 1, run := s'.procs[pid].run, pc := Streaming(p.pc.at, p.pc.bound, NO_SPEND, NO_DATA))
         && s'.effects == s.effects + [StreamOpened(pid, p.turn, p.pc.at, p.pc.bound, |s.log|)]
  {
    hide Emitted, LoopEntry, Committed, Private, Steady;
    var p := s.procs[pid];
    var q, l := Refreshed(p), Utter(p, TurnStarted);
    EmitCommits(s, pid, q, l, Begun(p, |s.log|));
    CommittedShape(s, pid, LoopEntry(p.request, l), Begun(p, |s.log|).(emitted := p.emitted + 1));
  }

  lemma StartsInOrder(w: World, s: State, pid: nat)
    requires InOrder(w, s, pid) && s.procs[pid].pc.TurnReserved?
    ensures var s1 := DoStartTurn(s, pid, s.procs[pid], SURE);
      && pid in s1.procs && InOrder(w, DoOpenStream(s1, pid, s1.procs[pid]), pid)
  {
    hide Emitted, InOrder, DoOpenStream, Private, Steady;
    InOrderReady(w, s, pid);
    var p := s.procs[pid];
    EmitsInOrder(w, s, pid, Refreshed(p), Utter(p, TurnStarted), Begun(p, |s.log|));
    OpensStream(s, pid);
    var s1 := DoStartTurn(s, pid, p, SURE);
    InOrderReady(w, s1, pid);
    StaysInOrder(w, s1, pid, DoOpenStream(s1, pid, s1.procs[pid]));
  }

  lemma RoutableSame(p: Proc, q: Proc, rr: RoutingRecord)
    requires Routable(p, rr) && q.request == p.request && q.result == p.result
    ensures Routable(q, rr)
  {
  }

  lemma SubmittableCalls(w: World, r: Request)
    requires Submittable(w, r)
    ensures r.budget.maxModelCalls > 0
  {
  }

  /** The runner that has just opened its first stream. */
  predicate OnAir(p: Proc, r: Request, bound: Spend) {
    && p.request == r && p.turn == 1 && p.pc == Streaming(8, bound, NO_SPEND, NO_DATA)
    && p.result == NewResult(r).(modelCalls := 1)
  }

  lemma ReachesTurn(w: World, pid: nat, r: Request, states: seq<State>, run: seq<Action>)
    requires Submittable(w, r) && r.budget.maxSteps >= 1 && |run| >= 3 && |states| > 3 && states[0] == Initial(r.workload)
    requires run[..3] == [Action(pid, Submit(r), SURE), Action(pid, Admit, SURE), Action(pid, BeginTurn, SURE)]
    requires Stepped(w, states, run, 0) && Stepped(w, states, run, 1) && Stepped(w, states, run, 2)
    ensures InOrder(w, states[3], pid) && |states[3].log| == 7 && states[3].effects == []
    ensures states[3].procs[pid] == NewProc(r, NEW_RUN.(sequence := 7), Selecting(false, None, None)).(turn := 1)
  {
    hide Next, Acts, Private, Steady, Submittable, InOrder, DoSubmit, DoAdmit, DoBeginTurn;
    assert run[0] == run[..3][0] && run[1] == run[..3][1] && run[2] == run[..3][2];
    Submits(w, pid, r);
    SubmitIs(w, states[0], pid, r);
    InOrderReady(w, states[1], pid);
    SubmittableCalls(w, r);
    BeginsTurn(states[1], pid, r);
    BeginStepIs(w, states[1], pid, Admit);
    BeginStepIs(w, states[2], pid, BeginTurn);
    StaysInOrder(w, states[1], pid, states[3]);
  }

  lemma ReachesStream(w: World, s: State, pid: nat, rr: RoutingRecord, bound: Spend)
    requires InOrder(w, s, pid) && s.procs[pid].pc == Selecting(false, None, None) && Routable(s.procs[pid], rr) && Chosen(rr).Some?
    requires ValidSpend(bound) && FitsWith(s.procs[pid].run.reserved, bound, Limit(s.procs[pid].request.budget))
    ensures var s1 := Next(w, s, Action(pid, Route(rr), SURE));
      var s' := Next(w, s1, Action(pid, Reserve(Some(bound), 0), SURE));
      && InOrder(w, s', pid) && |s'.log| == |s.log| + 2 && s'.effects == s.effects
      && s'.procs[pid] == s.procs[pid].(pc := TurnReserved(|s.log| + 1, bound, None), model := s'.procs[pid].model, run := s'.procs[pid].run)
  {
    hide Next, Acts, Private, Steady, Routable, Chosen, InOrder, DoRoute, DoReserve, AtMost, FitsWith, Plus, Limit;
    InOrderReady(w, s, pid);
    BeginStepIs(w, s, pid, Route(rr));
    RoutesTurn(w, s, pid, rr);
    var s1 := Next(w, s, Action(pid, Route(rr), SURE));
    InOrderReady(w, s1, pid);
    BeginStepIs(w, s1, pid, Reserve(Some(bound), 0));
    ReservesTurn(w, s1, pid, bound, 0);
    InOrderReady(w, Next(w, s1, Action(pid, Reserve(Some(bound), 0), SURE)), pid);
  }

  lemma OpensTurn(w: World, s: State, pid: nat)
    requires InOrder(w, s, pid) && s.procs[pid].pc.TurnReserved?
    ensures var p, s' := s.procs[pid], Next(w, Next(w, s, Action(pid, StartTurn, SURE)), Action(pid, OpenStream, SURE));
      && InOrder(w, s', pid) && s'.effects == s.effects + [StreamOpened(pid, p.turn, p.pc.at, p.pc.bound, |s.log|)]
      && s'.procs[pid] == Begun(p, |s.log|).(emitted := p.emitted + 1, run := s'.procs[pid].run, pc := Streaming(p.pc.at, p.pc.bound, NO_SPEND, NO_DATA))
  {
    hide Next, Acts, Private, Steady, InOrder, DoStartTurn, DoOpenStream, Begun;
    InOrderReady(w, s, pid);
    OpensStream(s, pid);
    StartsInOrder(w, s, pid);
    StreamStepIs(w, s, pid, StartTurn);
    StreamStepIs(w, Next(w, s, Action(pid, StartTurn, SURE)), pid, OpenStream);
    InOrderReady(w, Next(w, Next(w, s, Action(pid, StartTurn, SURE)), Action(pid, OpenStream, SURE)), pid);
  }

  /** When every collaborator answers, a fresh runner does open its first stream. */
  lemma FirstStreamOpens(w: World, pid: nat, r: Request, rr: RoutingRecord, bound: Spend, states: seq<State>)
    requires Submittable(w, r) && r.budget.maxSteps >= 1 && ValidSpend(bound) && AtMost(bound, Limit(r.budget))
    requires Routable(NewProc(r, NEW_RUN, Boundary), rr) && Chosen(rr).Some?
    requires Behaviour(w, r.workload, states, FirstTurn(pid, r, rr, bound))
    ensures states[7].effects == [StreamOpened(pid, 1, 8, bound, 9)]
    ensures InOrder(w, states[7], pid) && OnAir(states[7].procs[pid], r, bound)
  {
    hide Next, Acts, Private, Steady, Submittable, Routable, Chosen, InOrder, DoStartTurn, DoOpenStream;
    var run := FirstTurn(pid, r, rr, bound);
    assert Stepped(w, states, run, 0) && Stepped(w, states, run, 1) && Stepped(w, states, run, 2) && Stepped(w, states, run, 3);
    assert Stepped(w, states, run, 4) && Stepped(w, states, run, 5) && Stepped(w, states, run, 6);
    ReachesTurn(w, pid, r, states, run);
    InOrderReady(w, states[3], pid);
    RoutableSame(NewProc(r, NEW_RUN, Boundary), states[3].procs[pid], rr);
    ReachesStream(w, states[3], pid, rr, bound);
    InOrderReady(w, states[5], pid);
    OpensTurn(w, states[5], pid);
  }

  lemma SubmitIs(w: World, s: State, pid: nat, r: Request)
    ensures Next(w, s, Action(pid, Submit(r), SURE)) == DoSubmit(w, s, pid, r, SURE)
  {
    hide DoSubmit, DoLoad, Acts, Private, Steady;
  }

  // ---- A whole turn -----------------------------------------------------------------------------------

  /** One event of the model without usage: received, validated, recorded and consumed. */
  function HeardEvent(s: State, pid: nat, e: ModelEvent): State
    requires pid in s.procs && s.procs[pid].pc.Streaming?
  {
    var p := s.procs[pid];
    Committed(s, pid, LoopEntry(p.request, Utter(p, ModelOutput).(modelEvent := Some(e))),
              Consumed(Holding(p, e), e, SP.Progress(e.sequence, true, SP.IsTerminal(e))).(emitted := p.emitted + 1))
  }

  predicate Hearable(w: World, p: Proc, e: ModelEvent) {
    && p.pc.Streaming? && p.pc.data.held.None? && e.usage.None?
    && SP.Accepted(w.env, p.pc.data.progress, e) == (SP.Progress(e.sequence, true, SP.IsTerminal(e)), true)
  }

  /** What an event of each of these kinds leaves behind. */
  lemma HeardShape(w: World, s: State, pid: nat, e: ModelEvent)
    requires pid in s.procs && Hearable(w, s.procs[pid], e)
    requires e.kind == StartEvent || (e.kind == ToolCallEvent && e.call.Some?) || e.kind == StopEvent
    ensures var p, s' := s.procs[pid], HeardEvent(s, pid, e);
      var d := p.pc.data.(progress := SP.Progress(e.sequence, true, SP.IsTerminal(e)));
      && pid in s'.procs && s'.effects == s.effects
      && s'.procs[pid] == p.(emitted := p.emitted + 1, run := s'.procs[pid].run,
           pc := p.pc.(data := if e.kind == StopEvent then d.(stop := e.stop)
                               else if e.kind == ToolCallEvent then d.(calls := d.calls + [e.call.value]) else d))
  {
    hide LoopEntry, SP.Accepted;
  }

  lemma RelaysEvent(w: World, s: State, pid: nat, e: ModelEvent)
    requires InOrder(w, s, pid) && Hearable(w, s.procs[pid], e)
    ensures var s1 := Put(s, pid, Holding(s.procs[pid], e));
      && DoRecv(s, pid, s.procs[pid], e, SURE) == s1
      && DoRelay(w, s1, pid, s1.procs[pid], SURE) == HeardEvent(s, pid, e) && InOrder(w, HeardEvent(s, pid, e), pid)
  {
    hide Private, Steady, Emitted, Consumed, LoopEntry, SP.Accepted, Committed, InOrder;
    assert Ready(s, pid) by { InOrderReady(w, s, pid); }
    var p := s.procs[pid];
    var q, l, v := Holding(p, e), Utter(p, ModelOutput).(modelEvent := Some(e)), SP.Progress(e.sequence, true, SP.IsTerminal(e));
    var s1 := Put(s, pid, q);
    EmitCommits(s1, pid, q, l, Consumed(q, e, v));
    CommittedSame(s, s1, pid, LoopEntry(p.request, l), Consumed(q, e, v).(emitted := p.emitted + 1));
    LoopVouched(w, p.request, |s.log| + 1, l);
    CommittedInOrder(w, s, pid, LoopEntry(p.request, l), Consumed(q, e, v).(emitted := p.emitted + 1));
  }

  lemma HearsEvent(w: World, s: State, pid: nat, e: ModelEvent)
    requires InOrder(w, s, pid) && Hearable(w, s.procs[pid], e)
    ensures Next(w, Next(w, s, Action(pid, Recv(e), SURE)), Action(pid, Relay, SURE)) == HeardEvent(s, pid, e)
    ensures InOrder(w, HeardEvent(s, pid, e), pid)
  {
    hide Next, Acts, Private, Steady, InOrder, DoRecv, DoRelay, HeardEvent, Holding;
    InOrderReady(w, s, pid);
    RelaysEvent(w, s, pid, e);
    StreamStepIs(w, s, pid, Recv(e));
    StreamStepIs(w, Next(w, s, Action(pid, Recv(e), SURE)), pid, Relay);
  }

  /** The start of a stream, one tool call, and the stop that asks for its result. */
  function ModelEvents(call: ToolCall): seq<ModelEvent> {
    [Bare(StartEvent).(sequence := 1), Bare(ToolCallEvent).(sequence := 2, call := Some(call)), Bare(StopEvent).(sequence := 3, stop := ToolUse)]
  }

  function Hearing(pid: nat, call: ToolCall): seq<Action> {
    var es := ModelEvents(call);
    [Action(pid, Recv(es[0]), SURE), Action(pid, Relay, SURE), Action(pid, Recv(es[1]), SURE), Action(pid, Relay, SURE),
     Action(pid, Recv(es[2]), SURE), Action(pid, Relay, SURE)]
  }

  /** The runner has heard the whole stream: one call to make. */
  ghost predicate Called(w: World, s: State, pid: nat, p: Proc, call: ToolCall)
    requires p.pc.Streaming?
  {
    && InOrder(w, s, pid)
    && s.procs[pid] == p.(emitted := p.emitted + 3, run := s.procs[pid].run,
                          pc := p.pc.(data := TurnData(SP.Progress(3, true, true), "", [call], ToolUse, false, None)))
  }

  lemma HearsCall(w: World, s: State, pid: nat, call: ToolCall, states: seq<State>)
    requires InOrder(w, s, pid) && s.procs[pid].pc.Streaming? && s.procs[pid].pc.data == NO_DATA && ValidCall(w.env, call)
    requires |states| == 7 && states[0] == s && forall k: nat :: k < 6 ==> Stepped(w, states, Hearing(pid, call), k)
    ensures Called(w, states[6], pid, s.procs[pid], call) && states[6].effects == s.effects
  {
    hide Next, Acts, Private, Steady, InOrder, ValidCall, HeardEvent;
    assert Ready(s, pid) by { InOrderReady(w, s, pid); }
    var es, p, run := ModelEvents(call), s.procs[pid], Hearing(pid, call);
    assert Stepped(w, states, run, 0) && Stepped(w, states, run, 1) && Stepped(w, states, run, 2);
    assert Stepped(w, states, run, 3) && Stepped(w, states, run, 4) && Stepped(w, states, run, 5);
    EventsValid(w.env, call);
    HearsEvent(w, s, pid, es[0]);
    HeardShape(w, s, pid, es[0]);
    HearsEvent(w, states[2], pid, es[1]);
    HeardShape(w, states[2], pid, es[1]);
    HearsEvent(w, states[4], pid, es[2]);
    HeardShape(w, states[4], pid, es[2]);
    assert [] + [call] == [call];
  }

  lemma EventsValid(env: Env, call: ToolCall)
    requires ValidCall(env, call)
    ensures var es := ModelEvents(call); ValidModelEvent(env, es[0]) && ValidModelEvent(env, es[1]) && ValidModelEvent(env, es[2])
  {
    hide ValidCall;
  }

  // ---- The batch ---------------------------------------------------------------------------------------

  /** The assistant's message of a turn that only calls this tool. */
  function CallMessage(r: Request, call: ToolCall): Message {
    AssistantMessage(r.outputLevel, "", [call])
  }

  lemma CallMessageValid(w: World, r: Request, call: ToolCall)
    requires Submittable(w, r) && ValidCall(w.env, call)
    ensures ValidMessage(w.env, CallMessage(r, call)) && CallMessage(r, call).content != []
  {
    hide Blank, ValidRequirements, ValidBudget;
    assert |CallParts(r.outputLevel, [call])| == 1;
  }

  lemma EndsStream(w: World, s: State, pid: nat, call: ToolCall)
    requires InOrder(w, s, pid) && Submittable(w, s.procs[pid].request) && ValidCall(w.env, call)
    requires var p := s.procs[pid];
      && p.pc.Streaming? && p.pc.data == TurnData(SP.Progress(3, true, true), "", [call], ToolUse, false, None)
      && !Mentions(p.result.messages, call.id) && p.result.toolCalls + 1 <= p.request.budget.maxToolCalls
    ensures var p, s' := s.procs[pid], DoEndStream(w, s, pid, s.procs[pid], SURE);
      && InOrder(w, s', pid) && s'.effects == s.effects
      && s'.procs[pid] == p.(pc := Intending(p.pc.at, [call], []), emitted := p.emitted + 1, run := s'.procs[pid].run,
           result := p.result.(messages := p.result.messages + [CallMessage(p.request, call)], stop := ToolUse,
                               toolCalls := p.result.toolCalls + 1))
  {
    hide Submittable, ValidCall, ValidMessage, AssistantMessage, Emitted, LoopEntry, Committed, InOrder, Mentions, Private, Steady;
    assert Ready(s, pid) by { InOrderReady(w, s, pid); }
    var p := s.procs[pid];
    var m := CallMessage(p.request, call);
    CallMessageValid(w, p.request, call);
    var q := p.(result := p.result.(messages := p.result.messages + [m]));
    var l := Utter(p, MessageAppended).(message := Some(m));
    EmitsInOrder(w, s, pid, q, l, AfterTurn(q, p.pc.at, p.pc.data));
  }

  /** The runner's own request and the call of its batch. */
  predicate Batch(s: State, pid: nat, call: ToolCall) {
    pid in s.procs &&
    match s.procs[pid].pc
    case Intending(_, calls, starts) => calls == [call] && starts == []
    case Running(_, calls, starts, status) => calls == [call] && |starts| == 1 && |status| == 1
    case Reporting(_, calls, finished, reported, parts) => calls == [call] && finished == 1
    case _ => false
  }

  lemma IntendsCall(w: World, s: State, pid: nat, call: ToolCall)
    requires InOrder(w, s, pid) && Batch(s, pid, call) && s.procs[pid].pc.Intending?
    ensures var p, s' := s.procs[pid], DoIntend(s, pid, s.procs[pid], SURE);
      && InOrder(w, s', pid) && s'.effects == s.effects
      && s'.procs[pid] == p.(pc := Running(p.pc.at, [call], [|s.log|], [Waiting]), emitted := p.emitted + 1, run := s'.procs[pid].run)
  {
    hide Emitted, InOrder, Private, Steady;
    var p := s.procs[pid];
    EmitsInOrder(w, s, pid, p, Utter(p, ToolStarted).(toolCall := Some(call)), Intended(p, |s.log|));
    assert Intended(p, |s.log|).pc.starts == [|s.log|] && Intended(p, |s.log|).pc.status == [Waiting];
  }

  /** The policy lets this call run. */
  predicate Lets(w: World, r: Request, call: ToolCall, sandbox: Sandbox, answer: Answer) {
    EvaluateExecution(w.env, answer, ToolQuestion(w, r, call, r.zone, r.autonomous, sandbox)).action == Allow
  }

  lemma {:induction false} ManifestClassValid(items: seq<ContentItem>)
    requires forall i :: 0 <= i < |items| ==> ValidItem(items[i])
    ensures ValidClass(ManifestClass(items))
  {
    if items != [] { ManifestClassValid(items[..|items| - 1]); }
  }

  /** A verdict that lets a call run passes the checks of its stage. */
  lemma VerdictVouched(w: World, r: Request, call: ToolCall, sandbox: Sandbox, answer: Answer, turn: int, n: nat)
    requires Lets(w, r, call, sandbox, answer) && turn >= 0
    ensures var q := ToolQuestion(w, r, call, r.zone, r.autonomous, sandbox);
      ValidManifest(q.manifest) && Vouched(w, r, Seal(r, n, VerdictEntry(r, turn, q.manifest, EvaluateExecution(w.env, answer, q))))
  {
    hide EvaluateExecution, Digest, ManifestClass, ValidVerdict, ValidTarget, ValidStepKind;
    ManifestClassValid(w.manifestOf(call).items);
  }

  lemma JudgesCall(w: World, s: State, pid: nat, call: ToolCall, sandbox: Sandbox, answer: Answer)
    requires InOrder(w, s, pid) && Batch(s, pid, call) && s.procs[pid].pc.Running? && s.procs[pid].pc.status == [Waiting]
    requires s.procs[pid].turn >= 0 && Lets(w, s.procs[pid].request, call, sandbox, answer)
    ensures var p, s' := s.procs[pid], DoJudge(w, s, pid, s.procs[pid], 0, sandbox, answer, SURE);
      InOrder(w, s', pid) && s'.effects == s.effects && s'.procs[pid] == Marked(p, 0, Allowed(|s.log|)).(run := s'.procs[pid].run)
  {
    hide Wrote, Committed, InOrder, Vouched, VerdictEntry, EvaluateExecution, ValidManifest, Private, Steady;
    assert Ready(s, pid) by { InOrderReady(w, s, pid); }
    var p := s.procs[pid];
    VerdictVouched(w, p.request, call, sandbox, answer, p.turn, |s.log| + 1);
    var q := ToolQuestion(w, p.request, call, p.request.zone, p.request.autonomous, sandbox);
    var entry := VerdictEntry(p.request, p.turn, q.manifest, EvaluateExecution(w.env, answer, q));
    var next := Marked(p, 0, Allowed(|s.log|));
    WroteCommits(s, pid, p, entry, next, Marked(p, 0, Barred));
    CommittedInOrder(w, s, pid, entry, next);
    CommittedShape(s, pid, entry, next);
  }

  lemma RunsCall(w: World, s: State, pid: nat, call: ToolCall)
    requires InOrder(w, s, pid) && Batch(s, pid, call) && s.procs[pid].pc.Running? && s.procs[pid].pc.status[0].Allowed?
    ensures var p := s.procs[pid];
      var s1 := DoRunTool(s, pid, p, 0);
      && pid in s1.procs
      && var s' := DoEndBatch(s1, pid, s1.procs[pid], 1);
         && InOrder(w, s', pid) && s'.procs[pid] == p.(pc := Reporting(p.pc.at, [call], 1, 0, []))
         && s'.effects == s.effects + [ToolRan(pid, p.turn, 0, call, p.pc.starts[0], p.pc.status[0].at)]
  {
    hide InOrder, Private, Steady;
    var s1 := DoRunTool(s, pid, s.procs[pid], 0);
    StaysInOrder(w, s, pid, DoEndBatch(s1, pid, s1.procs[pid], 1));
  }

  lemma ReportsCall(w: World, s: State, pid: nat, call: ToolCall, o: ToolOutput)
    requires InOrder(w, s, pid) && Batch(s, pid, call) && s.procs[pid].pc.Reporting? && s.procs[pid].pc.reported == 0 && s.procs[pid].pc.parts == []
    ensures var p, s' := s.procs[pid], DoReport(s, pid, s.procs[pid], o, None, SURE);
      && InOrder(w, s', pid) && s'.effects == s.effects
      && s'.procs[pid] == p.(pc := p.pc.(reported := 1, parts := ToolBatch.OutputParts(call, o)), emitted := p.emitted + 1, run := s'.procs[pid].run)
  {
    hide Emitted, InOrder, Private, Steady, ToolBatch.OutputParts;
    var p := s.procs[pid];
    var l := Utter(p, ToolCompleted).(toolCall := Some(call), toolOutput := Some(o), failureCode := "");
    var parts := ToolBatch.OutputParts(call, o);
    assert [] + parts == parts;
    EmitsInOrder(w, s, pid, p, l, p.(pc := p.pc.(reported := 1, parts := parts)));
  }

  lemma SavesTurn(w: World, s: State, pid: nat, call: ToolCall)
    requires InOrder(w, s, pid) && Batch(s, pid, call) && s.procs[pid].pc.Reporting? && s.procs[pid].pc.reported == 1
    requires ValidMessage(w.env, Message(ToolRole, s.procs[pid].pc.parts))
    ensures var p, s1 := s.procs[pid], DoAppendResults(w, s, pid, s.procs[pid], SURE);
      && pid in s1.procs
      && var s' := DoSave(s1, pid, s1.procs[pid], SURE);
         && InOrder(w, s', pid) && s'.effects == s.effects && s'.procs[pid].pc == Boundary
         && s'.procs[pid].request == p.request && s'.procs[pid].result.modelCalls == p.result.modelCalls
  {
    hide Emitted, InOrder, Private, Steady, ValidMessage;
    var p := s.procs[pid];
    var m := Message(ToolRole, p.pc.parts);
    var q := p.(result := p.result.(messages := p.result.messages + [m]));
    EmitsInOrder(w, s, pid, q, Utter(p, MessageAppended).(message := Some(m)), q.(pc := Reported(p.pc.at)));
    var s1 := DoAppendResults(w, s, pid, p, SURE);
    assert Ready(s1, pid) by { InOrderReady(w, s1, pid); }
    EmitsInOrder(w, s1, pid, s1.procs[pid], Saving(s1.procs[pid]), s1.procs[pid].(pc := Boundary));
  }

  /** One batch of one call, and the checkpoint after it. */
  function Working(pid: nat, sandbox: Sandbox, answer: Answer, o: ToolOutput): seq<Action> {
    [Action(pid, EndStream, SURE), Action(pid, Intend, SURE), Action(pid, Judge(0, sandbox, answer), SURE), Action(pid, RunTool(0), SURE),
     Action(pid, EndBatch(1), SURE), Action(pid, Report(o, None), SURE), Action(pid, AppendResults, SURE), Action(pid, Save, SURE)]
  }

  /** The runner has heard its call, which is new, affordable and permitted. */
  predicate Permitted(w: World, p: Proc, call: ToolCall, sandbox: Sandbox, answer: Answer) {
    && p.pc.Streaming? && p.pc.data == TurnData(SP.Progress(3, true, true), "", [call], ToolUse, false, None) && p.turn >= 0
    && Submittable(w, p.request) && ValidCall(w.env, call) && Lets(w, p.request, call, sandbox, answer)
    && !Mentions(p.result.messages, call.id) && p.result.toolCalls + 1 <= p.request.budget.maxToolCalls
  }

  /** The call is judged, run and waiting to be reported. */
  ghost predicate Worked(w: World, s: State, s': State, pid: nat, call: ToolCall)
    requires pid in s.procs
  {
    && InOrder(w, s', pid) && Batch(s', pid, call) && s'.procs[pid].pc.Reporting? && s'.procs[pid].pc.reported == 0
    && s'.procs[pid].pc.parts == [] && s'.procs[pid].request == s.procs[pid].request
    && s'.procs[pid].result.modelCalls == s.procs[pid].result.modelCalls
    && |s'.effects| == |s.effects| + 1 && s'.effects[..|s.effects|] == s.effects
    && s'.effects[|s.effects|].ToolRan? && s'.effects[|s.effects|].call == call
  }

  /** The call's intent is on record and it waits for its verdict. */
  ghost predicate Waits(w: World, s: State, s': State, pid: nat, call: ToolCall)
    requires pid in s.procs
  {
    && InOrder(w, s', pid) && Batch(s', pid, call) && s'.procs[pid].pc.Running? && s'.procs[pid].pc.status == [Waiting]
    && s'.procs[pid].request == s.procs[pid].request && s'.procs[pid].turn == s.procs[pid].turn
    && s'.procs[pid].result.modelCalls == s.procs[pid].result.modelCalls && s'.effects == s.effects
  }

  lemma Announces(w: World, s: State, pid: nat, call: ToolCall, sandbox: Sandbox, answer: Answer)
    requires InOrder(w, s, pid) && Permitted(w, s.procs[pid], call, sandbox, answer)
    ensures Waits(w, s, Next(w, Next(w, s, Action(pid, EndStream, SURE)), Action(pid, Intend, SURE)), pid, call)
  {
    hide Next, Acts, Private, Steady, InOrder, Submittable, ValidCall, Lets, Mentions, DoEndStream, DoIntend, CallMessage;
    InOrderReady(w, s, pid);
    StreamStepIs(w, s, pid, EndStream);
    EndsStream(w, s, pid, call);
    var s1 := Next(w, s, Action(pid, EndStream, SURE));
    InOrderReady(w, s1, pid);
    CallStepIs(w, s1, pid, Intend);
    IntendsCall(w, s1, pid, call);
    InOrderReady(w, Next(w, s1, Action(pid, Intend, SURE)), pid);
  }

  lemma WorksOff(w: World, s: State, s2: State, pid: nat, call: ToolCall, sandbox: Sandbox, answer: Answer)
    requires pid in s.procs && Waits(w, s, s2, pid, call) && s.procs[pid].turn >= 0 && Lets(w, s.procs[pid].request, call, sandbox, answer)
    ensures var s3 := Next(w, s2, Action(pid, Judge(0, sandbox, answer), SURE));
      var s4 := Next(w, s3, Action(pid, RunTool(0), SURE));
      Worked(w, s, Next(w, s4, Action(pid, EndBatch(1), SURE)), pid, call)
  {
    hide Next, Acts, Private, Steady, InOrder, Lets, DoJudge, DoRunTool, DoEndBatch;
    InOrderReady(w, s2, pid);
    CallStepIs(w, s2, pid, Judge(0, sandbox, answer));
    JudgesCall(w, s2, pid, call, sandbox, answer);
    var s3 := Next(w, s2, Action(pid, Judge(0, sandbox, answer), SURE));
    InOrderReady(w, s3, pid);
    CallStepIs(w, s3, pid, RunTool(0));
    RunsCall(w, s3, pid, call);
    var s4 := Next(w, s3, Action(pid, RunTool(0), SURE));
    CallStepIs(w, s4, pid, EndBatch(1));
    var s' := Next(w, s4, Action(pid, EndBatch(1), SURE));
    assert s'.effects == s.effects + [s'.effects[|s.effects|]];
    InOrderReady(w, s', pid);
  }

  lemma WrapsUp(w: World, s: State, pid: nat, call: ToolCall, o: ToolOutput)
    requires InOrder(w, s, pid) && Batch(s, pid, call) && s.procs[pid].pc.Reporting? && s.procs[pid].pc.reported == 0 && s.procs[pid].pc.parts == []
    requires ValidMessage(w.env, Message(ToolRole, ToolBatch.OutputParts(call, o)))
    ensures var s1 := Next(w, s, Action(pid, Report(o, None), SURE));
      var s2 := Next(w, s1, Action(pid, AppendResults, SURE));
      var s' := Next(w, s2, Action(pid, Save, SURE));
      && InOrder(w, s', pid) && s'.effects == s.effects && s'.procs[pid].pc == Boundary
      && s'.procs[pid].request == s.procs[pid].request && s'.procs[pid].result.modelCalls == s.procs[pid].result.modelCalls
  {
    hide Next, Acts, Private, Steady, InOrder, ValidMessage, ToolBatch.OutputParts, DoReport, DoAppendResults, DoSave;
    InOrderReady(w, s, pid);
    ReportStepIs(w, s, pid, Report(o, None));
    ReportsCall(w, s, pid, call, o);
    var s1 := Next(w, s, Action(pid, Report(o, None), SURE));
    InOrderReady(w, s1, pid);
    ReportStepIs(w, s1, pid, AppendResults);
    SavesTurn(w, s1, pid, call);
    ReportStepIs(w, Next(w, s1, Action(pid, AppendResults, SURE)), pid, Save);
  }

  lemma WorksThrough(w: World, pid: nat, call: ToolCall, sandbox: Sandbox, answer: Answer, o: ToolOutput, states: seq<State>)
    requires |states| == 9 && forall k: nat :: k < 8 ==> Stepped(w, states, Working(pid, sandbox, answer, o), k)
    requires InOrder(w, states[0], pid) && Permitted(w, states[0].procs[pid], call, sandbox, answer)
    requires ValidMessage(w.env, Message(ToolRole, ToolBatch.OutputParts(call, o)))
    ensures var p, s, s' := states[0].procs[pid], states[0], states[8];
      && InOrder(w, s', pid) && s'.procs[pid].pc == Boundary && s'.procs[pid].request == p.request
      && s'.procs[pid].result.modelCalls == p.result.modelCalls && |s'.effects| == |s.effects| + 1
      && s'.effects[..|s.effects|] == s.effects && s'.effects[|s.effects|].ToolRan? && s'.effects[|s.effects|].call == call
  {
    hide Next, InOrder, ValidMessage, ToolBatch.OutputParts, Submittable, ValidCall, Lets, Mentions;
    var run := Working(pid, sandbox, answer, o);
    assert Stepped(w, states, run, 0) && Stepped(w, states, run, 1) && Stepped(w, states, run, 2) && Stepped(w, states, run, 3);
    assert Stepped(w, states, run, 4) && Stepped(w, states, run, 5) && Stepped(w, states, run, 6) && Stepped(w, states, run, 7);
    InOrderReady(w, states[0], pid);
    Announces(w, states[0], pid, call, sandbox, answer);
    assert Lets(w, states[0].procs[pid].request, call, sandbox, answer) && states[0].procs[pid].turn >= 0;
    WorksOff(w, states[0], states[2], pid, call, sandbox, answer);
    InOrderReady(w, states[5], pid);
    WrapsUp(w, states[5], pid, call, o);
  }

  // ---- A whole run, with a crash -----------------------------------------------------------------------

  /** What the collaborators of one turn answer. */
  datatype Answers = Answers(rr: RoutingRecord, bound: Spend, call: ToolCall, sandbox: Sandbox, answer: Answer, output: ToolOutput)

  /** Answers that fit the request: a routing with a selection, a bound within the budget, a permitted call and a valid result. */
  predicate Suit(w: World, r: Request, x: Answers) {
    && Routable(NewProc(r, NEW_RUN, Boundary), x.rr) && Chosen(x.rr).Some? && ValidSpend(x.bound) && AtMost(x.bound, Limit(r.budget))
    && ValidCall(w.env, x.call) && !Mentions(r.messages, x.call.id) && Lets(w, r, x.call, x.sandbox, x.answer)
    && ValidMessage(w.env, Message(ToolRole, ToolBatch.OutputParts(x.call, x.output)))
    && r.budget.maxSteps >= 1 && r.budget.maxToolCalls >= 1
  }

  /** A first turn with one tool call, from submission to checkpoint. */
  function WholeTurn(pid: nat, r: Request, x: Answers): seq<Action> {
    FirstTurn(pid, r, x.rr, x.bound) + Hearing(pid, x.call) + Working(pid, x.sandbox, x.answer, x.output)
  }

  /** A stretch of a run is a run of its own. */
  lemma Stretch(w: World, states: seq<State>, run: seq<Action>, from: nat, steps: seq<Action>, part: seq<State>)
    requires from + |steps| < |states| && from + |steps| <= |run| && run[from..from + |steps|] == steps
    requires part == states[from..from + |steps| + 1]
    requires forall k: nat :: from <= k < from + |steps| ==> Stepped(w, states, run, k)
    ensures forall k: nat :: k < |steps| ==> Stepped(w, part, steps, k)
  {
    hide Next;
    forall k: nat | k < |steps| ensures Stepped(w, part, steps, k) {
      assert Stepped(w, states, run, from + k);
      assert steps[k] == run[from..from + |steps|][k];
    }
  }

  lemma TurnParts(a: seq<Action>, b: seq<Action>, c: seq<Action>, run: seq<Action>)
    requires |a| == 7 && |b| == 6 && |c| == 8 && a + b + c <= run
    ensures run[0..7] == a && run[7..13] == b && run[13..21] == c
  {
    var whole := a + b + c;
    assert run[..21] == whole;
    assert whole[0..7] == a && whole[7..13] == b && whole[13..21] == c;
    assert run[0..7] == run[..21][0..7] && run[7..13] == run[..21][7..13] && run[13..21] == run[..21][13..21];
  }

  /** After the whole turn the runner is at its saved boundary, with one stream opened and one tool run. */
  ghost predicate TurnDone(w: World, s: State, pid: nat, r: Request, x: Answers) {
    && InOrder(w, s, pid) && s.procs[pid].pc == Boundary && s.procs[pid].request == r && s.procs[pid].result.modelCalls == 1
    && |s.effects| == 2 && s.effects[0] == StreamOpened(pid, 1, 8, x.bound, 9) && s.effects[1].ToolRan? && s.effects[1].call == x.call
  }

  lemma TurnCompletes(w: World, pid: nat, r: Request, x: Answers, states: seq<State>, run: seq<Action>)
    requires Submittable(w, r) && Suit(w, r, x) && WholeTurn(pid, r, x) <= run && Behaviour(w, r.workload, states, run)
    ensures TurnDone(w, states[21], pid, r, x)
  {
    hide Next, Submittable, Routable, Chosen, ValidMessage, Lets, Mentions, ValidCall, InOrder, ToolBatch.OutputParts, AtMost, Limit, Stepped;
    var first, hearing, working := FirstTurn(pid, r, x.rr, x.bound), Hearing(pid, x.call), Working(pid, x.sandbox, x.answer, x.output);
    TurnParts(first, hearing, working, run);
    Stretch(w, states, run, 0, first, states[0..8]);
    Stretch(w, states, run, 7, hearing, states[7..14]);
    Stretch(w, states, run, 13, working, states[13..22]);
    FirstStreamOpens(w, pid, r, x.rr, x.bound, states[0..8]);
    assert states[7] == states[0..8][7] && states[7] == states[7..14][0] && states[13] == states[7..14][6];
    InOrderReady(w, states[7], pid);
    HearsCall(w, states[7], pid, x.call, states[7..14]);
    InOrderReady(w, states[13], pid);
    assert states[13] == states[13..22][0] && states[21] == states[13..22][8];
    WorksThrough(w, pid, x.call, x.sandbox, x.answer, x.output, states[13..22]);
  }

  /** Nobody appears on the scene but by a step of its own. */
  lemma {:induction false} StaysAway(w: World, workload: ID, states: seq<State>, run: seq<Action>, k: nat, other: nat)
    requires Behaviour(w, workload, states, run) && k < |states| && forall i: nat :: i < k ==> run[i].pid != other
    ensures other !in states[k].procs
  {
    hide Next;
    if k > 0 {
      StaysAway(w, workload, states, run, k - 1, other);
      assert Stepped(w, states, run, k - 1);
      NextIsPrivate(w, states[k - 1], run[k - 1]);
    }
  }

  lemma TurnsAlone(pid: nat, r: Request, x: Answers, i: nat)
    requires i < |WholeTurn(pid, r, x)|
    ensures WholeTurn(pid, r, x)[i].pid == pid && |WholeTurn(pid, r, x)| == 21
  {
  }

  /**
   A whole life: a runner opens its stream, runs its tool and saves its turn; its stream is accepted and offered; it
   crashes; another runner loads and claims, and goes on exactly where the first one stopped. The outside world has seen
   one stream and one tool.
   */
  lemma CrashedTurnIsResumed(w: World, pid: nat, heir: nat, r: Request, x: Answers, states: seq<State>)
    requires Collisionless(w) && (forall q :: q in w.requests ==> ValidSHA(w.digest(q)))
    requires Submittable(w, r) && Suit(w, r, x) && heir != pid
    requires Behaviour(w, r.workload, states, WholeTurn(pid, r, x) + Takeover(pid, heir, r))
    ensures Saved(w, r.workload, states[21], pid) && Readable(w, r, states[21].log).Some?
    ensures heir in states[24].procs
    ensures var p, q := states[21].procs[pid], states[24].procs[heir];
      && q.pc == Boundary && q.request == r && q.result == p.result && q.emitted == p.emitted
      && q.run.reserved == p.run.reserved && q.run.sequence == |states[24].log|
    ensures |states[24].effects| == 2 && states[24].effects[0] == StreamOpened(pid, 1, 8, x.bound, 9) &&
            states[24].effects[1].ToolRan? && states[24].effects[1].call == x.call
  {
    hide Next, Submittable, Suit, ValidSHA, Collisionless, Readable, AllVouched, Replay, Behaviour;
    var whole := WholeTurn(pid, r, x);
    var run := whole + Takeover(pid, heir, r);
    BehaviourLength(w, r.workload, states, run);
    assert |whole| == 21 && |states| == 25;
    TurnCompletes(w, pid, r, x, states, run);
    HistoryAccepted(w, r.workload, states, run, 21);
    BoundaryIsReadable(w, r.workload, states, run, 21, pid);
    forall i: nat | i < 21 ensures run[i].pid != heir { TurnsAlone(pid, r, x, i); }
    StaysAway(w, r.workload, states, run, 21, heir);
    assert run[21..24] == Takeover(pid, heir, r);
    ResumedIsCrashed(w, r.workload, states, run, 21, pid, heir);
    TakeoverQuiet(w, r.workload, states, run, pid, heir, r);
  }

  lemma BehaviourLength(w: World, workload: ID, states: seq<State>, run: seq<Action>)
    requires Behaviour(w, workload, states, run)
    ensures |states| == |run| + 1
  {
  }

  /** Crash, load and claim act on nothing outside. */
  lemma TakeoverQuiet(w: World, workload: ID, states: seq<State>, run: seq<Action>, pid: nat, heir: nat, r: Request)
    requires Behaviour(w, workload, states, run) && |run| == 24 && run[21..24] == Takeover(pid, heir, r)
    ensures states[24].effects == states[21].effects
  {
    hide Next;
    assert run[21] == run[21..24][0] && run[22] == run[21..24][1] && run[23] == run[21..24][2];
    assert Stepped(w, states, run, 21) && Stepped(w, states, run, 22) && Stepped(w, states, run, 23);
    QuietMove(w, states[21], run[21]);
    QuietMove(w, states[22], run[22]);
    QuietMove(w, states[23], run[23]);
  }

  lemma QuietMove(w: World, s: State, a: Action)
    requires a.move.Crash? || a.move.Load? || a.move.Claim?
    ensures Next(w, s, a).effects == s.effects
  {
    hide DoSubmit, DoAdmit, DoBeginTurn, DoNote, DoCompact, DoRoute, DoReserve, DoOpenSummary, DoSummaryEvent, DoEndSummary,
         DoStartTurn, DoOpenStream, DoRecv, DoRelay, DoEndStream, DoIntend, DoJudge, DoDecide, DoResolve, DoRunTool, DoEndBatch,
         DoReport, DoAppendResults, DoSave, DoStop, DoFinish, Private, Steady, Readable, Submittable;
  }
}
