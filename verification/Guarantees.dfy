/** What the protocol promises in every state of every run, read off the invariant. */
module Guarantees {
  import opened Types
  import opened Policy
  import opened Routing
  import opened Projection
  import opened Engine
  import opened Ledger
  import opened Protocol
  import opened Invariant
  import opened TurnSteps
  import opened Safety

  // ---- At most once ---------------------------------------------------------------------------

  /**
   Over any interleaving of runners: the model stream of a turn is opened at most once, each call of its batch runs at
   most once, the whole turn belongs to one runner, and no reservation is used by two streams.
   */
  lemma AtMostOnce(w: World, workload: ID, states: seq<State>, run: seq<Action>, k: nat, i: nat, j: nat)
    requires Collisionless(w) && Behaviour(w, workload, states, run) && k < |states| && i < j < |states[k].effects|
    ensures var a, b := states[k].effects[i], states[k].effects[j];
      && (a.StreamOpened? && b.StreamOpened? ==> a.turn != b.turn)
      && (a.ToolRan? && b.ToolRan? && a.turn == b.turn ==> a.k != b.k)
      && (!a.SummaryOpened? && !b.SummaryOpened? && a.turn == b.turn ==> a.pid == b.pid)
      && (!a.ToolRan? && !b.ToolRan? ==> a.at != b.at)
  {
    hide LogOk, ProcOk, Justified, Collisionless, Opens, ToolRuns, Behaviour;
    Reachable(w, workload, states, run, k);
    assert !Clash(states[k].effects[i], states[k].effects[j]);
  }

  // ---- Write-ahead intent ------------------------------------------------------------------------

  /** Every effect of a step is preceded, in the state before it, by its runner's own committed records for exactly that effect. */
  lemma WriteAhead(w: World, workload: ID, states: seq<State>, run: seq<Action>, k: nat, i: nat)
    requires Collisionless(w) && Behaviour(w, workload, states, run) && k < |run| && |states[k].effects| <= i < |states[k + 1].effects|
    ensures Justified(w, states[k], states[k + 1].effects[i])
  {
    hide Next, LogOk, ProcOk, Justified, Clash, Collisionless, Opens, ToolRuns;
    Reachable(w, workload, states, run, k + 1);
    assert Stepped(w, states, run, k);
    NextIsPrivate(w, states[k], run[k]);
    StreamSame(w, states[k + 1], states[k], states[k + 1].effects[i]);
  }

  lemma NextIsPrivate(w: World, s: State, a: Action)
    ensures Private(s, a.pid, Next(w, s, a))
  {
    hide DoSubmit, DoAdmit, DoLoad, DoClaim, DoBeginTurn, DoNote, DoCompact, DoRoute, DoReserve, DoOpenSummary,
         DoSummaryEvent, DoEndSummary, DoStartTurn, DoOpenStream, DoRecv, DoRelay, DoEndStream, DoIntend, DoJudge, DoDecide,
         DoResolve, DoRunTool, DoEndBatch, DoReport, DoAppendResults, DoSave, DoStop, DoFinish;
  }

  // ---- Uncertain outcomes -----------------------------------------------------------------------

  /** While a runner holds an unsettled reservation nobody is offered the stream, and no other runner holds one. */
  lemma UnsettledIsExclusive(w: World, workload: ID, states: seq<State>, run: seq<Action>, k: nat, pid: nat, other: nat, r: Request)
    requires Collisionless(w) && Behaviour(w, workload, states, run) && k < |states|
    requires pid in states[k].procs && Outstanding(states[k].procs[pid].pc)
    ensures Readable(w, r, states[k].log).None?
    ensures other in states[k].procs && Outstanding(states[k].procs[other].pc) ==> other == pid
  {
    hide LogOk, EffectsOk, Held, Collisionless, Readable, Read, Witnessed, Unspent, Opens, ToolRuns, AtMost, FitsWith, Plus, Behaviour;
    var s := states[k];
    Reachable(w, workload, states, run, k);
    assert ProcOk(w, s, pid, s.procs[pid]);
    if Readable(w, r, s.log).Some? {
      ReadableIsRead(w, r, s.log);
      ReadBounds(s.log);
    }
    if other in s.procs && Outstanding(s.procs[other].pc) { OneEngaged(w, s, pid, other); }
  }

  /** A runner that has started or claimed and stands at the end of the stream. */
  predicate AtTip(s: State, pid: nat) {
    pid in s.procs && !s.procs[pid].pc.Gone? && !s.procs[pid].pc.Loaded? && s.procs[pid].run.sequence == |s.log|
  }

  /** At any time at most one runner can extend the stream. */
  lemma SoleWriter(w: World, workload: ID, states: seq<State>, run: seq<Action>, k: nat, a: nat, b: nat)
    requires Collisionless(w) && Behaviour(w, workload, states, run) && k < |states| && AtTip(states[k], a) && AtTip(states[k], b)
    ensures a == b
  {
    hide LogOk, EffectsOk, Collisionless, Read, Standing, Engaged, Behaviour;
    var s := states[k];
    Reachable(w, workload, states, run, k);
    assert ProcOk(w, s, a, s.procs[a]) && ProcOk(w, s, b, s.procs[b]);
  }

  // ---- The acceptor ---------------------------------------------------------------------------------

  /** A loop event that suits the ledger suits whatever routing the acceptor finds for its turn. */
  lemma LoopOkForSearch(env: Env, l: Ledger, found: Option<RoutingRecord>, c: ExecutionRecord)
    requires LoopOk(env, l.lastLoop, RoutingFor(l, c.turn), c)
    requires RoutingFor(l, c.turn).Some? ==> found == RoutingFor(l, c.turn)
    ensures LoopOk(env, l.lastLoop, found, c)
  {
    hide ValidModelEvent, ValidMessage, CheckpointOk;
  }

  predicate IsLoopEvent(e: Event) {
    e.draft.payload.ExecutionRecorded? && e.draft.payload.record.loop.Some?
  }

  /** Every loop event that any runner commits is accepted by the projection of the history before it. */
  lemma LoopEventsAccepted(w: World, workload: ID, states: seq<State>, run: seq<Action>, k: nat, i: nat)
    requires Collisionless(w) && Behaviour(w, workload, states, run) && k < |states| && i < |states[k].log| && IsLoopEvent(states[k].log[i])
    requires Replay(w.env, Fresh(Aggregate(WORKLOAD, workload)), states[k].log[..i]).Some?
    ensures Applied(w.env, Replay(w.env, Fresh(Aggregate(WORKLOAD, workload)), states[k].log[..i]).value, states[k].log[i]).Some?
  {
    hide EffectsOk, ProcOk, Collisionless, Read, LedgerOk, Replay, Behaviour, Opening, LoopOk, PayloadCount, Blank,
         ValidMessage, ValidRequirements;
    var s := states[k];
    Reachable(w, workload, states, run, k);
    SameWorkload(w, workload, states, run, k);
    var r, e := s.creator.value, s.log[i];
    var c, l := e.draft.payload.record, Read(s.log[..i]);
    var p := Replay(w.env, Fresh(AggregateOf(r)), s.log[..i]).value;
    assert EntryOk(w, r, l, e) && e == Seal(r, i + 1, e.draft.payload);
    if i < 7 {
      OpeningLoopless(w, r, s.log, i);
      assert false;
    }
    assert s.log[..i][..7] == s.log[..7];
    UnderwayRuns(w, r, s.log[..i]);
    ReplayKeepsRecords(w.env, AggregateOf(r), s.log[..i]);
    EntriesOneStep(w, s, i);
    SearchesAgree(s.log[..i], r.step, c.turn);
    LoopOkForSearch(w.env, l, LastRouting(p.execution, r.step, c.turn), c);
    assert StageOk(w.env, p, e, c);
  }

  lemma OpeningLoopless(w: World, r: Request, log: seq<Event>, i: nat)
    requires i < 7 <= |log| && log[..7] == Sealed(r, 0, Opening(w, r))
    ensures log[i].draft.payload.ExecutionRecorded? ==> log[i].draft.payload.record.loop.None?
  {
    assert log[i] == log[..7][i];
  }

  lemma EntriesOneStep(w: World, s: State, n: nat)
    requires Chronicled(w, s) && s.creator.Some? && n <= |s.log|
    ensures OneStep(s.log[..n], s.creator.value.step)
  {
    hide Read, LedgerOk, LoopOk, PayloadCount, Submittable, Opening;
    forall i | 0 <= i < n && s.log[i].draft.payload.ExecutionRecorded? ensures s.log[i].draft.payload.record.step == s.creator.value.step {
      assert EntryOk(w, s.creator.value, Read(s.log[..i]), s.log[i]);
    }
  }

  lemma {:induction false} SameWorkload(w: World, workload: ID, states: seq<State>, run: seq<Action>, k: nat)
    requires Behaviour(w, workload, states, run) && k < |states|
    ensures states[k].workload == workload
  {
    hide Next;
    if k > 0 {
      SameWorkload(w, workload, states, run, k - 1);
      assert Stepped(w, states, run, k - 1);
      NextIsPrivate(w, states[k - 1], run[k - 1]);
    }
  }

  /** Turns are started in the order 1, 2, 3, ... whoever starts them. */
  lemma TurnsCountUp(w: World, workload: ID, states: seq<State>, run: seq<Action>, k: nat, i: nat, turn: int)
    requires Collisionless(w) && Behaviour(w, workload, states, run) && k < |states|
    requires i < |states[k].log| && IsLoop(states[k].log[i], TurnStarted, turn)
    ensures turn == Read(states[k].log[..i]).lastTurn + 1
  {
    hide EffectsOk, ProcOk, Collisionless, Read, LedgerOk, Behaviour, Opening, PayloadCount, Submittable, Carries,
         ValidModelEvent, ValidMessage, CheckpointOk;
    Reachable(w, workload, states, run, k);
    var s := states[k];
    assert EntryOk(w, s.creator.value, Read(s.log[..i]), s.log[i]);
  }

  // ---- Spend -----------------------------------------------------------------------------------------

  /** All usage accepted by all runners is within all reservations on record, and those are within the budget. */
  lemma SpendWithinBudget(w: World, workload: ID, states: seq<State>, run: seq<Action>, k: nat)
    requires Collisionless(w) && Behaviour(w, workload, states, run) && k < |states| && states[k].creator.Some?
    ensures AtMost(states[k].spent, Read(states[k].log).reserved)
    ensures AtMost(Read(states[k].log).reserved, Limit(states[k].creator.value.budget))
  {
    hide ProcOk, Collisionless, Read, Behaviour, Opening, EntryOk, Submittable, Justified, Clash, Opens, ToolRuns, Resumable,
         AtMost;
    Reachable(w, workload, states, run, k);
  }

  /** The loop's own usage guard has never fired, and the budget a live runner hands to routing is never negative. */
  lemma GuardNeverFires(w: World, workload: ID, states: seq<State>, run: seq<Action>, k: nat, pid: nat)
    requires Collisionless(w) && Behaviour(w, workload, states, run) && k < |states| && pid in states[k].procs
    ensures !states[k].procs[pid].tripped
    ensures Live(states[k].procs[pid].pc) ==> ValidBudget(Remaining(states[k].procs[pid]))
  {
    hide LogOk, EffectsOk, Collisionless, Read, Behaviour, Engaged, Positioned, Voiced, Blank, ValidRequirements,
         ValidMessage, Offers;
    Reachable(w, workload, states, run, k);
    assert ProcOk(w, states[k], pid, states[k].procs[pid]);
  }

  // ---- Calls -----------------------------------------------------------------------------------------

  /** Provider streams of all runners, and the calls any live runner has counted, are within the model-call budget. */
  lemma CallsWithinBudget(w: World, workload: ID, states: seq<State>, run: seq<Action>, k: nat, pid: nat)
    requires Collisionless(w) && Behaviour(w, workload, states, run) && k < |states|
    ensures states[k].creator.None? ==> states[k].effects == []
    ensures states[k].creator.Some? ==>
      Opens(states[k].effects) <= Read(states[k].log).reservations <= states[k].creator.value.budget.maxModelCalls
    ensures pid in states[k].procs && Live(states[k].procs[pid].pc) ==>
      var p := states[k].procs[pid]; p.result.modelCalls + p.run.extraCalls <= p.request.budget.maxModelCalls
  {
    hide Collisionless, Read, Behaviour, Opening, EntryOk, Submittable, Clash, Opens, ToolRuns, Resumable, AtMost, Engaged,
         Positioned, Voiced, Sane, Offers;
    Reachable(w, workload, states, run, k);
    var s := states[k];
    if s.creator.None? { NothingYet(w, s); }
    if pid in s.procs { assert ProcOk(w, s, pid, s.procs[pid]); }
  }

  /** Tools run by all runners, crashed and resumed ones included, never outnumber the intents on record or the tool-call budget. */
  lemma ToolsWithinBudget(w: World, workload: ID, states: seq<State>, run: seq<Action>, k: nat)
    requires Collisionless(w) && Behaviour(w, workload, states, run) && k < |states| && states[k].creator.Some?
    ensures ToolRuns(states[k].effects) <= Read(states[k].log).intents <= states[k].creator.value.budget.maxToolCalls
  {
    hide ProcOk, Collisionless, Read, Behaviour, Opening, EntryOk, Submittable, Justified, Clash, Opens, ToolRuns, Resumable,
         AtMost;
    Reachable(w, workload, states, run, k);
  }

  lemma NothingYet(w: World, s: State)
    requires EffectsOk(w, s) && s.log == []
    ensures s.effects == []
  {
    hide Read, Opens, ToolRuns, Clash, Justified;
    if s.effects != [] {
      NeedsRecords(w, s, s.effects[0]);
      assert false;
    }
  }

  lemma NeedsRecords(w: World, s: State, e: Effect)
    requires Justified(w, s, e)
    ensures s.log != []
  {
  }

  lemma MeasureStep(w: World, s: State, pid: nat, move: Move, how: How)
    requires pid in s.procs && Live(s.procs[pid].pc)
    ensures Lowers(s.procs[pid], Acts(w, s, pid, s.procs[pid], move, how), pid)
  {
    hide DoAdmit, DoClaim, DoBeginTurn, DoNote, DoCompact, DoRoute, DoReserve, DoOpenSummary, DoSummaryEvent, DoEndSummary,
         DoStartTurn, DoOpenStream, DoRecv, DoRelay, DoEndStream, DoIntend, DoJudge, DoDecide, DoResolve, DoRunTool,
         DoEndBatch, DoReport, DoAppendResults, DoSave, DoStop, DoFinish, Private;
  }

  /** The turn loop ends: each started turn and each boundary after it strictly lowers a measure that stays non-negative. */
  lemma TurnLoopTerminates(w: World, workload: ID, states: seq<State>, run: seq<Action>, k: nat, pid: nat)
    requires Collisionless(w) && Behaviour(w, workload, states, run) && k < |run|
    requires pid in states[k].procs && Live(states[k].procs[pid].pc)
    ensures 0 <= TurnsLeft(states[k].procs[pid]) && Lowers(states[k].procs[pid], states[k + 1], pid)
  {
    hide Acts, Inv, Collisionless, TurnsLeft, Private;
    var s, a := states[k], run[k];
    CallsWithinBudget(w, workload, states, run, k, pid);
    MeasureNonNegative(s.procs[pid]);
    assert Stepped(w, states, run, k);
    if a.pid != pid || a.move.Submit? || a.move.Load? {
      OthersUntouched(w, s, a, pid);
    } else {
      MeasureStep(w, s, pid, a.move, a.how);
    }
  }

  lemma MeasureNonNegative(p: Proc)
    requires p.result.modelCalls + p.run.extraCalls <= p.request.budget.maxModelCalls
    ensures 0 <= TurnsLeft(p)
  {
  }

  /** A step of one runner leaves every other runner's own state alone. */
  lemma OthersUntouched(w: World, s: State, a: Action, pid: nat)
    requires pid in s.procs && (a.pid != pid || a.move.Submit? || a.move.Load?)
    ensures var s' := Next(w, s, a); pid in s'.procs && s'.procs[pid] == s.procs[pid]
  {
    hide Acts;
    if a.pid == pid {
      assert Next(w, s, a) == s;
    } else {
      NextIsPrivate(w, s, a);
    }
  }

  // ---- Resuming ------------------------------------------------------------------------------------------

  /** What LoopRequest.Validate demands of a continuation. */
  predicate ContinuationOk(w: World, r: Request, c: LoopEvent) {
    c.checkpoint.Some? && c.sequence >= 1 && Sane(w, r, c.checkpoint.value) &&
    1 <= c.checkpoint.value.modelCalls <= r.budget.maxModelCalls && c.checkpoint.value.stop == ToolUse
  }

  /** Whatever checkpoint a resumer is offered, at any time, is one its loop accepts, and it is its own request's. */
  lemma CheckpointsContinue(w: World, workload: ID, states: seq<State>, run: seq<Action>, k: nat, r: Request)
    requires Collisionless(w) && Behaviour(w, workload, states, run) && k < |states| && Readable(w, r, states[k].log).Some?
    requires r in w.requests
    ensures states[k].creator == Some(r) && ContinuationOk(w, r, Readable(w, r, states[k].log).value.checkpoint)
  {
    hide EffectsOk, ProcOk, Read, Behaviour, Opening, EntryOk, AtMost, Sane, Readable, Blank, ValidMessage;
    Reachable(w, workload, states, run, k);
    ReadableIsRead(w, r, states[k].log);
  }

  /** The runner stands at a turn boundary it has saved, last in an accepted stream. */
  ghost predicate Saved(w: World, workload: ID, s: State, pid: nat) {
    AtTip(s, pid) && s.procs[pid].pc.Boundary? && s.procs[pid].result.modelCalls > 0 &&
    Replay(w.env, Fresh(Aggregate(WORKLOAD, workload)), s.log).Some?
  }

  /** What restore would hand to a resumer is exactly what this runner holds. */
  predicate HandsOver(p: Proc, rs: Restart) {
    && rs.checkpoint.checkpoint == Some(p.result) && rs.checkpoint.sequence == p.emitted
    && rs.carry.reserved == p.run.reserved && rs.carry.extraCalls == p.run.extraCalls
    && rs.carry.compactionUsage == p.run.compactionUsage
  }

  /** A runner at a saved boundary is offered back exactly as it stands. */
  lemma BoundaryIsReadable(w: World, workload: ID, states: seq<State>, run: seq<Action>, k: nat, pid: nat)
    requires Collisionless(w) && Behaviour(w, workload, states, run) && k < |states| && Saved(w, workload, states[k], pid)
    ensures var p := states[k].procs[pid];
      && p.request.workload == workload && Submittable(w, p.request)
      && Readable(w, p.request, states[k].log).Some? && HandsOver(p, Readable(w, p.request, states[k].log).value)
  {
    hide EffectsOk, Read, Behaviour, Opening, EntryOk, Submittable, AtMost, Sane, Readable, Voiced, Replay, Collisionless,
         Resumable;
    Reachable(w, workload, states, run, k);
    SameWorkload(w, workload, states, run, k);
    var s := states[k];
    var p := s.procs[pid];
    assert ProcOk(w, s, pid, p);
    assert s.log[..|s.log|] == s.log;
    UnderwayRuns(w, p.request, s.log);
    assert s.log[|s.log| - 1] == Seal(p.request, |s.log|, s.log[|s.log| - 1].draft.payload);
    ReadIsReadable(w, p.request, s.log);
    ReadableIsRead(w, p.request, s.log);
  }

  const SURE := How(Delivered, false)

  /** The crash of a runner at a boundary and its resumption elsewhere, as steps. */
  function Takeover(pid: nat, heir: nat, r: Request): seq<Action> {
    [Action(pid, Crash, SURE), Action(heir, Load(r), SURE), Action(heir, Claim, SURE)]
  }

  /** A resumed runner is the crashed one: same result, same numbering, same reservations, calls and compaction usage. */
  lemma ResumedIsCrashed(w: World, workload: ID, states: seq<State>, run: seq<Action>, k: nat, pid: nat, heir: nat)
    requires Collisionless(w) && Behaviour(w, workload, states, run) && k + 3 <= |run| && Saved(w, workload, states[k], pid)
    requires heir !in states[k].procs && run[k..k + 3] == Takeover(pid, heir, states[k].procs[pid].request)
    ensures heir in states[k + 3].procs
    ensures var p, q := states[k].procs[pid], states[k + 3].procs[heir];
      && q.pc == Boundary && q.request == p.request && q.result == p.result && q.emitted == p.emitted && !q.muted
      && q.run.reserved == p.run.reserved && q.run.extraCalls == p.run.extraCalls
      && q.run.compactionUsage == p.run.compactionUsage && q.run.sequence == |states[k + 3].log|
  {
    hide Readable, Submittable, Replay, Collisionless, Inv, Next;
    var s := states[k];
    var r := s.procs[pid].request;
    BoundaryIsReadable(w, workload, states, run, k, pid);
    SameWorkload(w, workload, states, run, k);
    var steps := Takeover(pid, heir, r);
    assert run[k] == run[k..k + 3][0] && run[k + 1] == run[k..k + 3][1] && run[k + 2] == run[k..k + 3][2];
    assert Stepped(w, states, run, k) && Stepped(w, states, run, k + 1) && Stepped(w, states, run, k + 2);
    TakesOver(w, s, pid, heir, r);
  }

  /** The three steps of a takeover, one after the other. */
  lemma TakesOver(w: World, s: State, pid: nat, heir: nat, r: Request)
    requires pid in s.procs && heir !in s.procs && r.workload == s.workload && Submittable(w, r)
    requires Readable(w, r, s.log).Some? && Readable(w, r, s.log).value.checkpoint.checkpoint.Some?
    ensures var steps, rs := Takeover(pid, heir, r), Readable(w, r, s.log).value;
      var s' := Next(w, Next(w, Next(w, s, steps[0]), steps[1]), steps[2]);
      && heir in s'.procs
      && s'.procs[heir] == NewProc(r, RestoredRun(rs, |s'.log|), Boundary).(
           emitted := rs.checkpoint.sequence, result := rs.checkpoint.checkpoint.value)
  {
    hide Readable, Submittable, Private;
    var steps, rs := Takeover(pid, heir, r), Readable(w, r, s.log).value;
    var s1 := Next(w, s, steps[0]);
    assert s1 == Put(s, pid, s.procs[pid].(pc := Gone));
    var s2 := Next(w, s1, steps[1]);
    assert s2 == Put(s1, heir, NewProc(r, RestoredRun(rs, |s.log|), Loaded(rs)));
  }
}
