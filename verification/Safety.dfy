/**
 The guarantees of the durable protocol over every run: any interleaving of an original
 runner, duplicate submissions, resumers, crashes, refused appends and lost replies.
 */
module Safety {
  import opened Types
  import opened Policy
  import opened Projection
  import opened Engine
  import opened Ledger
  import opened Protocol
  import opened Invariant
  import opened Writing
  import opened Steps
  import opened TurnSteps
  import opened ToolSteps

  /** No two of the requests that are presented have the same digest. */
  predicate Collisionless(w: World) {
    forall a, b :: a in w.requests && b in w.requests && w.digest(a) == w.digest(b) ==> a == b
  }

  // ---- Ending ---------------------------------------------------------------------------------

  lemma KeepsStop(w: World, s: State, pid: nat, failed: bool, cancelled: bool, code: string, how: How)
    requires Inv(w, s) && pid in s.procs
    ensures Inv(w, DoStop(s, pid, s.procs[pid], failed, cancelled, code, how))
  {
    hide Inv, ProcOk, LogOk, EffectsOk, Read, Standing, LoopEntry, Engaged, Submittable, Admissible, Wrote;
    var p := s.procs[pid];
    if p.pc.Stopping? {
      InvProc(w, s, pid);
      NotTripped(w, s, pid);
      var q := p.(pc := Finishing, emitted := p.emitted + 1);
      MayStop(w, s, pid, p, p.(pc := Finishing));
      MayStop(w, s, pid, p, q.(muted := true));
      MovesAlone(w, s, pid, p.(pc := Finishing));
      if !p.muted {
        var stop := if cancelled then Cancelled else if failed || p.result.stop == NoStop then UnknownStop else p.result.stop;
        var l := Utter(p, LoopStopped).(stop := stop, failureCode := code);
        if p.run.sequence == |s.log| { StopLands(w, s, pid, l); }
        WroteKeeps(w, s, pid, p, LoopEntry(p.request, l), how, q, q.(muted := true));
      }
    }
  }

  lemma StopLands(w: World, s: State, pid: nat, l: LoopEvent)
    requires Inv(w, s) && pid in s.procs && s.procs[pid].pc.Stopping? && !s.procs[pid].muted && s.procs[pid].run.sequence == |s.log|
    requires var p := s.procs[pid]; l == Utter(p, LoopStopped).(stop := l.stop, failureCode := l.failureCode)
    ensures var p := s.procs[pid];
      var e := Seal(p.request, |s.log| + 1, LoopEntry(p.request, l));
      && Admissible(w, s, e)
      && ProcOk(w, Grown(s, pid, s.log + [e]), pid, Synced(p.(pc := Finishing, emitted := p.emitted + 1), |s.log| + 1, false))
  {
    hide Inv, ProcOk, LogOk, EffectsOk, Read, Standing, LoopEntry, Engaged, Submittable, Admissible;
    var p := s.procs[pid];
    var q := Synced(p.(pc := Finishing, emitted := p.emitted + 1), |s.log| + 1, false);
    NotTripped(w, s, pid);
    AtEnd(w, s, pid);
    SayableAdmissible(w, s, pid, l);
    StoppedStanding(w, p, q, Read(s.log), l);
    Lands(w, s, pid, q, Seal(p.request, |s.log| + 1, LoopEntry(p.request, l)));
  }

  lemma StoppedStanding(w: World, p: Proc, q: Proc, l: Ledger, le: LoopEvent)
    requires Standing(w, p, l) && q.pc == Finishing && !q.tripped && q.turn == p.turn
    ensures Standing(w, q, Said(l, le))
  {
    hide Balanced, Carries;
  }

  lemma GoneOk(w: World, s: State, pid: nat, p: Proc)
    requires p.pc.Gone? && !p.tripped
    ensures ProcOk(w, s, pid, p)
  {
  }

  lemma InvShape(w: World, s: State)
    requires Inv(w, s)
    ensures |s.authors| == |s.log|
  {
  }

  /** The finished record of the final batch may be written while the run is under way. */
  lemma FinishedEnterable(w: World, s: State, p: Proc, code: string, state: WorkloadState)
    requires Chronicled(w, s) && s.creator == Some(p.request) && Read(s.log).phase == Underway
    ensures var e := Seal(p.request, |s.log| + 1, Closing(p, code, state)[0]);
      Enterable(w, s, e) && Noted(Read(s.log), |s.log|, e) == Read(s.log).(phase := Concluding)
  {
    hide Read, LoopOk, Sane, RaisedByAll;
  }

  /** Then the step ends, and then the workload. */
  lemma EndingEnterable(w: World, s: State, payload: Payload)
    requires Chronicled(w, s) && s.creator.Some? && Ending(s.creator.value, Read(s.log), payload)
    ensures var e := Seal(s.creator.value, |s.log| + 1, payload);
      && Enterable(w, s, e)
      && Noted(Read(s.log), |s.log|, e) == Read(s.log).(phase := if payload.StepTransitioned? then Settled else Concluded)
  {
    hide Read, LoopOk, Sane, CanTransitionStep;
  }

  /** The final batch, one event after the other: the stream stays in order and ends concluded. */
  lemma ClosingCommits(w: World, s: State, pid: nat, p: Proc, code: string, state: WorkloadState)
    requires LogOk(w, s) && EffectsOk(w, s) && s.creator == Some(p.request) && Terminal(state) && Read(s.log).phase == Underway
    ensures var s' := Grown(s, pid, s.log + Sealed(p.request, |s.log|, Closing(p, code, state)));
      Longer(s, s') && LogOk(w, s') && EffectsOk(w, s')
  {
    hide Read, EffectsOk, Chronicled, Enterable, FinalResult, RaisedByAll;
    var ps := Closing(p, code, state);
    var e1, e2, e3 := Seal(p.request, |s.log| + 1, ps[0]), Seal(p.request, |s.log| + 2, ps[1]), Seal(p.request, |s.log| + 3, ps[2]);
    FinishedEnterable(w, s, p, code, state);
    ChronicleGrows(w, s, pid, e1);
    var s1 := Grown(s, pid, s.log + [e1]);
    EndingEnterable(w, s1, ps[1]);
    ChronicleGrows(w, s1, pid, e2);
    var s2 := Grown(s1, pid, s1.log + [e2]);
    EndingEnterable(w, s2, ps[2]);
    ChronicleGrows(w, s2, pid, e3);
    var s3 := Grown(s2, pid, s2.log + [e3]);
    assert s3.log == s.log + Sealed(p.request, |s.log|, ps);
    assert s3 == Grown(s, pid, s.log + Sealed(p.request, |s.log|, ps));
  }

  lemma KeepsFinish(w: World, s: State, pid: nat, code: string, state: WorkloadState, how: How)
    requires Inv(w, s) && pid in s.procs
    ensures Inv(w, DoFinish(s, pid, s.procs[pid], code, state, how))
  {
    hide Inv, ProcOk, LogOk, EffectsOk, Read, Closing;
    var p := s.procs[pid];
    if p.pc.Finishing? && Terminal(state) {
      NotTripped(w, s, pid);
      InvProc(w, s, pid);
      InvShape(w, s);
      HeldBasics(w, s, pid);
      var ps := Closing(p, code, state);
      var (log, run, ok) := Appending(p.request, p.run, s.log, ps, how);
      AppendOutcome(p.request, p.run, s.log, ps, how);
      var gone := p.(pc := Gone, run := p.run.(sequence := run.sequence, storeErr := run.storeErr));
      if log == s.log {
        assert Grown(s, pid, log) == s;
        GoneOk(w, s, pid, gone);
        MovesAlone(w, s, pid, gone);
      } else {
        AtEnd(w, s, pid);
        StandsUnderway(w, p, Read(s.log));
        ClosingCommits(w, s, pid, p, code, state);
        LeavesGrown(w, s, pid, Grown(s, pid, log), gone);
      }
    }
  }

  /** A runner at the end of the stream appends a batch and is gone; nobody else held a reservation. */
  lemma LeavesGrown(w: World, s: State, pid: nat, s': State, gone: Proc)
    requires Inv(w, s) && pid in s.procs && s.procs[pid].run.sequence == |s.log| && !s.procs[pid].pc.Gone?
    requires Longer(s, s') && s'.procs == s.procs && LogOk(w, s') && EffectsOk(w, s') && gone.pc.Gone? && !gone.tripped
    ensures Inv(w, Put(s', pid, gone))
  {
    hide ProcOk, LogOk, EffectsOk, Outstanding;
    forall other | other in s.procs && other != pid ensures ProcOk(w, s', other, s.procs[other]) {
      if Outstanding(s.procs[other].pc) { Exclusive(w, s, pid, other); }
      BystanderKeeps(w, s, s', other, s.procs[other]);
    }
    GoneOk(w, s', pid, gone);
    PutKeeps(w, s', pid, gone);
  }

  // ---- Starting and resuming --------------------------------------------------------------------

  /** What the opening batch writes. */
  lemma OpeningRead(w: World, r: Request)
    ensures var log := Sealed(r, 0, Opening(w, r));
      Read(log) == EMPTY.(request := Some(w.digest(r))) && |log| == 7 && OneStep(log, r.step)
  {
    var log := Sealed(r, 0, Opening(w, r));
    assert forall i :: 0 <= i < 6 ==> Silent(log[i].draft.payload);
    SilentRead(log[..6]);
  }

  predicate Silent(p: Payload) {
    !p.ExecutionRecorded? && (p.StepTransitioned? ==> p.fromStep != SRunning) && (p.WorkloadTransitioned? ==> p.fromWorkload != WRunning)
  }

  lemma {:induction false} SilentRead(log: seq<Event>)
    requires forall i :: 0 <= i < |log| ==> Silent(log[i].draft.payload)
    ensures Read(log) == EMPTY
  {
    if log != [] { SilentRead(log[..|log| - 1]); }
  }

  lemma OpeningEntry(w: World, r: Request, i: nat)
    requires i < 7
    ensures var log := Sealed(r, 0, Opening(w, r)); EntryOk(w, r, Read(log[..i]), log[i])
  {
    hide Read, LoopOk;
    var log := Sealed(r, 0, Opening(w, r));
    forall k | 0 <= k < i ensures Silent(log[..i][k].draft.payload) {
      assert log[..i][k] == Seal(r, k + 1, Opening(w, r)[k]);
    }
    SilentRead(log[..i]);
    assert log[i] == Seal(r, i + 1, Opening(w, r)[i]);
  }

  lemma Opened(w: World, s: State, pid: nat, r: Request, p: Proc)
    requires Inv(w, s) && s.log == [] && pid !in s.procs && r.workload == s.workload && Submittable(w, r)
    requires p.request == r && ((p.pc.Gone? && !p.tripped) || p == NewProc(r, NEW_RUN.(sequence := 7), Admitting))
    ensures Inv(w, Put(Grown(s, pid, Sealed(r, 0, Opening(w, r))).(creator := Some(r)), pid, p))
  {
    hide Read, Submittable, LoopOk;
    var log := Sealed(r, 0, Opening(w, r));
    var s1 := Grown(s, pid, log).(creator := Some(r));
    OpeningRead(w, r);
    OpeningLedger(w, r);
    forall i | 0 <= i < |log| ensures EntryOk(w, r, Read(log[..i]), log[i]) { OpeningEntry(w, r, i); }
    assert LogOk(w, s1);
    assert s.effects == [];
    assert EffectsOk(w, s1) by { assert Read([]) == EMPTY by { EmptyRead(); } }
    forall other | other in s.procs ensures ProcOk(w, s1, other, s.procs[other]) {
      assert ProcOk(w, s, other, s.procs[other]);
    }
    if !p.pc.Gone? {
      assert s1.log[..7] == s1.log;
      NewStanding(w, r);
    }
    PutKeeps(w, s1, pid, p);
  }

  lemma OpeningLedger(w: World, r: Request)
    requires Submittable(w, r)
    ensures LedgerOk(w, r, EMPTY.(request := Some(w.digest(r))))
  {
    hide Blank, ValidMessage, ValidRequirements;
  }

  lemma EmptyRead()
    ensures Read([]) == EMPTY
  {
  }

  lemma NewSane(w: World, r: Request)
    requires Submittable(w, r)
    ensures Sane(w, r, NewResult(r)) && ValidBudget(r.budget)
  {
    hide Blank, ValidMessage, ValidRequirements;
  }

  /** A runner with nothing on record stands on an empty ledger. */
  lemma FreshStanding(w: World, p: Proc, l: Ledger)
    requires p.pc == Admitting && !p.muted && !p.tripped && p.turn == 0 && p.emitted == 0
    requires p.run.reserved == NO_SPEND && p.run.extraCalls == 0 && p.run.compactionUsage == NO_USAGE
    requires p.result.usage == NO_USAGE && p.result.modelCalls == 0 && p.result.toolCalls == 0
    requires Submittable(w, p.request) && Sane(w, p.request, p.result) && ValidBudget(p.request.budget)
    requires l.phase == Underway && l.lastLoop.None? && l.reserved == NO_SPEND && l.extraCalls == 0 && l.compactionUsage == NO_USAGE
    requires l.lastTurn == 0 && l.reservations == 0 && l.intents == 0
    ensures Standing(w, p, l)
  {
    hide Submittable, Sane, Carries, ValidMessage;
  }

  lemma NewStanding(w: World, r: Request)
    requires Submittable(w, r)
    ensures Standing(w, NewProc(r, NEW_RUN.(sequence := 7), Admitting), EMPTY.(request := Some(w.digest(r))))
  {
    hide Submittable, Sane, Standing, ValidBudget;
    NewSane(w, r);
    FreshStanding(w, NewProc(r, NEW_RUN.(sequence := 7), Admitting), EMPTY.(request := Some(w.digest(r))));
  }

  lemma KeepsSubmit(w: World, s: State, pid: nat, r: Request, how: How)
    requires Inv(w, s)
    ensures Inv(w, DoSubmit(w, s, pid, r, how))
  {
    hide Inv, ProcOk, Opening, Submittable;
    if pid !in s.procs && r.workload == s.workload && Submittable(w, r) {
      var p := NewProc(r, NEW_RUN, Gone);
      var (log, run, ok) := Appending(r, NEW_RUN, s.log, Opening(w, r), how);
      AppendOutcome(r, NEW_RUN, s.log, Opening(w, r), how);
      var q := if ok then p.(pc := Admitting) else p;
      var q' := q.(run := q.run.(sequence := run.sequence, storeErr := run.storeErr));
      if log == s.log {
        SealedSome(w, r);
        assert !ok;
        assert Grown(s, pid, log) == s;
        GoneOk(w, s, pid, q');
        MovesAlone(w, s, pid, q');
      } else {
        assert log == Sealed(r, 0, Opening(w, r));
        SealedSome(w, r);
        Opened(w, s, pid, r, q');
        assert Put(Grown(s, pid, log), pid, q').(creator := Some(r)) == Put(Grown(s, pid, log).(creator := Some(r)), pid, q');
      }
    }
  }

  lemma SealedSome(w: World, r: Request)
    ensures |Opening(w, r)| == 7 && |Sealed(r, 0, Opening(w, r))| == 7
  {
  }

  lemma KeepsLoad(w: World, s: State, pid: nat, r: Request)
    requires Inv(w, s)
    ensures Inv(w, DoLoad(w, s, pid, r))
  {
    hide Inv, Readable, Submittable;
    if pid !in s.procs && r.workload == s.workload && Submittable(w, r) && Readable(w, r, s.log).Some? {
      var rs := Readable(w, r, s.log).value;
      ReadableIsRead(w, r, s.log);
      assert s.log[..|s.log|] == s.log;
      MovesAlone(w, s, pid, NewProc(r, RestoredRun(rs, |s.log|), Loaded(rs)));
    }
  }

  /** A resumer at the end of the stream has read exactly what a live runner at that boundary holds. */
  lemma ClaimStanding(w: World, s: State, pid: nat)
    requires Collisionless(w) && Inv(w, s) && pid in s.procs && s.procs[pid].pc.Loaded? && s.procs[pid].run.sequence == |s.log|
    ensures var p := s.procs[pid];
      var c := p.pc.restart.checkpoint;
      && s.creator == Some(p.request) && Read(s.log).pendingAt.None? && c.checkpoint.Some?
      && Standing(w, Claimed(p), Read(s.log))
  {
    hide Read, Sane, EffectsOk, EntryOk, Blank, ValidMessage, ValidRequirements;
    var p := s.procs[pid];
    assert ProcOk(w, s, pid, p);
    assert s.log[..|s.log|] == s.log;
    ReadBounds(s.log);
  }

  lemma ClaimLands(w: World, s: State, pid: nat)
    requires Collisionless(w) && Inv(w, s) && pid in s.procs && s.procs[pid].pc.Loaded? && s.procs[pid].run.sequence == |s.log|
    requires s.procs[pid].pc.restart.checkpoint.checkpoint.Some?
    ensures var p := s.procs[pid];
      var e := Seal(p.request, |s.log| + 1, ResumedEntry(p.request, w.digest(p.request)));
      && Admissible(w, s, e)
      && ProcOk(w, Grown(s, pid, s.log + [e]), pid, Synced(Claimed(p), |s.log| + 1, false))
  {
    hide Inv, ProcOk, LogOk, EffectsOk, Read, Standing, Engaged, Submittable, Admissible, Collisionless, Offers;
    var p := s.procs[pid];
    var payload, q := ResumedEntry(p.request, w.digest(p.request)), Claimed(p);
    InvProc(w, s, pid);
    ClaimStanding(w, s, pid);
    StandsUnderway(w, q, Read(s.log));
    QuietAdmissible(w, s, payload);
    StandingSame(w, q, Synced(q, |s.log| + 1, false), Read(s.log));
    InvShape(w, s);
    Lands(w, s, pid, Synced(q, |s.log| + 1, false), Seal(p.request, |s.log| + 1, payload));
  }

  lemma KeepsClaim(w: World, s: State, pid: nat, how: How)
    requires Collisionless(w) && Inv(w, s) && pid in s.procs
    ensures Inv(w, DoClaim(w, s, pid, s.procs[pid], how))
  {
    hide Inv, ProcOk, LogOk, EffectsOk, Read, Admissible, Wrote, Collisionless, ResumedEntry, Outstanding;
    var p := s.procs[pid];
    if p.pc.Loaded? && p.pc.restart.checkpoint.checkpoint.Some? {
      NotTripped(w, s, pid);
      var gone := p.(pc := Gone);
      GoneOk(w, s, pid, gone);
      assert !Outstanding(gone.pc) by { GoneHoldsNothing(gone); }
      if p.run.sequence == |s.log| { ClaimLands(w, s, pid); }
      WroteKeeps(w, s, pid, p, ResumedEntry(p.request, w.digest(p.request)), how, Claimed(p), gone);
    }
  }

  lemma GoneHoldsNothing(p: Proc)
    requires p.pc.Gone?
    ensures !Outstanding(p.pc)
  {
  }

  // ---- Every step, every run ------------------------------------------------------------------------

  lemma KeepsCrash(w: World, s: State, pid: nat)
    requires Inv(w, s) && pid in s.procs
    ensures Inv(w, Put(s, pid, s.procs[pid].(pc := Gone)))
  {
    hide Inv, ProcOk;
    NotTripped(w, s, pid);
    GoneOk(w, s, pid, s.procs[pid].(pc := Gone));
    MovesAlone(w, s, pid, s.procs[pid].(pc := Gone));
  }

  lemma KeepsLeaving(w: World, s: State, pid: nat, pc: PC)
    requires Inv(w, s) && pid in s.procs && Live(s.procs[pid].pc) && (pc == Stopping || pc == Finishing)
    ensures Inv(w, Put(s, pid, s.procs[pid].(pc := pc)))
  {
    hide Inv, ProcOk;
    var p := s.procs[pid];
    NotTripped(w, s, pid);
    InvProc(w, s, pid);
    MayStop(w, s, pid, p, p.(pc := pc));
    MovesAlone(w, s, pid, p.(pc := pc));
  }

  predicate Begins(m: Move) {
    m.Admit? || m.Claim? || m.BeginTurn? || m.Note? || m.Compact? || m.Route? || m.Reserve?
  }

  lemma KeepsBegins(w: World, s: State, pid: nat, m: Move, how: How)
    requires Collisionless(w) && Inv(w, s) && pid in s.procs && Begins(m)
    ensures Inv(w, Acts(w, s, pid, s.procs[pid], m, how))
  {
    hide Collisionless, Inv, Put, DoAdmit, DoClaim, DoBeginTurn, DoNote, DoCompact, DoRoute, DoReserve, DoOpenSummary,
         DoSummaryEvent, DoEndSummary, DoStartTurn, DoOpenStream, DoRecv, DoRelay, DoEndStream, DoIntend, DoJudge,
         DoDecide, DoResolve, DoRunTool, DoEndBatch, DoReport, DoAppendResults, DoSave, DoStop, DoFinish;
    match m {
      case Admit => KeepsAdmit(w, s, pid, how);
      case Claim => KeepsClaim(w, s, pid, how);
      case BeginTurn => KeepsBeginTurn(w, s, pid, how);
      case Note(record) => KeepsNote(w, s, pid, record, how);
      case Compact => KeepsCompact(w, s, pid, how);
      case Route(rr) => KeepsRoute(w, s, pid, rr, how);
      case Reserve(estimate, cap) => KeepsReserve(w, s, pid, estimate, cap, how);
    }
  }

  predicate Calls(m: Move) {
    m.OpenSummary? || m.SummaryEvent? || m.EndSummary? || m.StartTurn? || m.OpenStream? || m.Recv? || m.Relay? || m.EndStream?
  }

  lemma KeepsCalls(w: World, s: State, pid: nat, m: Move, how: How)
    requires Collisionless(w) && Inv(w, s) && pid in s.procs && Calls(m)
    ensures Inv(w, Acts(w, s, pid, s.procs[pid], m, how))
  {
    hide Collisionless, Inv, Put, DoAdmit, DoClaim, DoBeginTurn, DoNote, DoCompact, DoRoute, DoReserve, DoOpenSummary,
         DoSummaryEvent, DoEndSummary, DoStartTurn, DoOpenStream, DoRecv, DoRelay, DoEndStream, DoIntend, DoJudge,
         DoDecide, DoResolve, DoRunTool, DoEndBatch, DoReport, DoAppendResults, DoSave, DoStop, DoFinish;
    match m {
      case OpenSummary => KeepsOpenSummary(w, s, pid);
      case SummaryEvent(e) => KeepsSummaryEvent(w, s, pid, e, how);
      case EndSummary(text, draft) => KeepsEndSummary(w, s, pid, text, draft, how);
      case StartTurn => KeepsStartTurn(w, s, pid, how);
      case OpenStream => KeepsOpenStream(w, s, pid);
      case Recv(e) => KeepsRecv(w, s, pid, e, how);
      case Relay => KeepsRelay(w, s, pid, how);
      case EndStream => KeepsEndStream(w, s, pid, how);
    }
  }

  predicate Batches(m: Move) {
    m.Intend? || m.Judge? || m.Decide? || m.Resolve? || m.RunTool? || m.EndBatch? || m.Report? || m.AppendResults? || m.Save?
  }

  lemma KeepsBatches(w: World, s: State, pid: nat, m: Move, how: How)
    requires Collisionless(w) && Inv(w, s) && pid in s.procs && Batches(m)
    ensures Inv(w, Acts(w, s, pid, s.procs[pid], m, how))
  {
    hide Collisionless, Inv, Put, DoAdmit, DoClaim, DoBeginTurn, DoNote, DoCompact, DoRoute, DoReserve, DoOpenSummary,
         DoSummaryEvent, DoEndSummary, DoStartTurn, DoOpenStream, DoRecv, DoRelay, DoEndStream, DoIntend, DoJudge,
         DoDecide, DoResolve, DoRunTool, DoEndBatch, DoReport, DoAppendResults, DoSave, DoStop, DoFinish;
    match m {
      case Intend => KeepsIntend(w, s, pid, how);
      case Judge(k, sandbox, answer) => KeepsJudge(w, s, pid, k, sandbox, answer, how);
      case Decide(k, d) => KeepsDecide(w, s, pid, k, d, how);
      case Resolve(k) => KeepsResolve(w, s, pid, k, how);
      case RunTool(k) => KeepsRunTool(w, s, pid, k);
      case EndBatch(finished) => KeepsEndBatch(w, s, pid, finished);
      case Report(o, failure) => KeepsReport(w, s, pid, o, failure, how);
      case AppendResults => KeepsAppendResults(w, s, pid, how);
      case Save => KeepsSave(w, s, pid, how);
    }
  }

  predicate Ends(m: Move) {
    m.Fail? || m.Abandon? || m.Stop? || m.Finish? || m.Crash?
  }

  lemma KeepsEnds(w: World, s: State, pid: nat, m: Move, how: How)
    requires Collisionless(w) && Inv(w, s) && pid in s.procs && Ends(m)
    ensures Inv(w, Acts(w, s, pid, s.procs[pid], m, how))
  {
    hide Collisionless, Inv, Put, DoAdmit, DoClaim, DoBeginTurn, DoNote, DoCompact, DoRoute, DoReserve, DoOpenSummary,
         DoSummaryEvent, DoEndSummary, DoStartTurn, DoOpenStream, DoRecv, DoRelay, DoEndStream, DoIntend, DoJudge,
         DoDecide, DoResolve, DoRunTool, DoEndBatch, DoReport, DoAppendResults, DoSave, DoStop, DoFinish;
    if m.Crash? {
      KeepsCrash(w, s, pid);
    } else if m.Fail? && Live(s.procs[pid].pc) {
      KeepsLeaving(w, s, pid, Stopping);
    } else if m.Abandon? && s.procs[pid].pc.Boundary? {
      KeepsLeaving(w, s, pid, Finishing);
    } else if m.Stop? {
      KeepsStop(w, s, pid, m.failed, m.cancelled, m.code, how);
    } else if m.Finish? {
      KeepsFinish(w, s, pid, m.code, m.state, how);
    }
  }

  /** The invariant is inductive: no step of any runner breaks it. */
  lemma StepKeepsInv(w: World, s: State, a: Action)
    requires Collisionless(w) && Inv(w, s)
    ensures Inv(w, Next(w, s, a))
  {
    hide Collisionless, Inv, DoSubmit, DoLoad, Acts;
    if a.move.Submit? {
      KeepsSubmit(w, s, a.pid, a.move.r, a.how);
    } else if a.move.Load? {
      KeepsLoad(w, s, a.pid, a.move.r);
    } else if a.pid in s.procs {
      if Begins(a.move) { KeepsBegins(w, s, a.pid, a.move, a.how); }
      else if Calls(a.move) { KeepsCalls(w, s, a.pid, a.move, a.how); }
      else if Batches(a.move) { KeepsBatches(w, s, a.pid, a.move, a.how); }
      else { KeepsEnds(w, s, a.pid, a.move, a.how); }
    }
  }

  lemma InitialInv(w: World, workload: ID)
    ensures Inv(w, Initial(workload))
  {
  }

  /** In every state of every run the invariant holds. */
  lemma {:induction false} Reachable(w: World, workload: ID, states: seq<State>, run: seq<Action>, k: nat)
    requires Collisionless(w) && Behaviour(w, workload, states, run) && k < |states|
    ensures Inv(w, states[k])
  {
    hide Collisionless, Inv, Next;
    if k == 0 {
      InitialInv(w, workload);
    } else {
      Reachable(w, workload, states, run, k - 1);
      assert Stepped(w, states, run, k - 1);
      StepKeepsInv(w, states[k - 1], run[k - 1]);
    }
  }
}
