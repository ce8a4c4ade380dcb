/** Every step of the protocol machine keeps the invariant. */
module Steps {
  import opened Types
  import opened Policy
  import opened Routing
  import opened Projection
  import opened Engine
  import opened StreamProtocol
  import opened Ledger
  import opened Protocol
  import opened Invariant
  import opened Writing

  // ---- Records that leave the ledger alone ------------------------------------------------

  lemma QuietAdmissible(w: World, s: State, payload: Payload)
    requires LogOk(w, s) && s.creator.Some? && Read(s.log).phase == Underway
    requires payload.ExecutionRecorded? && Quiet(payload.record) && payload.record.step == s.creator.value.step
    requires Written(w, s.creator.value, payload.record)
    ensures var e := Seal(s.creator.value, |s.log| + 1, payload);
      Admissible(w, s, e) && QuietEvent(e) && Noted(Read(s.log), |s.log|, e) == Read(s.log)
  {
    hide Read, LedgerOk, LoopOk, Written;
  }

  /** A runner that writes a quiet record and stays, or falls back. */
  lemma QuietKeeps(w: World, s: State, pid: nat, payload: Payload, how: How, fallback: Proc)
    requires Inv(w, s) && pid in s.procs
    requires var p := s.procs[pid];
      && !p.pc.Gone? && !p.pc.Loaded? && payload.ExecutionRecorded? && Quiet(payload.record) && payload.record.step == p.request.step
      && Written(w, p.request, payload.record)
      && fallback.run.sequence == p.run.sequence && !fallback.pc.Loaded? && ProcOk(w, s, pid, fallback)
    ensures Inv(w, Wrote(s, pid, s.procs[pid], [payload], how, s.procs[pid], fallback))
  {
    hide Read, LedgerOk, EntryOk, Standing, Engaged, Outstanding, EffectsOk, Submittable, Quiet, Written;
    var p := s.procs[pid];
    var e := Seal(p.request, |s.log| + 1, payload);
    assert ProcOk(w, s, pid, p);
    if p.run.sequence == |s.log| {
      AtEnd(w, s, pid);
      StandsUnderway(w, p, Read(s.log));
      QuietAdmissible(w, s, payload);
      var q := Synced(p, |s.log| + 1, false);
      StandingSame(w, p, q, Read(s.log));
      var s' := Grown(s, pid, s.log + [e]);
      LogGrows(w, s, pid, e);
      if Outstanding(p.pc) {
        EngagedKeeps(w, s, s', e, pid, p);
        EngagedSame(w, s', pid, p, q);
      }
      Lands(w, s, pid, q, e);
    }
    WroteKeeps(w, s, pid, p, payload, how, p, fallback);
  }

  lemma StandsUnderway(w: World, p: Proc, l: Ledger)
    requires Standing(w, p, l)
    ensures l.phase == Underway
  {
  }

  lemma StandingSame(w: World, p: Proc, q: Proc, l: Ledger)
    requires Standing(w, p, l) && q == Synced(p, q.run.sequence, q.run.storeErr)
    ensures Standing(w, q, l)
  {
    hide Submittable, Sane, AtMost, FitsWith, Covered, Plus, Carries, ValidMessage, ValidUsage;
  }

  lemma EngagedSame(w: World, s: State, pid: nat, p: Proc, q: Proc)
    requires Outstanding(p.pc) && Engaged(w, s, pid, p) && q == Synced(p, q.run.sequence, q.run.storeErr)
    ensures Engaged(w, s, pid, q)
  {
    hide Read, Opens, ToolRuns, Unrun, AtMost, FitsWith, Covered, Plus, Unspent, Reserves, Starts, Intends, StatusOk;
    UnspentSame(s.effects, pid, p, q);
  }

  lemma KeepsNote(w: World, s: State, pid: nat, record: ExecutionRecord, how: How)
    requires Inv(w, s) && pid in s.procs
    ensures Inv(w, DoNote(s, pid, s.procs[pid], record, how))
  {
    hide Inv, Wrote, ProcOk, LogOk, EffectsOk;
    var p := s.procs[pid];
    assert ProcOk(w, s, pid, p) by { InvProc(w, s, pid); }
    if Remark(p.request.step, record) {
      if p.pc.Selecting? || p.pc.Summarizing? || p.pc.Streaming? {
        NotTripped(w, s, pid);
        MayStop(w, s, pid, p, Stopped(p));
        QuietKeeps(w, s, pid, ExecutionRecorded(record), how, Stopped(p));
      } else if p.pc.Running? || p.pc.Stopping? || p.pc.Finishing? {
        QuietKeeps(w, s, pid, ExecutionRecorded(record), how, p);
      }
    }
  }

  lemma InvProc(w: World, s: State, pid: nat)
    requires Inv(w, s) && pid in s.procs
    ensures ProcOk(w, s, pid, s.procs[pid]) && LogOk(w, s) && EffectsOk(w, s)
  {
  }

  lemma NotTripped(w: World, s: State, pid: nat)
    requires Inv(w, s) && pid in s.procs
    ensures !s.procs[pid].tripped && (s.procs[pid].pc.Gone? || s.procs[pid].turn >= 0)
  {
    hide Read, Balanced, Positioned, Voiced, Engaged, Offers, Submittable, LogOk, EffectsOk;
    assert ProcOk(w, s, pid, s.procs[pid]);
  }

  // ---- Budget failures -----------------------------------------------------------------------

  /** A budget-failure record moves nothing in the ledger. */
  lemma ExhaustedAdmissible(w: World, s: State, turn: int, d: Dimension)
    requires LogOk(w, s) && s.creator.Some? && d != NoDimension && d != UnknownDimension && turn >= 0 && Read(s.log).phase == Underway
    ensures var e := Seal(s.creator.value, |s.log| + 1, BudgetEntry(s.creator.value, turn, BudgetRecord(NO_SPEND, d)));
      Admissible(w, s, e) && Noted(Read(s.log), |s.log|, e) == Read(s.log)
  {
    hide Read, LedgerOk, LoopOk;
  }

  lemma KeepsExhausted(w: World, s: State, pid: nat, p: Proc, d: Dimension, how: How, pc: PC)
    requires Inv(w, s) && pid in s.procs && d != NoDimension && d != UnknownDimension
    requires var o := s.procs[pid]; o.pc.Admitting? || Live(o.pc)
    requires var o := s.procs[pid]; p.request == o.request && p.run == o.run && p.emitted == o.emitted && p.muted == o.muted && !p.tripped && p.turn >= 0
    requires pc == Stopping || pc == Finishing
    ensures var q := p.(pc := pc, run := p.run.(budgetDimension := d));
      Inv(w, Wrote(s, pid, p, [BudgetEntry(p.request, p.turn, BudgetRecord(NO_SPEND, d))], how, q, q))
  {
    hide Inv, Wrote, ProcOk, LogOk, EffectsOk, Read, Admissible, Standing;
    var o, q := s.procs[pid], p.(pc := pc, run := p.run.(budgetDimension := d));
    InvProc(w, s, pid);
    MayStop(w, s, pid, o, q);
    HeldBasics(w, s, pid);
    var payload := BudgetEntry(p.request, p.turn, BudgetRecord(NO_SPEND, d));
    var e := Seal(p.request, |s.log| + 1, payload);
    if p.run.sequence == |s.log| {
      AtEnd(w, s, pid);
      StandsUnderway(w, o, Read(s.log));
      ExhaustedAdmissible(w, s, p.turn, d);
      var q' := Synced(q, |s.log| + 1, false);
      StopStanding(w, o, q', Read(s.log));
      Lands(w, s, pid, q', e);
    }
    WroteKeeps(w, s, pid, p, payload, how, q, q);
  }

  lemma HeldBasics(w: World, s: State, pid: nat)
    requires Inv(w, s) && pid in s.procs && !s.procs[pid].pc.Gone? && !s.procs[pid].pc.Loaded?
    ensures s.creator == Some(s.procs[pid].request) && |s.authors| == |s.log| && 0 < s.procs[pid].run.sequence <= |s.log|
  {
    hide Read, Standing, Engaged, LogOk, EffectsOk;
    assert ProcOk(w, s, pid, s.procs[pid]);
  }

  lemma StopStanding(w: World, p: Proc, q: Proc, l: Ledger)
    requires Standing(w, p, l) && !q.tripped && q.turn >= 0 && (q.pc == Stopping || q.pc == Finishing)
    requires !p.pc.Finishing? && (q.pc == Finishing || q.muted || (q.emitted == p.emitted && q.muted == p.muted))
    ensures Standing(w, q, l)
  {
    hide Balanced, Carries, ValidMessage;
  }

  lemma KeepsAdmit(w: World, s: State, pid: nat, how: How)
    requires Inv(w, s) && pid in s.procs
    ensures Inv(w, DoAdmit(s, pid, s.procs[pid], how))
  {
    hide Inv, ProcOk, LogOk, EffectsOk, Read;
    var p := s.procs[pid];
    InvProc(w, s, pid);
    NotTripped(w, s, pid);
    if p.pc.Admitting? {
      if p.request.budget.maxSteps < 1 {
        KeepsExhausted(w, s, pid, p, Steps, how, Finishing);
        var s' := Exhausted(s, pid, p, Steps, how);
        var q := p.(pc := Finishing, run := p.run.(budgetDimension := Steps));
        assert Put(s', pid, s'.procs[pid].(pc := Finishing)) ==
               Wrote(s, pid, p, [BudgetEntry(p.request, p.turn, BudgetRecord(NO_SPEND, Steps))], how, q, q);
      } else {
        BecomesBoundary(w, s, pid, p);
        MovesAlone(w, s, pid, p.(pc := Boundary));
      }
    }
  }

  lemma BecomesBoundary(w: World, s: State, pid: nat, p: Proc)
    requires ProcOk(w, s, pid, p) && p.pc.Admitting?
    ensures ProcOk(w, s, pid, p.(pc := Boundary))
  {
    hide Read, Submittable, Sane, Carries, ValidMessage, ValidUsage;
  }

  // ---- Loop events ------------------------------------------------------------------------------

  /** A loop event the loop may emit now: numbered next, of a routed model, with a payload that fits its kind. */
  predicate Sayable(w: World, p: Proc, l: LoopEvent, ledger: Ledger) {
    && l.sequence == p.emitted + 1 && l.turn == p.turn && l.kind != UnknownLoopEvent && l.kind != Checkpoint
    && (l.kind != LoopStopped ==> Carries(RoutingFor(ledger, l.turn), l.model))
    && (l.kind == TurnStarted ==> l.turn == ledger.lastTurn + 1)
    && (l.kind == ToolStarted ==> ledger.intents < p.request.budget.maxToolCalls)
    && (l.modelEvent.Some? ==> ValidModelEvent(w.env, l.modelEvent.value))
    && (l.message.Some? ==> ValidMessage(w.env, l.message.value))
    && (l.kind == ModelOutput ==> l.modelEvent.Some?)
    && (l.kind == MessageAppended ==> l.message.Some?)
    && (l.kind == ToolStarted || l.kind == ToolCompleted ==> l.toolCall.Some?)
  }

  function Said(ledger: Ledger, l: LoopEvent): Ledger {
    ledger.(checkpoint := None, lastLoop := Some(l), lastTurn := if l.kind == TurnStarted then l.turn else ledger.lastTurn,
            intents := ledger.intents + Bit(l.kind == ToolStarted))
  }

  lemma SayableAdmissible(w: World, s: State, pid: nat, l: LoopEvent)
    requires Inv(w, s) && pid in s.procs
    requires var p := s.procs[pid];
      && (Live(p.pc) || p.pc.Stopping?) && !p.muted && p.run.sequence == |s.log| && Sayable(w, p, l, Read(s.log))
    ensures var e := Seal(s.procs[pid].request, |s.log| + 1, LoopEntry(s.procs[pid].request, l));
      Admissible(w, s, e) && Noted(Read(s.log), |s.log|, e) == Said(Read(s.log), l)
  {
    hide Read, Carries, ValidModelEvent, ValidMessage, ValidRequirements, Balanced, Positioned, LoopLevel, Engaged,
         Blank, EffectsOk, Inv;
    AtEnd(w, s, pid);
  }

  lemma EmittedKeeps(w: World, s: State, pid: nat, q: Proc, l: LoopEvent, how: How, success: Proc)
    requires Inv(w, s) && pid in s.procs && Live(s.procs[pid].pc)
    requires var p := s.procs[pid]; q.request == p.request && q.run == p.run && q.emitted == p.emitted && !q.tripped && q.turn >= 0
    requires s.procs[pid].run.sequence == |s.log| ==>
      && Sayable(w, s.procs[pid], l, Read(s.log))
      && ProcOk(w, Grown(s, pid, s.log + [Seal(q.request, |s.log| + 1, LoopEntry(q.request, l))]), pid,
                Synced(success.(emitted := q.emitted + 1), |s.log| + 1, false))
    ensures Inv(w, Emitted(s, pid, q, l, how, success))
  {
    hide Inv, Wrote, ProcOk, LogOk, EffectsOk, Read, Admissible, Standing, LoopEntry, Sayable, Outstanding;
    var p := s.procs[pid];
    InvProc(w, s, pid);
    if p.run.sequence == |s.log| {
      LiveUnmuted(w, s, pid);
      SayableAdmissible(w, s, pid, l);
    }
    var fallback := Stopped(q).(emitted := q.emitted + 1, muted := true);
    MayStop(w, s, pid, p, fallback);
    assert !Outstanding(fallback.pc) by { NotOutstanding(fallback); }
    WroteKeeps(w, s, pid, q, LoopEntry(q.request, l), how, success.(emitted := q.emitted + 1), fallback);
  }

  lemma NotOutstanding(p: Proc)
    requires p.pc == Stopping || p.pc == Finishing
    ensures !Outstanding(p.pc)
  {
  }

  lemma LiveUnmuted(w: World, s: State, pid: nat)
    requires Inv(w, s) && pid in s.procs && Live(s.procs[pid].pc)
    ensures !s.procs[pid].muted
  {
    hide Read, Balanced, Positioned, Engaged, LogOk, EffectsOk;
    assert ProcOk(w, s, pid, s.procs[pid]);
  }

  /** After a loop event at the end of the stream, the open reservation and the totals are the same. */
  lemma SaidGrows(w: World, s: State, pid: nat, l: LoopEvent)
    requires Inv(w, s) && pid in s.procs
    requires var p := s.procs[pid];
      && (Live(p.pc) || p.pc.Stopping?) && !p.muted && p.run.sequence == |s.log| && Sayable(w, p, l, Read(s.log))
    ensures var e := Seal(s.procs[pid].request, |s.log| + 1, LoopEntry(s.procs[pid].request, l));
      var s' := Grown(s, pid, s.log + [e]);
      && Longer(s, s') && Read(s'.log) == Said(Read(s.log), l) && Noted(Read(s.log), |s.log|, e) == Said(Read(s.log), l)
      && s'.log[|s.log|] == e && Own(s', pid, |s.log|)
  {
    hide Read, Admissible, LogOk, EffectsOk, ProcOk, Sayable, LoopEntry;
    SayableAdmissible(w, s, pid, l);
    LogGrows(w, s, pid, Seal(s.procs[pid].request, |s.log| + 1, LoopEntry(s.procs[pid].request, l)));
  }

  // ---- Beginning a turn ------------------------------------------------------------------------

  lemma KeepsBeginTurn(w: World, s: State, pid: nat, how: How)
    requires Inv(w, s) && pid in s.procs
    ensures Inv(w, DoBeginTurn(s, pid, s.procs[pid], how))
  {
    hide Inv, ProcOk, LogOk, EffectsOk, Read, Wrote;
    var p := s.procs[pid];
    if p.pc.Boundary? {
      InvProc(w, s, pid);
      NotTripped(w, s, pid);
      NonNegativeCalls(w, s, pid);
      var q := p.(turn := p.result.modelCalls + 1);
      if p.result.modelCalls >= p.request.budget.maxModelCalls {
        var q' := Stopped(q).(result := p.result.(budgetExceeded := "model_calls"));
        MayStop(w, s, pid, p, q');
        MovesAlone(w, s, pid, q');
      } else if q.turn + p.run.extraCalls > p.request.budget.maxModelCalls {
        KeepsExhausted(w, s, pid, q, ModelCalls, how, Stopping);
      } else {
        Selects(w, s, pid, p, Selecting(false, None, None));
        MovesAlone(w, s, pid, q.(pc := Selecting(false, None, None)));
      }
    }
  }

  lemma NonNegativeCalls(w: World, s: State, pid: nat)
    requires Inv(w, s) && pid in s.procs && Live(s.procs[pid].pc)
    ensures s.procs[pid].result.modelCalls >= 0
  {
    hide Read, Positioned, Voiced, Engaged, LogOk, EffectsOk, Submittable, Sane;
    assert ProcOk(w, s, pid, s.procs[pid]);
  }

  /** From a boundary or within a selection, with the calls it may still make within the budget. */
  lemma Selects(w: World, s: State, pid: nat, p: Proc, pc: PC)
    requires ProcOk(w, s, pid, p) && (p.pc.Boundary? || p.pc.Selecting?)
    requires pc.Selecting? && pc.replacement.None? && pc.routed.None?
    requires p.result.modelCalls + p.run.extraCalls + Ahead(pc) <= p.request.budget.maxModelCalls
    ensures ProcOk(w, s, pid, p.(turn := p.result.modelCalls + 1, pc := pc))
  {
    hide Read, Submittable, Sane, Carries, ValidMessage, ValidUsage;
  }

  lemma KeepsCompact(w: World, s: State, pid: nat, how: How)
    requires Inv(w, s) && pid in s.procs
    ensures Inv(w, DoCompact(s, pid, s.procs[pid], how))
  {
    hide Inv, ProcOk, LogOk, EffectsOk, Read, Wrote;
    var p := s.procs[pid];
    if p.pc.Selecting? && !p.pc.compacting && p.pc.replacement.None? && p.pc.routed.None? {
      InvProc(w, s, pid);
      NotTripped(w, s, pid);
      SelectingTurn(w, s, pid);
      if p.turn + p.run.extraCalls >= p.request.budget.maxModelCalls {
        KeepsExhausted(w, s, pid, p, ModelCalls, how, Stopping);
      } else {
        Selects(w, s, pid, p, Selecting(true, None, None));
        MovesAlone(w, s, pid, p.(pc := Selecting(true, None, None)));
      }
    }
  }

  lemma SelectingTurn(w: World, s: State, pid: nat)
    requires Inv(w, s) && pid in s.procs && Ahead(s.procs[pid].pc) > 0
    ensures s.procs[pid].turn == s.procs[pid].result.modelCalls + 1
  {
    hide Read, Positioned, Voiced, Engaged, LogOk, EffectsOk, Submittable, Sane;
    assert ProcOk(w, s, pid, s.procs[pid]);
  }

  // ---- Routing and reserving -------------------------------------------------------------------

  lemma RoutingAdmissible(w: World, s: State, p: Proc, rr: RoutingRecord)
    requires LogOk(w, s) && s.creator == Some(p.request) && Read(s.log).phase == Underway && p.turn >= 1 && Routable(p, rr)
    ensures var e := Seal(p.request, |s.log| + 1, RoutingEntry(p.request, p.turn, rr));
      Admissible(w, s, e) && Noted(Read(s.log), |s.log|, e) == Read(s.log).(routing := Some(Placement(p.turn, rr)))
  {
    hide Read, LoopOk, Sane, ValidDecision;
  }

  lemma KeepsRoute(w: World, s: State, pid: nat, rr: RoutingRecord, how: How)
    requires Inv(w, s) && pid in s.procs
    ensures Inv(w, DoRoute(s, pid, s.procs[pid], rr, how))
  {
    hide Inv, ProcOk, LogOk, EffectsOk, Read, Wrote, Admissible, Routable, Standing, Chosen;
    var p := s.procs[pid];
    if p.pc.Selecting? && p.pc.routed.None? && Routable(p, rr) {
      InvProc(w, s, pid);
      NotTripped(w, s, pid);
      HeldBasics(w, s, pid);
      MayStop(w, s, pid, p, Stopped(p));
      SelectingTurn(w, s, pid);
      NonNegativeCalls(w, s, pid);
      var next := if Chosen(rr).Some? then p.(pc := p.pc.(routed := Chosen(rr))) else Stopped(p);
      if p.run.sequence == |s.log| { RouteLands(w, s, pid, rr, next); }
      WroteKeeps(w, s, pid, p, RoutingEntry(p.request, p.turn, rr), how, next, Stopped(p));
    }
  }

  lemma RouteLands(w: World, s: State, pid: nat, rr: RoutingRecord, next: Proc)
    requires Inv(w, s) && pid in s.procs && s.procs[pid].pc.Selecting? && s.procs[pid].run.sequence == |s.log|
    requires s.procs[pid].turn >= 1 && Routable(s.procs[pid], rr)
    requires var p := s.procs[pid];
      next == if Chosen(rr).Some? then p.(pc := p.pc.(routed := Chosen(rr))) else Stopped(p)
    ensures var e := Seal(s.procs[pid].request, |s.log| + 1, RoutingEntry(s.procs[pid].request, s.procs[pid].turn, rr));
      Admissible(w, s, e) && ProcOk(w, Grown(s, pid, s.log + [e]), pid, Synced(next, |s.log| + 1, false))
  {
    hide Inv, ProcOk, LogOk, EffectsOk, Read, Standing, Chosen, RoutingEntry, Submittable, Engaged, Routable, Admissible;
    var p := s.procs[pid];
    InvProc(w, s, pid);
    AtEnd(w, s, pid);
    StandsUnderway(w, p, Read(s.log));
    RoutingAdmissible(w, s, p, rr);
    RoutedStanding(w, p, rr, Read(s.log));
    var e := Seal(p.request, |s.log| + 1, RoutingEntry(p.request, p.turn, rr));
    StandingSame(w, next, Synced(next, |s.log| + 1, false), Noted(Read(s.log), |s.log|, e));
    Lands(w, s, pid, Synced(next, |s.log| + 1, false), e);
  }

  lemma RoutedStanding(w: World, p: Proc, rr: RoutingRecord, l: Ledger)
    requires Standing(w, p, l) && p.pc.Selecting?
    ensures var l' := l.(routing := Some(Placement(p.turn, rr)));
      && Standing(w, Stopped(p), l')
      && (Chosen(rr).Some? ==> Standing(w, p.(pc := p.pc.(routed := Chosen(rr))), l'))
  {
    hide Submittable, Sane, AtMost, FitsWith, Covered, Plus, Carries, ValidMessage, ValidUsage;
    var m := Chosen(rr);
  }

  /** The ledger after a reservation at index i. */
  function Charged(l: Ledger, i: nat, bound: Spend): Ledger {
    l.(reserved := Plus(l.reserved, bound), checkpoint := None, reservations := l.reservations + 1, pendingAt := Some(i))
  }

  lemma ReservationAdmissible(w: World, s: State, turn: int, bound: Spend)
    requires LogOk(w, s) && s.creator.Some? && ValidSpend(bound) && turn >= 0 && Read(s.log).phase == Underway
    requires FitsWith(Read(s.log).reserved, bound, Limit(s.creator.value.budget))
    requires Read(s.log).reservations + 1 <= s.creator.value.budget.maxModelCalls
    ensures var e := Seal(s.creator.value, |s.log| + 1, BudgetEntry(s.creator.value, turn, BudgetRecord(bound, NoDimension)));
      Admissible(w, s, e) && Noted(Read(s.log), |s.log|, e) == Charged(Read(s.log), |s.log|, bound)
  {
    hide Read, LoopOk, Sane;
  }

  lemma ReservedStanding(w: World, p: Proc, l: Ledger, at: nat, bound: Spend)
    requires Standing(w, p, l) && p.pc.Selecting? && p.pc.routed.Some? && ValidSpend(bound)
    requires FitsWith(l.reserved, bound, Limit(p.request.budget))
    ensures Standing(w, Reserved(p, at, bound), Charged(l, at, bound))
    ensures l.reservations + 1 <= p.request.budget.maxModelCalls
  {
    hide Submittable, Sane, Carries, ValidMessage, ValidUsage;
  }

  lemma ReservedEngaged(w: World, s: State, pid: nat, p: Proc, bound: Spend)
    requires EffectsOk(w, s) && |s.authors| == |s.log| && s.creator == Some(p.request)
    requires p.pc.Selecting? && p.pc.routed.Some? && ValidSpend(bound)
    requires Read(Grown(s, pid, s.log + [Seal(p.request, |s.log| + 1, BudgetEntry(p.request, p.turn, BudgetRecord(bound, NoDimension)))]).log)
          == Charged(Read(s.log), |s.log|, bound)
    ensures var e := Seal(p.request, |s.log| + 1, BudgetEntry(p.request, p.turn, BudgetRecord(bound, NoDimension)));
      Engaged(w, Grown(s, pid, s.log + [e]), pid, Synced(Reserved(p, |s.log|, bound), |s.log| + 1, false))
  {
    hide Read, Opens, ToolRuns, Clash, Starts, Intends, Permits;
    forall i | 0 <= i < |s.effects| && !s.effects[i].ToolRan? ensures s.effects[i].at != |s.log| {
      assert Justified(w, s, s.effects[i]);
    }
  }

  lemma KeepsReserve(w: World, s: State, pid: nat, estimate: Option<Spend>, cap: int, how: How)
    requires Inv(w, s) && pid in s.procs
    ensures Inv(w, DoReserve(s, pid, s.procs[pid], estimate, cap, how))
  {
    hide Inv, ProcOk, LogOk, EffectsOk, Read, Wrote, Admissible, Standing, Engaged, BudgetEntry, Plus, AtMost, FitsWith, Covered, Limit,
         Exceeding;
    var p := s.procs[pid];
    if p.pc.Selecting? && p.pc.routed.Some? {
      InvProc(w, s, pid);
      NotTripped(w, s, pid);
      HeldBasics(w, s, pid);
      MayStop(w, s, pid, p, Stopped(p));
      MovesAlone(w, s, pid, Stopped(p));
      if estimate.Some? && ValidSpend(estimate.value) {
        var bound := estimate.value;
        var d := Exceeding(Limit(p.request.budget), p.run.reserved, bound);
        if d != NoDimension {
          KeepsExhausted(w, s, pid, p, d, how, Stopping);
        } else if cap <= bound.output {
          if p.run.sequence == |s.log| { ReserveLands(w, s, pid, bound); }
          WroteKeeps(w, s, pid, p, BudgetEntry(p.request, p.turn, BudgetRecord(bound, NoDimension)), how,
                     Reserved(p, |s.log|, bound), Stopped(p));
        }
      }
    }
  }

  lemma ReserveLands(w: World, s: State, pid: nat, bound: Spend)
    requires Inv(w, s) && pid in s.procs && s.procs[pid].pc.Selecting? && s.procs[pid].pc.routed.Some?
    requires s.procs[pid].run.sequence == |s.log| && ValidSpend(bound)
    requires FitsWith(s.procs[pid].run.reserved, bound, Limit(s.procs[pid].request.budget))
    ensures var p := s.procs[pid];
      var e := Seal(p.request, |s.log| + 1, BudgetEntry(p.request, p.turn, BudgetRecord(bound, NoDimension)));
      Admissible(w, s, e) && ProcOk(w, Grown(s, pid, s.log + [e]), pid, Synced(Reserved(p, |s.log|, bound), |s.log| + 1, false))
  {
    hide Inv, ProcOk, LogOk, EffectsOk, Read, Admissible, Engaged, BudgetEntry, Plus, AtMost, FitsWith, Covered, Limit, Sane, Positioned,
         Voiced, Submittable;
    var p := s.procs[pid];
    var e := Seal(p.request, |s.log| + 1, BudgetEntry(p.request, p.turn, BudgetRecord(bound, NoDimension)));
    InvProc(w, s, pid);
    AtEnd(w, s, pid);
    ReservedStanding(w, p, Read(s.log), |s.log|, bound);
    StandsUnderway(w, p, Read(s.log));
    NotTripped(w, s, pid);
    ReservationAdmissible(w, s, p.turn, bound);
    LogGrows(w, s, pid, e);
    ReservedEngaged(w, s, pid, p, bound);
    var q := Reserved(p, |s.log|, bound);
    StandingSame(w, q, Synced(q, |s.log| + 1, false), Charged(Read(s.log), |s.log|, bound));
    Lands(w, s, pid, Synced(q, |s.log| + 1, false), e);
  }
}
