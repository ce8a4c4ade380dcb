/** The steps of one model call keep the invariant: a summary or a turn, from its reservation to its last event. */
module TurnSteps {
  import opened Types
  import opened Policy
  import opened Projection
  import opened Engine
  import opened StreamProtocol
  import opened Ledger
  import opened Protocol
  import opened Invariant
  import opened Writing
  import opened Steps

  // ---- Effects --------------------------------------------------------------------------------

  /** A justified effect that clashes with none before it. */
  lemma EffectAdded(w: World, s: State, e: Effect)
    requires EffectsOk(w, s) && Justified(w, s, e) && (e.SummaryOpened? || e.turn <= Read(s.log).lastTurn)
    requires forall i :: 0 <= i < |s.effects| ==> !Clash(s.effects[i], e)
    requires Opens(s.effects) + Bit(!e.ToolRan?) <= Read(s.log).reservations
    requires ToolRuns(s.effects) + Bit(e.ToolRan?) <= Read(s.log).intents
    ensures EffectsOk(w, s.(effects := s.effects + [e]))
    ensures Opens(s.effects + [e]) == Opens(s.effects) + Bit(!e.ToolRan?)
    ensures ToolRuns(s.effects + [e]) == ToolRuns(s.effects) + Bit(e.ToolRan?)
  {
    hide Read, Reserves, Starts, Intends, Permits, Clash, AtMost;
    var es := s.effects + [e];
    var s1 := s.(effects := es);
    assert es[..|s.effects|] == s.effects;
    forall i | 0 <= i < |es| ensures Justified(w, s1, es[i]) {
      StreamSame(w, s, s1, es[i]);
    }
  }

  lemma StreamSame(w: World, s: State, s': State, e: Effect)
    requires s'.log == s.log && s'.authors == s.authors && s'.creator == s.creator && Justified(w, s, e)
    ensures Justified(w, s', e)
  {
  }

  /** Accepting usage within what is left of the bound. */
  lemma SpendAdded(w: World, s: State, u: Spend)
    requires EffectsOk(w, s) && FitsWith(s.spent, u, Read(s.log).reserved)
    ensures EffectsOk(w, s.(spent := Plus(s.spent, u)))
  {
    hide Read, Reserves, Starts, Intends, Permits, Clash, Opens, ToolRuns;
    var s1 := s.(spent := Plus(s.spent, u));
    forall i | 0 <= i < |s.effects| ensures Justified(w, s1, s.effects[i]) {
      StreamSame(w, s, s1, s.effects[i]);
    }
  }

  // ---- Summaries ------------------------------------------------------------------------------

  lemma KeepsOpenSummary(w: World, s: State, pid: nat)
    requires Inv(w, s) && pid in s.procs
    ensures Inv(w, DoOpenSummary(s, pid, s.procs[pid]))
  {
    hide Inv, ProcOk, LogOk, EffectsOk, Read;
    var p := s.procs[pid];
    if p.pc.SummaryReserved? {
      InvProc(w, s, pid);
      OpensSummary(w, s, pid, p);
      var e := SummaryOpened(pid, p.turn, p.pc.at, p.pc.bound);
      EffectAdded(w, s, e);
      ActsOutside(w, s, pid, s.effects + [e], s.spent,
                  SummaryBegun(p));
    }
  }

  lemma OpensSummary(w: World, s: State, pid: nat, p: Proc)
    requires ProcOk(w, s, pid, p) && p.pc.SummaryReserved?
    ensures var e := SummaryOpened(pid, p.turn, p.pc.at, p.pc.bound);
      && Justified(w, s, e) && Opens(s.effects) + 1 <= Read(s.log).reservations && ToolRuns(s.effects) <= Read(s.log).intents
      && (forall i :: 0 <= i < |s.effects| ==> !Clash(s.effects[i], e))
      && (Opens(s.effects + [e]) == Opens(s.effects) + 1 && ToolRuns(s.effects + [e]) == ToolRuns(s.effects) ==>
            ProcOk(w, s.(effects := s.effects + [e]), pid,
                   SummaryBegun(p)))
  {
    hide Read, Submittable, Sane, Carries, ValidMessage, Reserves, Opens, ToolRuns;
  }

  lemma KeepsSummaryEvent(w: World, s: State, pid: nat, e: ModelEvent, how: How)
    requires Inv(w, s) && pid in s.procs
    ensures Inv(w, DoSummaryEvent(s, pid, s.procs[pid], e, how))
  {
    hide Inv, ProcOk, LogOk, EffectsOk, Read, Wrote, ValidUsage, Overrun;
    var p := s.procs[pid];
    if p.pc.Summarizing? && e.usage.Some? {
      var u := e.usage.value;
      InvProc(w, s, pid);
      NotTripped(w, s, pid);
      MayStop(w, s, pid, p, Stopped(p));
      MovesAlone(w, s, pid, Stopped(p));
      var d := Overrun(p.pc.bound, p.pc.used, u);
      if !ValidUsage(u) {
      } else if d != NoDimension {
        KeepsExhausted(w, s, pid, p, d, how, Stopping);
      } else {
        SummarySpends(w, s, pid, p, u);
        SpendAdded(w, s, SpendOf(u));
        ActsOutside(w, s, pid, s.effects, Plus(s.spent, SpendOf(u)), SummaryUsed(p, u));
      }
    }
  }

  lemma SummaryUsedStanding(w: World, p: Proc, l: Ledger, u: Usage)
    requires Standing(w, p, l) && p.pc.Summarizing? && ValidUsage(u) && FitsWith(p.pc.used, SpendOf(u), p.pc.bound)
    ensures Standing(w, SummaryUsed(p, u), l)
  {
    hide Submittable, Sane, Carries, ValidMessage;
  }

  /** What is left of the bound shrinks by exactly what is spent. */
  lemma SpendsEngaged(w: World, s: State, pid: nat, p: Proc, q: Proc, u: Spend)
    requires Outstanding(p.pc) && Engaged(w, s, pid, p) && q.turn == p.turn && ValidSpend(Left(q.pc)) && Left(p.pc) == Plus(Left(q.pc), u)
    requires (p.pc.Summarizing? && q.pc.Summarizing?) || (p.pc.Streaming? && q.pc.Streaming?)
    requires q.pc.at == p.pc.at
    ensures FitsWith(s.spent, u, Read(s.log).reserved) && Engaged(w, s.(spent := Plus(s.spent, u)), pid, q)
  {
    hide Read, Opens, ToolRuns, Unspent, Left, Reserves, Starts, Intends, StatusOk;
    var left, rest := Left(p.pc), Left(q.pc);
    assert Plus(Plus(s.spent, u), rest) == Plus(s.spent, left);
    SameCallUnspent(s.effects, pid, p, q);
  }

  lemma SameCallUnspent(es: seq<Effect>, pid: nat, p: Proc, q: Proc)
    requires Unspent(es, pid, p) && q.turn == p.turn && ((p.pc.Summarizing? && q.pc.Summarizing?) || (p.pc.Streaming? && q.pc.Streaming?))
    ensures Unspent(es, pid, q)
  {
  }

  lemma SummarySpends(w: World, s: State, pid: nat, p: Proc, u: Usage)
    requires ProcOk(w, s, pid, p) && p.pc.Summarizing? && ValidUsage(u) && FitsWith(p.pc.used, SpendOf(u), p.pc.bound)
    ensures FitsWith(s.spent, SpendOf(u), Read(s.log).reserved)
    ensures ProcOk(w, s.(spent := Plus(s.spent, SpendOf(u))), pid, SummaryUsed(p, u))
  {
    hide Read, Standing, Engaged;
    SummaryUsedStanding(w, p, Read(s.log[..p.run.sequence]), u);
    SpendsEngaged(w, s, pid, p, SummaryUsed(p, u), SpendOf(u));
  }

  /** The ledger after a compaction record. */
  function Folded(l: Ledger, u: Usage): Ledger {
    l.(extraCalls := l.extraCalls + 1, compactionUsage := PlusUsage(l.compactionUsage, u), checkpoint := None, pendingAt := None)
  }

  lemma CompactionAdmissible(w: World, s: State, turn: int, c: CompactionRecord)
    requires LogOk(w, s) && s.creator.Some? && Read(s.log).phase == Underway && turn >= 0
    ensures var e := Seal(s.creator.value, |s.log| + 1, CompactionEntry(s.creator.value, turn, c));
      Admissible(w, s, e) && Noted(Read(s.log), |s.log|, e) == Folded(Read(s.log), c.usage)
  {
    hide Read, LoopOk, Sane, Raised;
  }

  lemma SummarizedStanding(w: World, p: Proc, l: Ledger, text: string)
    requires Standing(w, p, l) && p.pc.Summarizing?
    requires Rank(Raised(p.request.level, p.request.outputLevel)) <= Rank(p.request.level)
    ensures Standing(w, Summarized(p, Summary(p.request, text)), Folded(l, p.pc.usage))
  {
    hide Sane, Carries;
    SummaryValid(w, p.request, text);
  }

  lemma SummaryValid(w: World, r: Request, text: string)
    requires Submittable(w, r)
    ensures ValidMessage(w.env, Summary(r, text))
  {
    hide Blank;
  }

  lemma KeepsEndSummary(w: World, s: State, pid: nat, text: string, draft: CompactionRecord, how: How)
    requires Inv(w, s) && pid in s.procs
    ensures Inv(w, DoEndSummary(s, pid, s.procs[pid], text, draft, how))
  {
    hide Inv, ProcOk, LogOk, EffectsOk, Read, Wrote, Admissible, Standing, Raised, CompactionEntry;
    var p := s.procs[pid];
    if p.pc.Summarizing? {
      InvProc(w, s, pid);
      NotTripped(w, s, pid);
      HeldBasics(w, s, pid);
      MayStop(w, s, pid, p, Stopped(p));
      MovesAlone(w, s, pid, Stopped(p));
      if text != "" && Rank(Raised(p.request.level, p.request.outputLevel)) <= Rank(p.request.level) {
        var c := draft.(summary := Summary(p.request, text), usage := p.pc.usage);
        var q := Summarized(p, c.summary);
        if p.run.sequence == |s.log| { SummaryLands(w, s, pid, text, c); }
        WroteKeeps(w, s, pid, p, CompactionEntry(p.request, p.turn, c), how, q, Stopped(p));
      }
    }
  }

  lemma SummaryLands(w: World, s: State, pid: nat, text: string, c: CompactionRecord)
    requires Inv(w, s) && pid in s.procs && s.procs[pid].pc.Summarizing? && s.procs[pid].run.sequence == |s.log|
    requires var p := s.procs[pid];
      && c.summary == Summary(p.request, text) && c.usage == p.pc.usage
      && Rank(Raised(p.request.level, p.request.outputLevel)) <= Rank(p.request.level)
    ensures var p := s.procs[pid];
      var e := Seal(p.request, |s.log| + 1, CompactionEntry(p.request, p.turn, c));
      Admissible(w, s, e) && ProcOk(w, Grown(s, pid, s.log + [e]), pid, Synced(Summarized(p, c.summary), |s.log| + 1, false))
  {
    hide Inv, ProcOk, LogOk, EffectsOk, Read, Admissible, Standing, Raised, CompactionEntry, Engaged, Submittable,
         Summary;
    var p := s.procs[pid];
    var q := Summarized(p, c.summary);
    InvProc(w, s, pid);
    AtEnd(w, s, pid);
    StandsUnderway(w, p, Read(s.log));
    NotTripped(w, s, pid);
    CompactionAdmissible(w, s, p.turn, c);
    SummarizedStanding(w, p, Read(s.log), text);
    StandingSame(w, q, Synced(q, |s.log| + 1, false), Folded(Read(s.log), c.usage));
    Lands(w, s, pid, Synced(q, |s.log| + 1, false), Seal(p.request, |s.log| + 1, CompactionEntry(p.request, p.turn, c)));
  }

  // ---- Starting the turn -------------------------------------------------------------------------

  lemma BegunStanding(w: World, p: Proc, l: Ledger, start: nat)
    requires Standing(w, p, l) && p.pc.TurnReserved?
    ensures Sayable(w, p, Utter(p, TurnStarted), l)
    ensures Standing(w, Begun(p, start).(emitted := p.emitted + 1), Said(l, Utter(p, TurnStarted)))
  {
    hide Submittable, Carries, ValidMessage, ValidUsage;
  }

  lemma KeepsStartTurn(w: World, s: State, pid: nat, how: How)
    requires Inv(w, s) && pid in s.procs
    ensures Inv(w, DoStartTurn(s, pid, s.procs[pid], how))
  {
    hide Inv, ProcOk, LogOk, EffectsOk, Read, Emitted, Standing, Sayable, LoopEntry, Engaged;
    var p := s.procs[pid];
    if p.pc.TurnReserved? {
      NotTripped(w, s, pid);
      var l := Utter(p, TurnStarted);
      var q := Begun(p, |s.log|);
      if p.run.sequence == |s.log| {
        AtEnd(w, s, pid);
        LiveUnmuted(w, s, pid);
        BegunStanding(w, p, Read(s.log), |s.log|);
        SaidGrows(w, s, pid, l);
        var e := Seal(p.request, |s.log| + 1, LoopEntry(p.request, l));
        var q' := Synced(q.(emitted := p.emitted + 1), |s.log| + 1, false);
        StandingSame(w, q.(emitted := p.emitted + 1), q', Said(Read(s.log), l));
        InvProc(w, s, pid);
        BegunEngaged(w, s, pid, p, q');
        Lands(w, s, pid, q', e);
      }
      EmittedKeeps(w, s, pid, Refreshed(p), l, how, q);
    }
  }

  lemma BegunEngaged(w: World, s: State, pid: nat, p: Proc, q: Proc)
    requires p.pc.TurnReserved? && Engaged(w, s, pid, p) && EffectsOk(w, s) && Standing(w, p, Read(s.log))
    requires q.pc == TurnBegun(p.pc.at, p.pc.bound, |s.log|) && q.turn == p.turn
    requires var l := Utter(p, TurnStarted);
      var e := Seal(p.request, |s.log| + 1, LoopEntry(p.request, l));
      var s' := Grown(s, pid, s.log + [e]);
      Longer(s, s') && Read(s'.log) == Said(Read(s.log), l) && Own(s', pid, |s.log|) && s'.log[|s.log|] == e
    ensures Engaged(w, Grown(s, pid, s.log + [Seal(p.request, |s.log| + 1, LoopEntry(p.request, Utter(p, TurnStarted)))]), pid, q)
  {
    hide Read, Opens, ToolRuns, Clash, Submittable, Sane, Carries, ValidMessage, Voiced, LoopLevel, Justified, AtMost, FitsWith, Covered, Plus;
  }

  lemma KeepsOpenStream(w: World, s: State, pid: nat)
    requires Inv(w, s) && pid in s.procs
    ensures Inv(w, DoOpenStream(s, pid, s.procs[pid]))
  {
    hide Inv, ProcOk, LogOk, EffectsOk, Read;
    var p := s.procs[pid];
    if p.pc.TurnBegun? {
      InvProc(w, s, pid);
      OpensStream(w, s, pid, p);
      var e := StreamOpened(pid, p.turn, p.pc.at, p.pc.bound, p.pc.start);
      TurnOnRecord(w, s, pid, e);
      EffectAdded(w, s, e);
      ActsOutside(w, s, pid, s.effects + [e], s.spent, p.(pc := Streaming(p.pc.at, p.pc.bound, NO_SPEND, NO_DATA)));
    }
  }

  lemma OpensStream(w: World, s: State, pid: nat, p: Proc)
    requires ProcOk(w, s, pid, p) && p.pc.TurnBegun?
    ensures var e := StreamOpened(pid, p.turn, p.pc.at, p.pc.bound, p.pc.start);
      && Justified(w, s, e) && Opens(s.effects) + 1 <= Read(s.log).reservations && ToolRuns(s.effects) <= Read(s.log).intents
      && (forall i :: 0 <= i < |s.effects| ==> !Clash(s.effects[i], e))
      && (Opens(s.effects + [e]) == Opens(s.effects) + 1 && ToolRuns(s.effects + [e]) == ToolRuns(s.effects) ==>
            ProcOk(w, s.(effects := s.effects + [e]), pid, p.(pc := Streaming(p.pc.at, p.pc.bound, NO_SPEND, NO_DATA))))
  {
    hide Read, Submittable, Sane, Carries, ValidMessage, Reserves, Starts, Opens, ToolRuns;
  }

  /** A turn with a loop event on record is at most the last turn started. */
  lemma TurnOnRecord(w: World, s: State, pid: nat, e: Effect)
    requires Inv(w, s) && pid in s.procs && InTurn(s.procs[pid].pc) && e.turn == s.procs[pid].turn
    ensures e.turn <= Read(s.log).lastTurn
  {
    hide Read, Voiced, Positioned, Engaged, EffectsOk, Submittable, Sane, EntryOk, LedgerOk;
    var p := s.procs[pid];
    assert ProcOk(w, s, pid, p);
    LastTurnGrows(w, s, p.run.sequence);
  }

  lemma {:induction false} LastTurnGrows(w: World, s: State, n: nat)
    requires LogOk(w, s) && n <= |s.log|
    ensures Read(s.log[..n]).lastTurn <= Read(s.log).lastTurn
    decreases |s.log| - n
  {
    hide LedgerOk, Submittable, EntryOk, Noted, Read, Sealed, Opening;
    if n < |s.log| {
      LastTurnGrows(w, s, n + 1);
      assert s.log[..n + 1] == s.log[..n] + [s.log[n]];
      ReadSnoc(s.log[..n], s.log[n]);
      EntryGrows(w, s.creator.value, Read(s.log[..n]), n, s.log[n]);
    } else {
      assert s.log[..n] == s.log;
    }
  }

  // ---- Receiving ----------------------------------------------------------------------------------

  lemma KeepsRecv(w: World, s: State, pid: nat, e: ModelEvent, how: How)
    requires Inv(w, s) && pid in s.procs
    ensures Inv(w, DoRecv(s, pid, s.procs[pid], e, how))
  {
    hide Inv, ProcOk, LogOk, EffectsOk, Read, Wrote, ValidUsage, Overrun;
    var p := s.procs[pid];
    if p.pc.Streaming? && p.pc.data.held.None? {
      InvProc(w, s, pid);
      NotTripped(w, s, pid);
      MayStop(w, s, pid, p, Stopped(p));
      MovesAlone(w, s, pid, Stopped(p));
      if e.usage.None? {
        HoldsFree(w, s, pid, p, e);
        MovesAlone(w, s, pid, Holding(p, e));
      } else if ValidUsage(e.usage.value) {
        var u := e.usage.value;
        var d := Overrun(p.pc.bound, p.pc.used, u);
        if d != NoDimension {
          KeepsExhausted(w, s, pid, p, d, how, Stopping);
        } else {
          StreamSpends(w, s, pid, p, e);
          SpendAdded(w, s, SpendOf(u));
          ActsOutside(w, s, pid, s.effects, Plus(s.spent, SpendOf(u)), Holding(p, e));
        }
      }
    }
  }

  lemma HoldsFree(w: World, s: State, pid: nat, p: Proc, e: ModelEvent)
    requires ProcOk(w, s, pid, p) && p.pc.Streaming? && p.pc.data.held.None? && e.usage.None?
    ensures ProcOk(w, s, pid, Holding(p, e))
  {
    hide Read, Submittable, Sane, Carries, ValidMessage, Opens, ToolRuns;
  }

  lemma HoldingStanding(w: World, p: Proc, l: Ledger, e: ModelEvent)
    requires Standing(w, p, l) && p.pc.Streaming? && p.pc.data.held.None? && e.usage.Some? && ValidUsage(e.usage.value)
    requires FitsWith(p.pc.used, SpendOf(e.usage.value), p.pc.bound)
    ensures Standing(w, Holding(p, e), l)
  {
    hide Submittable, Sane, Carries, ValidMessage;
  }

  lemma StreamSpends(w: World, s: State, pid: nat, p: Proc, e: ModelEvent)
    requires ProcOk(w, s, pid, p) && p.pc.Streaming? && p.pc.data.held.None? && e.usage.Some? && ValidUsage(e.usage.value)
    requires FitsWith(p.pc.used, SpendOf(e.usage.value), p.pc.bound)
    ensures var u := SpendOf(e.usage.value);
      FitsWith(s.spent, u, Read(s.log).reserved) && ProcOk(w, s.(spent := Plus(s.spent, u)), pid, Holding(p, e))
  {
    hide Read, Standing, Engaged;
    HoldingStanding(w, p, Read(s.log[..p.run.sequence]), e);
    SpendsEngaged(w, s, pid, p, Holding(p, e), SpendOf(e.usage.value));
  }

  /** A loop event that leaves the runner in the same call, or stops it. */
  lemma SaidLands(w: World, s: State, pid: nat, l: LoopEvent, q: Proc)
    requires Inv(w, s) && pid in s.procs && Live(s.procs[pid].pc) && s.procs[pid].run.sequence == |s.log|
    requires Sayable(w, s.procs[pid], l, Read(s.log)) && q.request == s.procs[pid].request && !q.pc.Loaded? && !q.pc.Gone?
    requires Standing(w, q, Said(Read(s.log), l))
    requires var e := Seal(q.request, |s.log| + 1, LoopEntry(q.request, l));
      Outstanding(q.pc) ==> Engaged(w, Grown(s, pid, s.log + [e]), pid, Synced(q, |s.log| + 1, false))
    ensures ProcOk(w, Grown(s, pid, s.log + [Seal(q.request, |s.log| + 1, LoopEntry(q.request, l))]), pid, Synced(q, |s.log| + 1, false))
  {
    hide Inv, ProcOk, Read, Standing, Sayable, LoopEntry, Engaged, Outstanding, LogOk, EffectsOk, Submittable;
    AtEnd(w, s, pid);
    LiveUnmuted(w, s, pid);
    SaidGrows(w, s, pid, l);
    StandingSame(w, q, Synced(q, |s.log| + 1, false), Said(Read(s.log), l));
    Lands(w, s, pid, Synced(q, |s.log| + 1, false), Seal(q.request, |s.log| + 1, LoopEntry(q.request, l)));
  }

  /** Within a call, a loop event keeps the open reservation; the new position adds no demand on the stream. */
  lemma StillEngaged(w: World, s: State, s': State, pid: nat, p: Proc, l: LoopEvent, q: Proc)
    requires Outstanding(p.pc) && Engaged(w, s, pid, p) && Longer(s, s') && Read(s'.log) == Said(Read(s.log), l)
    requires Outstanding(q.pc) && q.pc.at == p.pc.at && AtMost(Left(q.pc), Left(p.pc))
    requires Pledged(q.pc) <= Pledged(p.pc) + Bit(l.kind == ToolStarted)
    requires q.pc.Streaming? || q.pc.Reporting? || q.pc.Reported? || q.pc.Intending? || q.pc.Running?
    requires Witnessed(w, s', pid, q) && Unspent(s.effects, pid, q)
    ensures Engaged(w, s', pid, q)
  {
    hide Read, Witnessed, Unspent, Opens, ToolRuns, Unrun;
  }

  lemma KeepsRelay(w: World, s: State, pid: nat, how: How)
    requires Inv(w, s) && pid in s.procs
    ensures Inv(w, DoRelay(w, s, pid, s.procs[pid], how))
  {
    hide Inv, ProcOk, LogOk, EffectsOk, Read, Emitted, Standing, Sayable, Consumed, Accepted, Engaged, Submittable;
    var p := s.procs[pid];
    if p.pc.Streaming? && p.pc.data.held.Some? {
      InvProc(w, s, pid);
      NotTripped(w, s, pid);
      var e := p.pc.data.held.value;
      var (v, ok) := Accepted(w.env, p.pc.data.progress, e);
      if !ok {
        MayStop(w, s, pid, p, Stopped(p));
        MovesAlone(w, s, pid, Stopped(p));
      } else {
        var l := Utter(p, ModelOutput).(modelEvent := Some(e));
        if p.run.sequence == |s.log| {
          AtEnd(w, s, pid);
          RelayStanding(w, p, Read(s.log), e, v);
          var q := Consumed(p, e, v).(emitted := p.emitted + 1);
          if Outstanding(q.pc) { RelayEngaged(w, s, pid, l, q, v); }
          SaidLands(w, s, pid, l, q);
        }
        EmittedKeeps(w, s, pid, p, l, how, Consumed(p, e, v));
      }
    }
  }

  lemma RelaySayable(w: World, p: Proc, l: Ledger, e: ModelEvent, v: Progress)
    requires Standing(w, p, l) && p.pc.Streaming? && p.pc.data.held == Some(e) && (v, true) == Accepted(w.env, p.pc.data.progress, e)
    ensures Sayable(w, p, Utter(p, ModelOutput).(modelEvent := Some(e)), l)
  {
    hide Balanced, Voiced, Carries, ValidMessage, ValidModelEvent;
  }

  /** An event leaves the hold without touching the totals. */
  lemma Released(w: World, p: Proc, l: Ledger, d: TurnData)
    requires Balanced(w, p, l) && p.pc.Streaming? && d.held.None?
    ensures Balanced(w, p.(pc := p.pc.(data := d)), l)
  {
    hide Submittable, Sane;
  }

  /** The event's usage moves from the hold into the totals, which stay within the budget. */
  lemma Banked(w: World, p: Proc, l: Ledger, d: TurnData, u: Usage)
    requires Balanced(w, p, l) && p.pc.Streaming? && p.pc.data.held.Some? && p.pc.data.held.value.usage == Some(u) && d.held.None?
    requires ValidUsage(AddUsage(p.result.usage, u))
    ensures var total := AddUsage(p.result.usage, u);
      !ExceedsUsage(total, p.request.budget) && Balanced(w, p.(pc := p.pc.(data := d), result := p.result.(usage := total)), l)
  {
    hide Submittable, ValidMessage, AddUsage;
    assert ValidUsage(u) && ValidUsage(p.run.compactionUsage);
  }

  lemma ConsumedBalanced(w: World, p: Proc, l: Ledger, e: ModelEvent, v: Progress)
    requires Balanced(w, p, l) && p.pc.Streaming? && p.pc.data.held == Some(e)
    ensures Consumed(p, e, v).pc.Streaming? ==> Balanced(w, Consumed(p, e, v), l)
    ensures !p.tripped ==> !Consumed(p, e, v).tripped
  {
    hide Balanced, AddUsage, ExceedsUsage, ValidUsage;
    var q := Consumed(p, e, v);
    if e.kind == UsageEvent {
      if e.usage.Some? && ValidUsage(AddUsage(p.result.usage, e.usage.value)) {
        Banked(w, p, l, p.pc.data.(held := None, progress := v), e.usage.value);
      }
    } else if q.pc.Streaming? {
      Released(w, p, l, q.pc.data);
    }
  }

  lemma RelayStanding(w: World, p: Proc, l: Ledger, e: ModelEvent, v: Progress)
    requires Standing(w, p, l) && p.pc.Streaming? && p.pc.data.held == Some(e) && (v, true) == Accepted(w.env, p.pc.data.progress, e)
    ensures var le := Utter(p, ModelOutput).(modelEvent := Some(e));
      && Sayable(w, p, le, l) && Standing(w, Consumed(p, e, v).(emitted := p.emitted + 1), Said(l, le))
      && Consumed(p, e, v).request == p.request && !Consumed(p, e, v).pc.Loaded? && !Consumed(p, e, v).pc.Gone?
  {
    hide Submittable, Sane, Carries, ValidMessage, ValidModelEvent, AddUsage, ExceedsUsage, Accepted, Sayable, AtMost, FitsWith, Covered,
         Plus;
    RelaySayable(w, p, l, e, v);
    ConsumedBalanced(w, p, l, e, v);
  }

  lemma RelayEngaged(w: World, s: State, pid: nat, l: LoopEvent, q: Proc, v: Progress)
    requires Inv(w, s) && pid in s.procs && s.procs[pid].pc.Streaming? && s.procs[pid].pc.data.held.Some?
    requires var p := s.procs[pid]; q == Consumed(p, p.pc.data.held.value, v).(emitted := p.emitted + 1)
    requires s.procs[pid].run.sequence == |s.log| && Sayable(w, s.procs[pid], l, Read(s.log)) && Outstanding(q.pc)
    ensures Engaged(w, Grown(s, pid, s.log + [Seal(q.request, |s.log| + 1, LoopEntry(q.request, l))]), pid, Synced(q, |s.log| + 1, false))
  {
    hide Inv, ProcOk, LogOk, EffectsOk, Read, Standing, Sayable, LoopEntry, AddUsage, Submittable, Longer;
    var p := s.procs[pid];
    AtEnd(w, s, pid);
    LiveUnmuted(w, s, pid);
    SaidGrows(w, s, pid, l);
    var s' := Grown(s, pid, s.log + [Seal(q.request, |s.log| + 1, LoopEntry(q.request, l))]);
    assert Unspent(s.effects, pid, Synced(q, |s.log| + 1, false));
    StillEngaged(w, s, s', pid, p, l, Synced(q, |s.log| + 1, false));
  }

  // ---- The end of the turn's stream ----------------------------------------------------------------

  lemma KeepsEndStream(w: World, s: State, pid: nat, how: How)
    requires Inv(w, s) && pid in s.procs
    ensures Inv(w, DoEndStream(w, s, pid, s.procs[pid], how))
  {
    hide Inv, ProcOk, LogOk, EffectsOk, Read, Emitted, Standing, Sayable, Engaged, AfterTurn, ValidMessage,
         AssistantMessage, FreshCalls, Submittable, Complete;
    var p := s.procs[pid];
    if p.pc.Streaming? && p.pc.data.held.None? {
      InvProc(w, s, pid);
      NotTripped(w, s, pid);
      MayStop(w, s, pid, p, Stopped(p));
      MovesAlone(w, s, pid, Stopped(p));
      var d := p.pc.data;
      var m := AssistantMessage(p.request.outputLevel, d.text, d.calls);
      if m.content == [] {
        EndsQuietly(w, s, pid, p, d);
        MovesAlone(w, s, pid, AfterTurn(p, p.pc.at, d));
      } else if ValidMessage(w.env, m) {
        var q := p.(result := p.result.(messages := p.result.messages + [m]));
        var l := Utter(p, MessageAppended).(message := Some(m));
        if p.run.sequence == |s.log| {
          AtEnd(w, s, pid);
          AnswerStanding(w, p, Read(s.log), m);
          var n := AfterTurn(q, p.pc.at, d).(emitted := p.emitted + 1);
          if Outstanding(n.pc) { AnswerEngaged(w, s, pid, l, q, n); }
          SaidLands(w, s, pid, l, n);
        }
        EmittedKeeps(w, s, pid, q, l, how, AfterTurn(q, p.pc.at, d));
      }
    }
  }

  lemma EndsQuietly(w: World, s: State, pid: nat, p: Proc, d: TurnData)
    requires ProcOk(w, s, pid, p) && p.pc.Streaming? && d == p.pc.data && d.held.None?
    requires AssistantMessage(p.request.outputLevel, d.text, d.calls).content == []
    ensures ProcOk(w, s, pid, AfterTurn(p, p.pc.at, d))
  {
    hide Read, Balanced, Carries, ValidMessage, Engaged;
    assert d.calls == [] by { assert |CallParts(p.request.outputLevel, d.calls)| == |d.calls|; }
  }

  lemma AnswerStanding(w: World, p: Proc, l: Ledger, m: Message)
    requires Standing(w, p, l) && p.pc.Streaming? && p.pc.data.held.None? && ValidMessage(w.env, m)
    ensures var le := Utter(p, MessageAppended).(message := Some(m));
      var q := p.(result := p.result.(messages := p.result.messages + [m]));
      var n := AfterTurn(q, p.pc.at, p.pc.data).(emitted := p.emitted + 1);
      && Sayable(w, p, le, l) && Standing(w, n, Said(l, le)) && n.request == p.request && !n.pc.Loaded? && !n.pc.Gone?
  {
    hide Submittable, Carries, ValidMessage, ValidModelEvent;
  }

  lemma AnswerEngaged(w: World, s: State, pid: nat, l: LoopEvent, q: Proc, n: Proc)
    requires Inv(w, s) && pid in s.procs && s.procs[pid].pc.Streaming? && q.pc == s.procs[pid].pc && q.turn == s.procs[pid].turn
    requires q.request == s.procs[pid].request && n == AfterTurn(q, q.pc.at, q.pc.data).(emitted := n.emitted) && Outstanding(n.pc)
    requires s.procs[pid].run.sequence == |s.log| && Sayable(w, s.procs[pid], l, Read(s.log))
    ensures Engaged(w, Grown(s, pid, s.log + [Seal(n.request, |s.log| + 1, LoopEntry(n.request, l))]), pid, Synced(n, |s.log| + 1, false))
  {
    hide Inv, ProcOk, LogOk, EffectsOk, Read, Sayable, LoopEntry, Submittable, Longer, Voiced, Positioned, Sane;
    var p := s.procs[pid];
    AtEnd(w, s, pid);
    LiveUnmuted(w, s, pid);
    SaidGrows(w, s, pid, l);
    var s' := Grown(s, pid, s.log + [Seal(n.request, |s.log| + 1, LoopEntry(n.request, l))]);
    assert Unspent(s.effects, pid, Synced(n, |s.log| + 1, false));
    StillEngaged(w, s, s', pid, p, l, Synced(n, |s.log| + 1, false));
  }
}
