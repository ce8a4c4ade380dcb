/** The steps of one tool batch keep the invariant: intents, verdicts, runs, reports and the checkpoint after them. */
module ToolSteps {
  import opened Types
  import opened Policy
  import opened Projection
  import opened Engine
  import opened Ledger
  import opened Protocol
  import opened Invariant
  import opened Writing
  import opened Steps
  import opened TurnSteps

  // ---- Intents ------------------------------------------------------------------------------------

  lemma KeepsIntend(w: World, s: State, pid: nat, how: How)
    requires Inv(w, s) && pid in s.procs
    ensures Inv(w, DoIntend(s, pid, s.procs[pid], how))
  {
    hide Inv, ProcOk, LogOk, EffectsOk, Read, Emitted, Standing, Sayable, Engaged, Submittable;
    var p := s.procs[pid];
    if p.pc.Intending? && |p.pc.starts| < |p.pc.calls| {
      NotTripped(w, s, pid);
      var l := Utter(p, ToolStarted).(toolCall := Some(p.pc.calls[|p.pc.starts|]));
      var n := Intended(p, |s.log|);
      if p.run.sequence == |s.log| {
        AtEnd(w, s, pid);
        IntendStanding(w, p, Read(s.log), |s.log|);
        IntendEngaged(w, s, pid, l);
        SaidLands(w, s, pid, l, n.(emitted := p.emitted + 1));
      }
      EmittedKeeps(w, s, pid, p, l, how, n);
    }
  }

  lemma IntendStanding(w: World, p: Proc, l: Ledger, i: nat)
    requires Standing(w, p, l) && p.pc.Intending? && |p.pc.starts| < |p.pc.calls|
    ensures var le := Utter(p, ToolStarted).(toolCall := Some(p.pc.calls[|p.pc.starts|]));
      Sayable(w, p, le, l) && Standing(w, Intended(p, i).(emitted := p.emitted + 1), Said(l, le))
  {
    hide Submittable, Carries, ValidMessage, ValidUsage, AtMost, FitsWith, Covered, Plus;
  }

  lemma IntendEngaged(w: World, s: State, pid: nat, l: LoopEvent)
    requires Inv(w, s) && pid in s.procs && s.procs[pid].pc.Intending?
    requires var p := s.procs[pid];
      && |p.pc.starts| < |p.pc.calls| && p.run.sequence == |s.log| && Sayable(w, p, l, Read(s.log))
      && l == Utter(p, ToolStarted).(toolCall := Some(p.pc.calls[|p.pc.starts|]))
    ensures var p := s.procs[pid];
      Engaged(w, Grown(s, pid, s.log + [Seal(p.request, |s.log| + 1, LoopEntry(p.request, l))]), pid,
              Synced(Intended(p, |s.log|).(emitted := p.emitted + 1), |s.log| + 1, false))
  {
    hide Inv, ProcOk, LogOk, EffectsOk, Read, Sayable, Submittable, Voiced, Positioned, Sane, LoopLevel;
    var p := s.procs[pid];
    AtEnd(w, s, pid);
    LiveUnmuted(w, s, pid);
    SaidGrows(w, s, pid, l);
    var e := Seal(p.request, |s.log| + 1, LoopEntry(p.request, l));
    var s', q := Grown(s, pid, s.log + [e]), Synced(Intended(p, |s.log|).(emitted := p.emitted + 1), |s.log| + 1, false);
    WitnessesLast(w, s, s');
    assert Intends(s', pid, |s.log|, p.turn, p.pc.calls[|p.pc.starts|]);
    assert Witnessed(w, s', pid, q);
    assert Unspent(s.effects, pid, q);
    if q.pc.Running? { AllUnrun(q.pc.status); }
    StillEngaged(w, s, s', pid, p, l, q);
  }

  lemma {:induction false} AllUnrun(status: seq<Status>)
    requires forall i :: 0 <= i < |status| ==> status[i] != Ran
    ensures Unrun(status) == |status|
  {
    if status != [] { AllUnrun(status[..|status| - 1]); }
  }

  /** Changing one status moves the count by that status alone. */
  lemma {:induction false} UnrunMarked(status: seq<Status>, k: nat, t: Status)
    requires k < |status|
    ensures Unrun(status[k := t]) + Bit(status[k] != Ran) == Unrun(status) + Bit(t != Ran)
  {
    var n := |status| - 1;
    if k == n {
      assert status[k := t][..n] == status[..n];
    } else {
      assert status[k := t][..n] == status[..n][k := t];
      UnrunMarked(status[..n], k, t);
    }
  }

  // ---- Verdicts -------------------------------------------------------------------------------------

  lemma MarkKeeps(w: World, s: State, pid: nat, p: Proc, k: nat, t: Status)
    requires ProcOk(w, s, pid, p) && p.pc.Running? && k < |p.pc.status| && p.pc.status[k] != Ran
    requires StatusOk(w, s, pid, p.request, p.turn, p.pc.calls[k], p.pc.starts[k], t)
    ensures ProcOk(w, s, pid, Marked(p, k, t))
  {
    hide Read, Submittable, Sane, Carries, AtMost, FitsWith, Covered, Plus, Opens, ToolRuns, Unrun, StatusOk, Intends;
    var q := Marked(p, k, t);
    var l := Read(s.log[..p.run.sequence]);
    assert Standing(w, q, l);
    assert Witnessed(w, s, pid, q);
    UnspentMarked(s.effects, pid, p, k, t);
    UnrunMarked(p.pc.status, k, t);
  }

  lemma UnspentMarked(es: seq<Effect>, pid: nat, p: Proc, k: nat, t: Status)
    requires p.pc.Running? && k < |p.pc.status| && p.pc.status[k] != Ran && Unspent(es, pid, p)
    ensures Unspent(es, pid, Marked(p, k, t))
  {
  }

  lemma RunningShape(w: World, s: State, pid: nat)
    requires Inv(w, s) && pid in s.procs && s.procs[pid].pc.Running?
    ensures var pc := s.procs[pid].pc; |pc.starts| == |pc.calls| && |pc.status| == |pc.calls|
    ensures var p := s.procs[pid];
      forall k :: 0 <= k < |p.pc.calls| ==> StatusOk(w, s, pid, p.request, p.turn, p.pc.calls[k], p.pc.starts[k], p.pc.status[k])
    ensures var p := s.procs[pid]; forall k :: 0 <= k < |p.pc.starts| ==> p.pc.starts[k] < |s.log|
  {
    hide LogOk, EffectsOk, Held, Read, Opens, ToolRuns, Unrun, AtMost, FitsWith, Covered, Plus, StatusOk, Unspent, IsLoop;
    assert ProcOk(w, s, pid, s.procs[pid]);
  }

  /** A quiet record about call k: the call gets its new status if the runner saw the commit, and is barred if not. */
  lemma MarkingKeeps(w: World, s: State, pid: nat, k: nat, payload: Payload, how: How, t: Status)
    requires Inv(w, s) && pid in s.procs && s.procs[pid].pc.Running?
    requires var p := s.procs[pid];
      && k < |p.pc.status| && k < |p.pc.calls| && k < |p.pc.starts| && p.pc.status[k] != Ran
      && payload.ExecutionRecorded? && Quiet(payload.record) && payload.record.step == p.request.step
      && Written(w, p.request, payload.record)
      && var e := Seal(p.request, |s.log| + 1, payload);
         Longer(s, Grown(s, pid, s.log + [e])) && p.run.sequence == |s.log| ==>
           StatusOk(w, Grown(s, pid, s.log + [e]), pid, p.request, p.turn, p.pc.calls[k], p.pc.starts[k], t)
    ensures var p := s.procs[pid]; Inv(w, Wrote(s, pid, p, [payload], how, Marked(p, k, t), Marked(p, k, Barred)))
  {
    hide Read, LedgerOk, EntryOk, Standing, Engaged, EffectsOk, Submittable, StatusOk, Quiet, Admissible, Written;
    var p := s.procs[pid];
    var e := Seal(p.request, |s.log| + 1, payload);
    assert ProcOk(w, s, pid, p);
    assert StatusOk(w, s, pid, p.request, p.turn, p.pc.calls[k], p.pc.starts[k], Barred) by { BarredOk(w, s, pid, p, k); }
    MarkKeeps(w, s, pid, p, k, Barred);
    if p.run.sequence == |s.log| {
      AtEnd(w, s, pid);
      StandsUnderway(w, p, Read(s.log));
      QuietAdmissible(w, s, payload);
      LogGrows(w, s, pid, e);
      var s' := Grown(s, pid, s.log + [e]);
      var q := Synced(p, |s.log| + 1, false);
      StandingSame(w, p, q, Read(s.log));
      EngagedKeeps(w, s, s', e, pid, p);
      EngagedSame(w, s', pid, p, q);
      Lands(w, s, pid, q, e);
      MarkKeeps(w, s', pid, q, k, t);
    }
    WroteKeeps(w, s, pid, p, payload, how, Marked(p, k, t), Marked(p, k, Barred));
  }

  lemma BarredOk(w: World, s: State, pid: nat, p: Proc, k: nat)
    requires p.pc.Running? && k < |p.pc.calls| && k < |p.pc.starts|
    ensures StatusOk(w, s, pid, p.request, p.turn, p.pc.calls[k], p.pc.starts[k], Barred)
  {
  }

  lemma KeepsJudge(w: World, s: State, pid: nat, k: nat, sandbox: Sandbox, answer: Answer, how: How)
    requires Inv(w, s) && pid in s.procs
    ensures Inv(w, DoJudge(w, s, pid, s.procs[pid], k, sandbox, answer, how))
  {
    hide Inv, ProcOk, LogOk, EffectsOk, Read, Wrote, StatusOk, ManifestClass, ValidManifest, EvaluateExecution;
    var p := s.procs[pid];
    if p.pc.Running? && k < |p.pc.status| && k < |p.pc.calls| && p.pc.status[k] == Waiting {
      InvProc(w, s, pid);
      RunningShape(w, s, pid);
      HeldBasics(w, s, pid);
      var question := ToolQuestion(w, p.request, p.pc.calls[k], p.request.zone, p.request.autonomous, sandbox);
      var v := EvaluateExecution(w.env, answer, question);
      if !ValidManifest(question.manifest) {
        BarredOk(w, s, pid, p, k);
        MarkKeeps(w, s, pid, p, k, Barred);
        MovesAlone(w, s, pid, Marked(p, k, Barred));
      } else {
        var t := if v.action == Allow then Allowed(|s.log|) else if v.action == RequireApproval then Asked(v) else Barred;
        var payload := VerdictEntry(p.request, p.turn, question.manifest, v);
        VerdictPermits(w, s, pid, k, v, payload, t);
        MarkingKeeps(w, s, pid, k, payload, how, t);
      }
    }
  }

  /** A verdict about this call, once recorded: an allow is a permit, a question is one about this call. */
  lemma VerdictPermits(w: World, s: State, pid: nat, k: nat, v: Verdict, payload: Payload, t: Status)
    requires pid in s.procs && s.procs[pid].pc.Running? && s.creator == Some(s.procs[pid].request)
    requires var p := s.procs[pid];
      && k < |p.pc.calls| && k < |p.pc.starts| && p.pc.starts[k] < |s.log| && About(w, p.request, p.pc.calls[k], v)
      && payload == VerdictEntry(p.request, p.turn, w.manifestOf(p.pc.calls[k]), v)
    requires t == Barred || t == Asked(v) || (t == Allowed(|s.log|) && v.action == Allow)
    ensures var p := s.procs[pid];
      var e := Seal(p.request, |s.log| + 1, payload);
      Longer(s, Grown(s, pid, s.log + [e])) && p.run.sequence == |s.log| ==>
        StatusOk(w, Grown(s, pid, s.log + [e]), pid, p.request, p.turn, p.pc.calls[k], p.pc.starts[k], t)
  {
    hide About, ManifestClass;
  }

  lemma KeepsDecide(w: World, s: State, pid: nat, k: nat, d: ApprovalDecision, how: How)
    requires Inv(w, s) && pid in s.procs
    ensures Inv(w, DoDecide(w, s, pid, s.procs[pid], k, d, how))
  {
    hide Inv, ProcOk, LogOk, EffectsOk, Read, Wrote, ManifestClass, ValidManifest, About, Blank;
    var p := s.procs[pid];
    if p.pc.Running? && k < |p.pc.status| && k < |p.pc.calls| && p.pc.status[k].Asked? && !Blank(d.actor) {
      InvProc(w, s, pid);
      RunningShape(w, s, pid);
      var m, v := w.manifestOf(p.pc.calls[k]), p.pc.status[k].verdict;
      assert StatusOk(w, s, pid, p.request, p.turn, p.pc.calls[k], p.pc.starts[k], p.pc.status[k]);
      if !ValidManifest(m) || ManifestClass(m.items) == Secret {
        MarkKeeps(w, s, pid, p, k, Barred);
        MovesAlone(w, s, pid, Marked(p, k, Barred));
      } else {
        MarkingKeeps(w, s, pid, k, ApprovalEntry(p.request, p.turn, m, v, d), how, if d.approved then Granted(v) else Barred);
      }
    }
  }

  lemma KeepsResolve(w: World, s: State, pid: nat, k: nat, how: How)
    requires Inv(w, s) && pid in s.procs
    ensures Inv(w, DoResolve(w, s, pid, s.procs[pid], k, how))
  {
    hide Inv, ProcOk, LogOk, EffectsOk, Read, Wrote, ManifestClass;
    var p := s.procs[pid];
    if p.pc.Running? && k < |p.pc.status| && k < |p.pc.calls| && p.pc.status[k].Granted? {
      RunningShape(w, s, pid);
      HeldBasics(w, s, pid);
      assert StatusOk(w, s, pid, p.request, p.turn, p.pc.calls[k], p.pc.starts[k], p.pc.status[k]);
      var m, v := w.manifestOf(p.pc.calls[k]), Approved(p.pc.status[k].verdict);
      VerdictPermits(w, s, pid, k, v, VerdictEntry(p.request, p.turn, m, v), Allowed(|s.log|));
      MarkingKeeps(w, s, pid, k, VerdictEntry(p.request, p.turn, m, v), how, Allowed(|s.log|));
    }
  }

  // ---- Running -----------------------------------------------------------------------------------------

  lemma KeepsRunTool(w: World, s: State, pid: nat, k: nat)
    requires Inv(w, s) && pid in s.procs
    ensures Inv(w, DoRunTool(s, pid, s.procs[pid], k))
  {
    hide Inv, ProcOk, LogOk, EffectsOk, Read, Opens, ToolRuns, Justified, Clash;
    var p := s.procs[pid];
    if p.pc.Running? && k < |p.pc.status| && k < |p.pc.calls| && k < |p.pc.starts| && p.pc.status[k].Allowed? {
      InvProc(w, s, pid);
      var e := ToolRan(pid, p.turn, k, p.pc.calls[k], p.pc.starts[k], p.pc.status[k].at);
      RunsTool(w, s, pid, p, k);
      TurnOnRecord(w, s, pid, e);
      EffectAdded(w, s, e);
      ActsOutside(w, s, pid, s.effects + [e], s.spent, Marked(p, k, Ran));
    }
  }

  lemma RunsTool(w: World, s: State, pid: nat, p: Proc, k: nat)
    requires ProcOk(w, s, pid, p) && p.pc.Running? && EffectsOk(w, s)
    requires k < |p.pc.status| && k < |p.pc.calls| && k < |p.pc.starts| && p.pc.status[k].Allowed?
    ensures var e := ToolRan(pid, p.turn, k, p.pc.calls[k], p.pc.starts[k], p.pc.status[k].at);
      && Justified(w, s, e) && (forall i :: 0 <= i < |s.effects| ==> !Clash(s.effects[i], e))
      && Opens(s.effects) <= Read(s.log).reservations && ToolRuns(s.effects) + 1 <= Read(s.log).intents
      && (Opens(s.effects + [e]) == Opens(s.effects) && ToolRuns(s.effects + [e]) == ToolRuns(s.effects) + 1 ==>
            ProcOk(w, s.(effects := s.effects + [e]), pid, Marked(p, k, Ran)))
  {
    hide Read, Submittable, Sane, Carries, AtMost, FitsWith, Covered, Plus, Opens, ToolRuns, Unrun, Intends, Permits, Balanced, Voiced;
    var e := ToolRan(pid, p.turn, k, p.pc.calls[k], p.pc.starts[k], p.pc.status[k].at);
    var s1, q := s.(effects := s.effects + [e]), Marked(p, k, Ran);
    assert StatusOk(w, s, pid, p.request, p.turn, p.pc.calls[k], p.pc.starts[k], p.pc.status[k]);
    UnrunMarked(p.pc.status, k, Ran);
    if Opens(s.effects + [e]) == Opens(s.effects) && ToolRuns(s.effects + [e]) == ToolRuns(s.effects) + 1 {
      UnspentRan(s.effects, pid, p, k, e);
      RanStanding(w, p, k, Read(s.log[..p.run.sequence]));
      RanWitnessed(w, s, s1, pid, p, k);
    }
  }

  lemma UnspentRan(es: seq<Effect>, pid: nat, p: Proc, k: nat, e: Effect)
    requires p.pc.Running? && k < |p.pc.status| && Unspent(es, pid, p) && e.ToolRan? && e.k == k && e.pid == pid
    ensures Unspent(es + [e], pid, Marked(p, k, Ran))
  {
    var es', q := es + [e], Marked(p, k, Ran);
    forall i | 0 <= i < |es'| && OfTurn(es'[i], q.turn)
      ensures es'[i].pid == pid && (es'[i].ToolRan? ==> es'[i].k < |q.pc.status| && q.pc.status[es'[i].k] == Ran)
    {
      if i < |es| { assert es'[i] == es[i]; }
    }
  }

  lemma RanStanding(w: World, p: Proc, k: nat, l: Ledger)
    requires p.pc.Running? && k < |p.pc.status| && Standing(w, p, l)
    ensures Standing(w, Marked(p, k, Ran), l)
  {
    hide Submittable, Sane, Carries, AtMost, FitsWith, Covered, Plus;
  }

  lemma RanWitnessed(w: World, s: State, s': State, pid: nat, p: Proc, k: nat)
    requires p.pc.Running? && k < |p.pc.status| && Witnessed(w, s, pid, p)
    requires s'.log == s.log && s'.authors == s.authors && s'.creator == s.creator
    ensures Witnessed(w, s', pid, Marked(p, k, Ran))
  {
    hide About, IsLoop;
    var q := Marked(p, k, Ran);
    forall i | 0 <= i < |q.pc.status| ensures StatusOk(w, s', pid, q.request, q.turn, q.pc.calls[i], q.pc.starts[i], q.pc.status[i]) {
      assert StatusOk(w, s, pid, p.request, p.turn, p.pc.calls[i], p.pc.starts[i], p.pc.status[i]);
    }
  }

  // ---- Reporting ----------------------------------------------------------------------------------------

  lemma KeepsEndBatch(w: World, s: State, pid: nat, finished: nat)
    requires Inv(w, s) && pid in s.procs
    ensures Inv(w, DoEndBatch(s, pid, s.procs[pid], finished))
  {
    hide Inv, ProcOk, LogOk, EffectsOk, Read;
    var p := s.procs[pid];
    if p.pc.Running? && finished <= |p.pc.calls| {
      InvProc(w, s, pid);
      BatchEnds(w, s, pid, p, finished);
      MovesAlone(w, s, pid, p.(pc := Reporting(p.pc.at, p.pc.calls, finished, 0, [])));
    }
  }

  lemma BatchEnds(w: World, s: State, pid: nat, p: Proc, finished: nat)
    requires ProcOk(w, s, pid, p) && p.pc.Running?
    ensures ProcOk(w, s, pid, p.(pc := Reporting(p.pc.at, p.pc.calls, finished, 0, [])))
  {
    hide Read, Submittable, Sane, Carries, Opens, ToolRuns, Unrun, StatusOk, Intends;
  }

  lemma KeepsReport(w: World, s: State, pid: nat, o: ToolOutput, failure: Option<ToolFailure>, how: How)
    requires Inv(w, s) && pid in s.procs
    ensures Inv(w, DoReport(s, pid, s.procs[pid], o, failure, how))
  {
    hide Inv, ProcOk, LogOk, EffectsOk, Read, Emitted, Standing, Sayable, Engaged, Submittable, ToolBatch.OutputParts;
    var p := s.procs[pid];
    if p.pc.Reporting? && p.pc.reported < p.pc.finished && p.pc.reported < |p.pc.calls| {
      NotTripped(w, s, pid);
      var call := p.pc.calls[p.pc.reported];
      var q := if failure.Some? then p.(result := p.result.(failures := p.result.failures + [failure.value])) else p;
      var l := Utter(p, ToolCompleted).(toolCall := Some(call), toolOutput := Some(o),
                                         failureCode := if failure.Some? then failure.value.code else "");
      var n := q.(pc := p.pc.(reported := p.pc.reported + 1, parts := p.pc.parts + ToolBatch.OutputParts(call, o)));
      if p.run.sequence == |s.log| {
        AtEnd(w, s, pid);
        ReportStanding(w, p, Read(s.log), l, n);
        StepEngaged(w, s, pid, l, n.(emitted := p.emitted + 1));
        SaidLands(w, s, pid, l, n.(emitted := p.emitted + 1));
      }
      EmittedKeeps(w, s, pid, q, l, how, n);
    }
  }

  lemma ReportStanding(w: World, p: Proc, l: Ledger, le: LoopEvent, n: Proc)
    requires Standing(w, p, l) && p.pc.Reporting? && n.pc.Reporting? && le.kind == ToolCompleted
    requires n == p.(pc := n.pc, result := p.result.(failures := n.result.failures))
    requires le == Utter(p, ToolCompleted).(toolCall := le.toolCall, toolOutput := le.toolOutput, failureCode := le.failureCode) && le.toolCall.Some?
    ensures Sayable(w, p, le, l) && Standing(w, n.(emitted := p.emitted + 1), Said(l, le))
  {
    hide Submittable, Carries, AtMost, FitsWith, Covered, Plus;
  }

  /** After a report or the tool message, the reservation is still the open one. */
  lemma StepEngaged(w: World, s: State, pid: nat, l: LoopEvent, n: Proc)
    requires Inv(w, s) && pid in s.procs && s.procs[pid].pc.Reporting? && s.procs[pid].run.sequence == |s.log|
    requires Sayable(w, s.procs[pid], l, Read(s.log)) && n.request == s.procs[pid].request
    requires (n.pc.Reporting? || n.pc.Reported?) && n.pc.at == s.procs[pid].pc.at
    ensures Engaged(w, Grown(s, pid, s.log + [Seal(n.request, |s.log| + 1, LoopEntry(n.request, l))]), pid, Synced(n, |s.log| + 1, false))
  {
    hide Inv, ProcOk, LogOk, EffectsOk, Read, Sayable, LoopEntry, Submittable, Longer, Standing;
    var p := s.procs[pid];
    AtEnd(w, s, pid);
    LiveUnmuted(w, s, pid);
    SaidGrows(w, s, pid, l);
    var s' := Grown(s, pid, s.log + [Seal(n.request, |s.log| + 1, LoopEntry(n.request, l))]);
    StillEngaged(w, s, s', pid, p, l, Synced(n, |s.log| + 1, false));
  }

  lemma KeepsAppendResults(w: World, s: State, pid: nat, how: How)
    requires Inv(w, s) && pid in s.procs
    ensures Inv(w, DoAppendResults(w, s, pid, s.procs[pid], how))
  {
    hide Inv, ProcOk, LogOk, EffectsOk, Read, Emitted, Standing, Sayable, Engaged, Submittable, ValidMessage;
    var p := s.procs[pid];
    if p.pc.Reporting? && p.pc.reported == p.pc.finished {
      InvProc(w, s, pid);
      NotTripped(w, s, pid);
      var m := Message(ToolRole, p.pc.parts);
      if p.pc.finished != |p.pc.calls| || !ValidMessage(w.env, m) {
        MayStop(w, s, pid, p, Stopped(p));
        MovesAlone(w, s, pid, Stopped(p));
      } else {
        var q := p.(result := p.result.(messages := p.result.messages + [m]));
        var l := Utter(p, MessageAppended).(message := Some(m));
        var n := q.(pc := Reported(p.pc.at));
        if p.run.sequence == |s.log| {
          AtEnd(w, s, pid);
          ResultsStanding(w, p, Read(s.log), m);
          StepEngaged(w, s, pid, l, n.(emitted := p.emitted + 1));
          SaidLands(w, s, pid, l, n.(emitted := p.emitted + 1));
        }
        EmittedKeeps(w, s, pid, q, l, how, n);
      }
    }
  }

  lemma ResultsStanding(w: World, p: Proc, l: Ledger, m: Message)
    requires Standing(w, p, l) && p.pc.Reporting? && m.role == ToolRole && ValidMessage(w.env, m)
    ensures var le := Utter(p, MessageAppended).(message := Some(m));
      var n := p.(result := p.result.(messages := p.result.messages + [m]), pc := Reported(p.pc.at), emitted := p.emitted + 1);
      Sayable(w, p, le, l) && Standing(w, n, Said(l, le))
  {
    hide Submittable, Carries, ValidMessage, AtMost, FitsWith, Covered, Plus;
  }

  // ---- The checkpoint -------------------------------------------------------------------------------------

  function SavedLedger(l: Ledger, le: LoopEvent): Ledger {
    l.(checkpoint := Some(le), lastLoop := Some(le), pendingAt := None)
  }

  /** The checkpoint passes the acceptor: right after the tool message, with as many calls as turns. */
  lemma SaveAccepted(w: World, p: Proc, l: Ledger)
    requires Standing(w, p, l) && p.pc.Reported?
    ensures LoopOk(w.env, l.lastLoop, RoutingFor(l, p.turn), LoopEntry(p.request, Saving(p)).record)
  {
    hide Submittable, Carries, ValidMessage, AtMost, FitsWith, Covered, Plus, LoopLevel;
  }

  /** A checkpoint leaves everything accounted for. */
  lemma SaveResumable(w: World, p: Proc, l: Ledger)
    requires Standing(w, p, l) && p.pc.Reported? && LedgerOk(w, p.request, l)
    ensures LedgerOk(w, p.request, SavedLedger(l, Saving(p))) && SavedLedger(l, Saving(p)).phase == l.phase == Underway
  {
    hide Submittable, Carries, ValidMessage;
  }

  lemma SaveEntered(r: Request, l: Ledger, i: nat, le: LoopEvent)
    requires le.kind == Checkpoint
    ensures Noted(l, i, Seal(r, i + 1, LoopEntry(r, le))) == SavedLedger(l, le)
  {
    hide LoopLevel;
  }

  lemma SaveAdmissible(w: World, s: State, pid: nat)
    requires Inv(w, s) && pid in s.procs && s.procs[pid].pc.Reported? && s.procs[pid].run.sequence == |s.log|
    ensures var p := s.procs[pid];
      var e := Seal(p.request, |s.log| + 1, LoopEntry(p.request, Saving(p)));
      Admissible(w, s, e) && Noted(Read(s.log), |s.log|, e) == SavedLedger(Read(s.log), Saving(p))
  {
    hide Read, LoopOk, LedgerOk, LoopLevel, Engaged, EffectsOk, Inv, ValidRequirements, Blank, Noted, Standing,
         SavedLedger, ValidMessage;
    var p := s.procs[pid];
    AtEnd(w, s, pid);
    SaveAccepted(w, p, Read(s.log));
    SaveResumable(w, p, Read(s.log));
    SaveEntered(p.request, Read(s.log), |s.log|, Saving(p));
    assert p.turn >= 0 by { NotTripped(w, s, pid); }
  }

  lemma SaveStanding(w: World, p: Proc, l: Ledger)
    requires Standing(w, p, l) && p.pc.Reported?
    ensures Standing(w, p.(pc := Boundary, emitted := p.emitted + 1), SavedLedger(l, Saving(p)))
  {
    hide Submittable, Carries, ValidMessage, AtMost, FitsWith, Covered, Plus, Sane;
  }

  lemma KeepsSave(w: World, s: State, pid: nat, how: How)
    requires Inv(w, s) && pid in s.procs
    ensures Inv(w, DoSave(s, pid, s.procs[pid], how))
  {
    hide Inv, ProcOk, LogOk, EffectsOk, Read, LoopEntry, Admissible, Wrote;
    var p := s.procs[pid];
    if p.pc.Reported? {
      InvProc(w, s, pid);
      NotTripped(w, s, pid);
      var le := Saving(p);
      var success := p.(pc := Boundary, emitted := p.emitted + 1);
      var fallback := Stopped(p).(emitted := p.emitted + 1, muted := true);
      if p.run.sequence == |s.log| { SaveLands(w, s, pid); }
      MayStop(w, s, pid, p, fallback);
      WroteKeeps(w, s, pid, p, LoopEntry(p.request, le), how, success, fallback);
    }
  }

  lemma SaveLands(w: World, s: State, pid: nat)
    requires Inv(w, s) && pid in s.procs && s.procs[pid].pc.Reported? && s.procs[pid].run.sequence == |s.log|
    ensures var p := s.procs[pid];
      var e := Seal(p.request, |s.log| + 1, LoopEntry(p.request, Saving(p)));
      && Admissible(w, s, e)
      && ProcOk(w, Grown(s, pid, s.log + [e]), pid, Synced(p.(pc := Boundary, emitted := p.emitted + 1), |s.log| + 1, false))
  {
    hide Inv, ProcOk, LogOk, EffectsOk, Read, Standing, LoopEntry, Engaged, Submittable, Admissible, Saving;
    var p := s.procs[pid];
    var q := p.(pc := Boundary, emitted := p.emitted + 1);
    AtEnd(w, s, pid);
    SaveAdmissible(w, s, pid);
    SaveStanding(w, p, Read(s.log));
    StandingSame(w, q, Synced(q, |s.log| + 1, false), SavedLedger(Read(s.log), Saving(p)));
    Lands(w, s, pid, Synced(q, |s.log| + 1, false), Seal(p.request, |s.log| + 1, LoopEntry(p.request, Saving(p))));
  }
}
