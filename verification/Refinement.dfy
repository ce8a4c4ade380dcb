/**
 The steps of the protocol machine are what the program's methods do: reserve and restore of
 the runner object, and the placement of a turn.
 */
module Refinement {
  import opened Types
  import opened Policy
  import opened Routing
  import opened Projection
  import History
  import opened Engine
  import opened Ledger
  import opened Protocol
  import opened Invariant
  import opened Guarantees
  import opened Liveness
  import opened Placement
  import opened Secrets

  // ---- Reserving ------------------------------------------------------------------------------------

  /** The reservation step does to stream and runner exactly what reserve does, and moves on exactly when it returns a bound. */
  lemma ReserveStepIsReserve(s: State, pid: nat, p: Proc, estimate: Option<Spend>, cap: int, how: How)
    requires p.pc.Selecting? && p.pc.routed.Some?
    ensures var (log, run, bound) := Reserving(p.request, p.run, s.log, p.turn, estimate, cap, how);
      var s' := DoReserve(s, pid, p, estimate, cap, how);
      && s'.log == log && pid in s'.procs && s'.procs[pid].run == run
      && (bound.Some? <==> s'.procs[pid].pc.SummaryReserved? || s'.procs[pid].pc.TurnReserved?)
      && (bound.Some? ==> s'.procs[pid].pc.bound == bound.value && s'.procs[pid].pc.at == |s.log|)
  {
    hide BudgetEntry, Private, Steady, Exceeding, Limit, Appending, Plus;
    AppendOutcome(p.request, p.run, s.log, [BudgetEntry(p.request, p.turn, BudgetRecord(if estimate.Some? then estimate.value else NO_SPEND, NoDimension))], how);
    if estimate.Some? {
      var d := Exceeding(Limit(p.request.budget), p.run.reserved, estimate.value);
      DimensionImmaterial(p.request, p.run, d, s.log, [BudgetEntry(p.request, p.turn, BudgetRecord(NO_SPEND, d))], how);
    }
  }

  lemma DimensionImmaterial(r: Request, run: RunState, d: Dimension, log: seq<Event>, ps: seq<Payload>, how: How)
    ensures var (log', run', ok) := Appending(r, run, log, ps, how);
      Appending(r, run.(budgetDimension := d), log, ps, how) == (log', run'.(budgetDimension := d), ok) &&
      run' == run.(sequence := run'.sequence, storeErr := run'.storeErr)
  {
    hide Sealed;
  }

  // ---- Resuming --------------------------------------------------------------------------------------

  /** The claim step does to stream and runner exactly what the claim of restore does. */
  lemma ClaimStepIsRestore(w: World, s: State, pid: nat, p: Proc, how: How)
    requires p.pc.Loaded? && p.pc.restart.checkpoint.checkpoint.Some?
    ensures var (log, run, ok) := Appending(p.request, p.run, s.log, [ResumedEntry(p.request, w.digest(p.request))], how);
      var s' := DoClaim(w, s, pid, p, how);
      && s'.log == log && pid in s'.procs && s'.procs[pid].run == run && (ok <==> s'.procs[pid].pc.Boundary?)
  {
    hide ResumedEntry, Private, Steady, Sealed;
  }

  /** An accepted history's last checkpoint holds the loop's result. */
  lemma {:induction false} CheckpointsFull(env: Env, a: Aggregate, log: seq<Event>)
    requires Replay(env, Fresh(a), log).Some?
    ensures Read(log).checkpoint.Some? ==> Read(log).checkpoint.value.checkpoint.Some?
  {
    hide Applied;
    if log != [] {
      var init, e := log[..|log| - 1], log[|log| - 1];
      CheckpointsFull(env, a, init);
      if e.draft.payload.ExecutionRecorded? && IsCheckpoint(e.draft.payload.record) {
        CheckpointFull(env, Replay(env, Fresh(a), init).value, e);
      }
    }
  }

  lemma CheckpointFull(env: Env, p: View, e: Event)
    requires Applied(env, p, e).Some? && e.draft.payload.ExecutionRecorded? && IsCheckpoint(e.draft.payload.record)
    ensures e.draft.payload.record.loop.value.checkpoint.Some?
  {
    hide Open, PayloadCount, ValidEvent, Carries, ValidMessage, ValidModelEvent;
    History.PayloadTellsStage(env, p, e, e.draft.payload.record);
  }

  lemma ReadableFull(w: World, r: Request, log: seq<Event>)
    requires Readable(w, r, log).Some?
    ensures Readable(w, r, log).value.checkpoint.checkpoint.Some?
  {
    hide Replay, Read, Scan;
    ReadableIsRead(w, r, log);
    CheckpointsFull(w.env, AggregateOf(r), log);
  }

  /**
   Loading and claiming together do exactly what restore promises: a runner comes out at its boundary if and only if the
   history is readable and the claim succeeds, with the checkpoint's result and numbering, the claim on the stream and the
   restored totals; an unreadable history is left alone.
   */
  lemma ResumeStepsAreRestore(w: World, s: State, pid: nat, r: Request, how: How)
    requires pid !in s.procs && r.workload == s.workload && Submittable(w, r)
    ensures var s' := Next(w, Next(w, s, Action(pid, Load(r), how)), Action(pid, Claim, how));
      var restart := Readable(w, r, s.log);
      var resumed := pid in s'.procs && s'.procs[pid].pc == Boundary;
      && (resumed <==> restart.Some? && how.fault == Delivered)
      && (resumed ==>
            && s'.log == s.log + [Seal(r, |s.log| + 1, ResumedEntry(r, w.digest(r)))]
            && s'.procs[pid].request == r && s'.procs[pid].run == RestoredRun(restart.value, |s'.log|)
            && restart.value.checkpoint.checkpoint == Some(s'.procs[pid].result)
            && s'.procs[pid].emitted == restart.value.checkpoint.sequence)
      && (restart.None? ==> s' == s)
  {
    hide Readable, Submittable, Private, Steady, ResumedEntry;
    if Readable(w, r, s.log).Some? {
      ReadableFull(w, r, s.log);
      var rs := Readable(w, r, s.log).value;
      var p := NewProc(r, RestoredRun(rs, |s.log|), Loaded(rs));
      var s1 := Next(w, s, Action(pid, Load(r), how));
      assert s1 == Put(s, pid, p);
      var entry := ResumedEntry(r, w.digest(r));
      AppendOutcome(r, p.run, s.log, [entry], how);
      ClaimStepIsRestore(w, s1, pid, p, how);
      assert Sealed(r, |s.log|, [entry]) == [Seal(r, |s.log| + 1, entry)];
    }
  }

  // ---- Placing ----------------------------------------------------------------------------------------

  /** The steps of one runner, one after the other. */
  function Performed(w: World, s: State, steps: seq<Action>): State {
    if steps == [] then s else Next(w, Performed(w, s, steps[..|steps| - 1]), steps[|steps| - 1])
  }

  /** The step that writes a record of a placement. */
  function StepFor(pid: nat, c: ExecutionRecord): Action {
    Action(pid, if c.routing.Some? then Route(c.routing.value) else Note(c), SURE)
  }

  function Script(pid: nat, records: seq<ExecutionRecord>): seq<Action> {
    seq(|records|, i requires 0 <= i < |records| => StepFor(pid, records[i]))
  }

  function Payloads(records: seq<ExecutionRecord>): seq<Payload> {
    seq(|records|, i requires 0 <= i < |records| => ExecutionRecorded(records[i]))
  }

  /** The state after one runner has committed these records and moved to pc. */
  function Advanced(s: State, pid: nat, records: seq<ExecutionRecord>, pc: PC): State
    requires pid in s.procs
  {
    var p := s.procs[pid];
    var log := s.log + Sealed(p.request, |s.log|, Payloads(records));
    Put(Grown(s, pid, log), pid, p.(pc := pc, run := p.run.(sequence := |log|)))
  }

  lemma AdvancedTwice(s: State, pid: nat, a: seq<ExecutionRecord>, b: seq<ExecutionRecord>, pc: PC, pc': PC)
    requires pid in s.procs
    ensures Advanced(Advanced(s, pid, a, pc), pid, b, pc') == Advanced(s, pid, a + b, pc')
  {
    var r := s.procs[pid].request;
    var s1 := Advanced(s, pid, a, pc);
    var s2, s' := Advanced(s1, pid, b, pc'), Advanced(s, pid, a + b, pc');
    assert Payloads(a + b) == Payloads(a) + Payloads(b);
    assert s2.log == s'.log;
    assert s2.authors == s'.authors;
    assert s2.procs == s'.procs;
  }

  lemma NoteAdvances(w: World, s: State, pid: nat, c: ExecutionRecord)
    requires Ready(s, pid) && s.procs[pid].pc.Selecting? && Remark(s.procs[pid].request.step, c)
    ensures Next(w, s, StepFor(pid, c)) == Advanced(s, pid, [c], s.procs[pid].pc) && Ready(Advanced(s, pid, [c], s.procs[pid].pc), pid)
  {
    hide Private, Steady, Sealed;
    assert Payloads([c]) == [ExecutionRecorded(c)];
  }

  lemma RouteAdvances(w: World, s: State, pid: nat, c: ExecutionRecord)
    requires Ready(s, pid) && s.procs[pid].pc.Selecting? && s.procs[pid].pc.routed.None? && c.routing.Some?
    requires Routable(s.procs[pid], c.routing.value)
    requires ExecutionRecorded(c) == RoutingEntry(s.procs[pid].request, s.procs[pid].turn, c.routing.value)
    ensures var p := s.procs[pid];
      var chosen := Chosen(c.routing.value);
      var s' := Advanced(s, pid, [c], if chosen.Some? then p.pc.(routed := chosen) else Stopping);
      Next(w, s, StepFor(pid, c)) == s' && Ready(s', pid)
  {
    hide Private, Steady, Sealed, Routable, Chosen;
    assert Payloads([c]) == [ExecutionRecorded(c)];
  }

  lemma {:induction false} NotesAdvance(w: World, s: State, pid: nat, records: seq<ExecutionRecord>)
    requires Ready(s, pid) && s.procs[pid].pc.Selecting?
    requires forall i :: 0 <= i < |records| ==> Remark(s.procs[pid].request.step, records[i])
    ensures var s' := Advanced(s, pid, records, s.procs[pid].pc); Performed(w, s, Script(pid, records)) == s' && Ready(s', pid)
  {
    hide Next, Remark;
    var pc := s.procs[pid].pc;
    if records == [] {
      assert Advanced(s, pid, [], pc) == s by { AdvancedByNone(s, pid); }
    } else {
      var init, c := records[..|records| - 1], records[|records| - 1];
      assert Script(pid, records)[..|init|] == Script(pid, init);
      NotesAdvance(w, s, pid, init);
      var s1 := Advanced(s, pid, init, pc);
      NoteAdvances(w, s1, pid, c);
      AdvancedTwice(s, pid, init, [c], pc, pc);
      assert init + [c] == records;
    }
  }

  lemma AdvancedByNone(s: State, pid: nat)
    requires Ready(s, pid)
    ensures Advanced(s, pid, [], s.procs[pid].pc) == s
  {
    var s' := Advanced(s, pid, [], s.procs[pid].pc);
    assert s'.log == s.log && s'.authors == s.authors;
    assert s'.procs[pid] == s.procs[pid];
    assert s'.procs == s.procs;
  }

  lemma {:induction false} PerformedAppend(w: World, s: State, a: seq<Action>, b: seq<Action>)
    ensures Performed(w, s, a + b) == Performed(w, Performed(w, s, a), b)
  {
    hide Next;
    if b == [] {
      assert a + b == a;
    } else {
      var init := b[..|b| - 1];
      assert (a + b)[..|a| + |init|] == a + init;
      PerformedAppend(w, s, a, init);
    }
  }

  lemma ScriptAppend(pid: nat, a: seq<ExecutionRecord>, b: seq<ExecutionRecord>)
    ensures Script(pid, a + b) == Script(pid, a) + Script(pid, b)
  {
  }

  /** Notes, a routing, and notes again if something was chosen. */
  lemma RoutedNotesAdvance(w: World, s: State, pid: nat, a: seq<ExecutionRecord>, c: ExecutionRecord, b: seq<ExecutionRecord>)
    requires Ready(s, pid) && s.procs[pid].pc.Selecting? && s.procs[pid].pc.routed.None? && c.routing.Some?
    requires Routable(s.procs[pid], c.routing.value)
    requires ExecutionRecorded(c) == RoutingEntry(s.procs[pid].request, s.procs[pid].turn, c.routing.value)
    requires forall i :: 0 <= i < |a| ==> Remark(s.procs[pid].request.step, a[i])
    requires forall i :: 0 <= i < |b| ==> Remark(s.procs[pid].request.step, b[i])
    requires Chosen(c.routing.value).Some? || b == []
    ensures var p := s.procs[pid];
      var chosen := Chosen(c.routing.value);
      Performed(w, s, Script(pid, a + [c] + b)) == Advanced(s, pid, a + [c] + b, if chosen.Some? then p.pc.(routed := chosen) else Stopping)
  {
    hide Next, Remark, Routable, Chosen, RoutingEntry;
    var p, chosen := s.procs[pid], Chosen(c.routing.value);
    var pc := if chosen.Some? then p.pc.(routed := chosen) else Stopping;
    NotesAdvance(w, s, pid, a);
    var s1 := Advanced(s, pid, a, p.pc);
    assert Routable(s1.procs[pid], c.routing.value) by { RoutableSame(p, s1.procs[pid], c.routing.value); }
    RouteAdvances(w, s1, pid, c);
    AdvancedTwice(s, pid, a, [c], p.pc, pc);
    var s2 := Advanced(s, pid, a + [c], pc);
    ScriptAppend(pid, a, [c]);
    PerformedAppend(w, s, Script(pid, a), Script(pid, [c]));
    assert Script(pid, [c]) == [StepFor(pid, c)];
    PerformedOne(w, s1, StepFor(pid, c));
    ScriptAppend(pid, a + [c], b);
    PerformedAppend(w, s, Script(pid, a + [c]), Script(pid, b));
    if b == [] {
      assert a + [c] + b == a + [c];
    } else {
      NotesAdvance(w, s2, pid, b);
      AdvancedTwice(s, pid, a + [c], b, pc, pc);
    }
  }

  lemma PerformedOne(w: World, s: State, a: Action)
    ensures Performed(w, s, [a]) == Next(w, s, a)
  {
    hide Next;
    assert [a][..0] == [];
    assert Performed(w, s, [a][..0]) == s;
  }

  /** The model the machine takes from a decision is that of the candidate the search finds. */
  lemma {:induction false} ChosenIsFirst(rr: RoutingRecord, k: nat)
    requires k <= |rr.request.candidates| && rr.decision.selected != ZERO_ID
    ensures var c := First(rr.request.candidates[k..], rr.decision.selected);
      ChosenAmong(rr, rr.request.candidates, k) == if c.Some? then Some(c.value.model.ref) else None
    decreases |rr.request.candidates| - k
  {
    if k < |rr.request.candidates| {
      assert rr.request.candidates[k..][1..] == rr.request.candidates[k + 1..];
      ChosenIsFirst(rr, k + 1);
    }
  }

  /** A decision for the placement request of this turn is one the machine's routing step takes. */
  lemma PlacedRoutable(env: Env, p: Proc, j: Job, m: Manifest, cs: seq<Candidate>, decision: RoutingDecision)
    requires j == JobOf(p.request, j.observedAt, j.deadline, j.weights)
    requires ValidDecision(decision, RoutingOf(env, j, m, p.result.usage, cs))
    ensures Routable(p, RoutingRecord(RoutingOf(env, j, m, p.result.usage, cs), decision))
  {
    hide ValidDecision, Digest;
  }

  /**
   What a placement does to the stream and to its runner is what the machine's note and route steps do: the same records in
   the same order, whatever becomes of the placement, and on success the placed candidate's model is the one routed.
   */
  lemma PlacementIsSteps(w: World, s: State, pid: nat, env: Env, world: Collaborators, j: Job, d: Desk, m: Manifest, cs: seq<Candidate>)
    requires Ready(s, pid) && s.procs[pid].pc.Selecting? && s.procs[pid].pc.routed.None?
    requires j == JobOf(s.procs[pid].request, j.observedAt, j.deadline, j.weights)
    ensures var p := s.procs[pid];
      var (d', placed) := Placing(env, world, j, d, p.turn, m, p.result.usage, cs);
      && d.records <= d'.records
      && var records := d'.records[|d.records|..];
         var s' := Performed(w, s, Script(pid, records));
         && s'.log == s.log + Sealed(p.request, |s.log|, Payloads(records)) && s'.effects == s.effects
         && (placed.Some? ==> s' == Advanced(s, pid, records, p.pc.(routed := Some(placed.value.model.ref))) && Ready(s', pid))
  {
    hide Next, JudgingAll, Choosing, Judged, Remark, Routable, Chosen, ValidDecision, RoutingOf, RoutedAt, RoutingEntry;
    var p := s.procs[pid];
    var (d1, judged) := JudgingAll(env, world, j, d, p.turn, m, cs);
    JudgingAllJudges(env, world, j, d, p.turn, m, cs);
    var notes := d1.records[|d.records|..];
    NotesAdvance(w, s, pid, notes);
    if judged.Some? {
      var rq := RoutingOf(env, j, m, p.result.usage, judged.value);
      var (d', placed) := Choosing(world, j, d1, p.turn, m, rq);
      ChoosingRecords(world, j, d1, p.turn, m, rq);
      if d'.records != d1.records {
        var n := |d1.records|;
        var c, rest := d'.records[n], d'.records[n + 1..];
        var records := d'.records[|d.records|..];
        assert records == notes + [c] + rest;
        PlacedRoutable(env, p, j, m, judged.value, c.routing.value.decision);
        ChosenIsSelected(c.routing.value);
        EntryIsRecord(p.request, j, p.turn, c.routing.value);
        RoutedNotesAdvance(w, s, pid, notes, c, rest);
      }
    }
  }

  lemma EntryIsRecord(r: Request, j: Job, turn: int, rr: RoutingRecord)
    requires j == JobOf(r, j.observedAt, j.deadline, j.weights)
    ensures ExecutionRecorded(RoutingRecordOf(j, turn, rr.request, rr.decision)) == RoutingEntry(r, turn, rr)
  {
  }

  lemma ChosenIsSelected(rr: RoutingRecord)
    requires ValidDecision(rr.decision, rr.request)
    ensures rr.decision.selected == ZERO_ID ==> Chosen(rr).None?
    ensures rr.decision.selected != ZERO_ID ==>
      var c := First(rr.request.candidates, rr.decision.selected); c.Some? && Chosen(rr) == Some(c.value.model.ref)
  {
    hide ValidRequest, Assesses, Eligible, EchoesRequest, Authorized;
    if rr.decision.selected != ZERO_ID {
      var k := SelectedUnique(rr.decision, rr.request);
      assert rr.request.candidates[0..] == rr.request.candidates;
      ChosenIsFirst(rr, 0);
    }
  }

  // ---- Opening ----------------------------------------------------------------------------------------

  /** What follows a placement: the reservation, and then the summary's stream or the turn's. */
  function AfterPlacement(pid: nat, estimate: Spend, cap: int, compacting: bool): seq<Action> {
    [Action(pid, Reserve(Some(estimate), cap), SURE)] +
    if compacting then [Action(pid, OpenSummary, SURE)] else [Action(pid, StartTurn, SURE), Action(pid, OpenStream, SURE)]
  }

  lemma PlacedOpens(w: World, s: State, pid: nat, estimate: Spend, cap: int)
    requires Ready(s, pid) && s.procs[pid].pc.Selecting? && s.procs[pid].pc.routed.Some?
    requires Reservable(s.procs[pid].request.budget, s.procs[pid].run.reserved, estimate, cap)
    ensures var p := s.procs[pid];
      Performed(w, s, AfterPlacement(pid, estimate, cap, p.pc.compacting)).effects == s.effects +
        [if p.pc.compacting then SummaryOpened(pid, p.turn, |s.log|, estimate)
         else StreamOpened(pid, p.turn, |s.log|, estimate, |s.log| + 1)]
  {
    hide Next, Acts, Private, Steady, Limit, Plus, AtMost, FitsWith, DoReserve, DoOpenSummary, DoStartTurn, DoOpenStream, Committed;
    var p := s.procs[pid];
    var steps := AfterPlacement(pid, estimate, cap, p.pc.compacting);
    var entry := BudgetEntry(p.request, p.turn, BudgetRecord(estimate, NoDimension));
    BeginStepIs(w, s, pid, Reserve(Some(estimate), cap));
    ReserveCommits(s, pid, estimate, cap);
    CommittedShape(s, pid, entry, Reserved(p, |s.log|, estimate));
    var s1 := Next(w, s, steps[0]);
    PerformedOne(w, s, steps[0]);
    PerformedAppend(w, s, [steps[0]], steps[1..]);
    assert steps == [steps[0]] + steps[1..];
    if p.pc.compacting {
      PerformedOne(w, s1, steps[1]);
      assert steps[1..] == [steps[1]];
      StreamStepIs(w, s1, pid, OpenSummary);
      SummaryOpens(s1, pid);
    } else {
      assert steps[1..] == [steps[1]] + [steps[2]];
      PerformedAppend(w, s1, [steps[1]], [steps[2]]);
      PerformedOne(w, s1, steps[1]);
      PerformedOne(w, Next(w, s1, steps[1]), steps[2]);
      OpensStream(s1, pid);
      StreamStepIs(w, s1, pid, StartTurn);
      StreamStepIs(w, Next(w, s1, steps[1]), pid, OpenStream);
    }
  }

  lemma SummaryOpens(s: State, pid: nat)
    requires pid in s.procs && s.procs[pid].pc.SummaryReserved?
    ensures var p := s.procs[pid];
      DoOpenSummary(s, pid, p).effects == s.effects + [SummaryOpened(pid, p.turn, p.pc.at, p.pc.bound)]
  {
    hide Private, Steady;
  }

  /** The scene of a runner's own placement. */
  predicate Stages(x: Scene, p: Proc) {
    && x.job == JobOf(p.request, x.job.observedAt, x.job.deadline, x.job.weights) && x.turn == p.turn && x.usage == p.result.usage
    && x.reserved == p.run.reserved
  }

  /** Collaborators that let a stream open do so in the machine: note, route, reserve, and the provider is called. */
  lemma StreamOpensInMachine(w: World, s: State, pid: nat, x: Scene, world: Collaborators, estimate: Spend, conversation: seq<Message>)
    returns (steps: seq<Action>)
    requires Ready(s, pid) && s.procs[pid].pc.Selecting? && s.procs[pid].pc.routed.None? && Stages(x, s.procs[pid])
    requires StreamOpens(x, world, estimate, conversation)
    ensures var es := Performed(w, s, steps).effects;
      |es| == |s.effects| + 1 && s.effects <= es && es[|s.effects|].pid == pid && !es[|s.effects|].ToolRan? && es[|s.effects|].turn == x.turn
    ensures forall i :: 0 <= i < |steps| ==> steps[i].pid == pid
  {
    hide Next, Placing, ManifestOf, AllInline, Performed;
    var p := s.procs[pid];
    var m :| PlacedAs(x, world, conversation, m);
    var (d', placed) := Placing(x.env, world, x.job, x.desk, p.turn, m, p.result.usage, x.candidates);
    PlacementIsSteps(w, s, pid, x.env, world, x.job, x.desk, m, x.candidates);
    var records := d'.records[|x.desk.records|..];
    var s' := Performed(w, s, Script(pid, records));
    PlacedOpens(w, s', pid, estimate, x.cap);
    var opening := AfterPlacement(pid, estimate, x.cap, p.pc.compacting);
    steps := Script(pid, records) + opening;
    PerformedAppend(w, s, Script(pid, records), opening);
  }
}
