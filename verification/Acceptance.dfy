/**
 The acceptor takes the whole stream of every run: the engine's own records pass its
 checks by themselves, and the records of collaborators when they pass the checks of
 their own stage.
 */
module Acceptance {
  import opened Types
  import opened Policy
  import opened Routing
  import opened Projection
  import opened Engine
  import opened Ledger
  import opened Protocol
  import opened Invariant
  import opened Safety
  import opened Guarantees
  import Stores

  /** A well-formed record of one payload. */
  predicate Proper(c: ExecutionRecord) {
    c.turn >= 0 && ValidClass(c.level) && PayloadCount(c) == 1 && (c.stage != PolicyStage ==> c.manifest.None?)
  }

  /**
   What collaborators answer for: that their verdicts, approvals, sandbox and cleanup records, summaries and the final
   usage total pass the checks of their stage. Nothing is asked of the other records.
   */
  predicate Vouched(w: World, r: Request, e: Event) {
    e.draft.payload.ExecutionRecorded? ==>
      var c := e.draft.payload.record;
      match c.stage
      case PolicyStage => Proper(c) && PolicyOk(w.env, r.workload, r.attempt, c)
      case ApprovalStage => Proper(c) && ApprovalOk(r.workload, c)
      case SandboxStage => Proper(c) && SandboxOk(c)
      case CleanupStage => Proper(c) && c.cleanup.Some? && c.cleanup.value.resource != ""
      case CompactionStage => CompactionOk(w.env, c, e.sequence)
      case FinishedStage => c.result.Some? && ValidUsage(c.result.value.usage)
      case _ => true
  }

  ghost predicate AllVouched(w: World, s: State) {
    s.creator.Some? ==> forall i :: 0 <= i < |s.log| ==> Vouched(w, s.creator.value, s.log[i])
  }

  // ---- The opening batch -------------------------------------------------------------------

  lemma CreationAccepted(w: World, r: Request)
    requires Submittable(w, r)
    ensures Applied(w.env, Fresh(AggregateOf(r)), Seal(r, 1, Opening(w, r)[0])).Some?
  {
    hide Blank, ValidRequirements, ValidMessage;
  }

  lemma MoveAccepted(w: World, r: Request, p: View, i: nat)
    requires Submittable(w, r) && p.aggregate == AggregateOf(r) && p.version == i && 1 <= i < 7 && ValidSHA(w.digest(r))
    requires Reached(p, r, if i == 1 then WCreated else WRunning,
                     if i < 3 then None else if i == 3 then Some(SPending) else if i == 4 then Some(SReady)
                     else if i == 5 then Some(SLeased) else Some(SRunning))
    requires i == 2 ==> p.steps == map[]
    ensures Applied(w.env, p, Seal(r, i + 1, Opening(w, r)[i])).Some?
  {
    hide Blank, ValidRequirements, ValidMessage, ValidSHA, ValidBudget;
    SHASome(w.digest(r));
    assert ValidBudget(r.budget) && ValidRequirements(r.requirements);
  }

  lemma StepsUntouched(env: Env, p: View, e: Event)
    requires Applied(env, p, e).Some? && (e.draft.payload.WorkloadCreated? || e.draft.payload.WorkloadTransitioned?)
    ensures Applied(env, p, e).value.steps == p.steps
  {
    hide Blank, ValidBudget, ValidEvent, CanTransitionWorkload;
  }

  lemma OpeningAccepted(w: World, r: Request)
    requires Submittable(w, r) && ValidSHA(w.digest(r))
    ensures Replay(w.env, Fresh(AggregateOf(r)), Sealed(r, 0, Opening(w, r))).Some?
  {
    hide Applied, Replay, Reached, Submittable, ValidSHA;
    var env, log, a := w.env, Sealed(r, 0, Opening(w, r)), Fresh(AggregateOf(r));
    assert log[..7] == log && log[..0] == [];
    EmptyReplay(env, a);
    CreationAccepted(w, r);
    ReplayStep(env, a, log, 0);
    OpeningStep(env, r, a, log[0], WUnknown, None);
    StepsUntouched(env, a, log[0]);
    var p1 := Replay(env, a, log[..1]).value;
    MoveAccepted(w, r, p1, 1);
    ReplayStep(env, a, log, 1);
    OpeningStep(env, r, p1, log[1], WCreated, None);
    StepsUntouched(env, p1, log[1]);
    var p2 := Replay(env, a, log[..2]).value;
    MoveAccepted(w, r, p2, 2);
    ReplayStep(env, a, log, 2);
    OpeningStep(env, r, p2, log[2], WRunning, None);
    var p3 := Replay(env, a, log[..3]).value;
    MoveAccepted(w, r, p3, 3);
    ReplayStep(env, a, log, 3);
    OpeningStep(env, r, p3, log[3], WRunning, Some(SPending));
    var p4 := Replay(env, a, log[..4]).value;
    MoveAccepted(w, r, p4, 4);
    ReplayStep(env, a, log, 4);
    OpeningStep(env, r, p4, log[4], WRunning, Some(SReady));
    var p5 := Replay(env, a, log[..5]).value;
    MoveAccepted(w, r, p5, 5);
    ReplayStep(env, a, log, 5);
    OpeningStep(env, r, p5, log[5], WRunning, Some(SLeased));
    var p6 := Replay(env, a, log[..6]).value;
    MoveAccepted(w, r, p6, 6);
    ReplayStep(env, a, log, 6);
  }

  // ---- One event after another ----------------------------------------------------------------

  /** Where the view is in each phase. */
  predicate Fits(p: View, r: Request, phase: Phase) {
    match phase
    case Underway => InProgress(p, r)
    case Concluding => p.workload.id != ZERO_ID && p.workload.state == WRunning && r.step in p.steps && p.steps[r.step].state == SRunning
    case Settled => p.workload.id != ZERO_ID && p.workload.state == WRunning
    case Concluded => true
  }

  /** A record of the engine or of a collaborator passes the checks of its stage. */
  lemma StagePasses(w: World, r: Request, p: View, e: Event, l: Ledger)
    requires Submittable(w, r) && ValidSHA(w.digest(r)) && e == Seal(r, e.sequence, e.draft.payload)
    requires e.draft.payload.ExecutionRecorded? && EntryOk(w, r, l, e) && Vouched(w, r, e) && p.workload.id == r.workload
    requires var c := e.draft.payload.record;
      && LastLoop(p.execution, r.step) == l.lastLoop
      && (RoutingFor(l, c.turn).Some? ==> LastRouting(p.execution, r.step, c.turn) == RoutingFor(l, c.turn))
    ensures var c := e.draft.payload.record; Proper(c) && StageOk(w.env, p, e, c)
  {
    hide PolicyOk, ApprovalOk, SandboxOk, CompactionOk, ValidSHA, ValidUsage, LoopOk, Submittable, RoutingOk, PayloadCount, ValidSpend,
         RequestEntry, ResumedEntry, BudgetEntry, RoutingEntry, CompactionEntry;
    var c := e.draft.payload.record;
    if c.stage == LoopStage { LoopOkForSearch(w.env, l, LastRouting(p.execution, r.step, c.turn), c); }
    WrittenProper(w, r, c);
  }

  /** The engine's own records are well formed. */
  lemma WrittenProper(w: World, r: Request, c: ExecutionRecord)
    requires Submittable(w, r) && ValidSHA(w.digest(r)) && Written(w, r, c)
    ensures c.stage == RequestStage || c.stage == ResumedStage ==> Proper(c) && ValidSHA(c.requestSHA)
    ensures c.stage == BudgetStage || c.stage == RoutingStage || c.stage == CompactionStage || c.stage == FinishedStage ==> Proper(c)
  {
    hide ValidSHA, Blank, ValidMessage, ValidRequirements, ValidDecision, Raised;
    SHASome(w.digest(r));
  }

  lemma SHASome(sha: string)
    requires ValidSHA(sha)
    ensures sha != ""
  {
  }

  lemma RecordAccepted(w: World, r: Request, p: View, e: Event)
    requires Submittable(w, r) && p.aggregate == AggregateOf(r) && e == Seal(r, p.version + 1, e.draft.payload)
    requires e.draft.payload.ExecutionRecorded? && e.draft.payload.record.step == r.step && InProgress(p, r)
    requires var c := e.draft.payload.record; Proper(c) && StageOk(w.env, p, e, c)
    ensures var q := Applied(w.env, p, e);
      q.Some? && q.value.workload == p.workload && q.value.steps == p.steps && q.value.execution == p.execution + [e.draft.payload.record]
  {
    hide StageOk, PayloadCount, Blank, ValidMessage, ValidRequirements, StepFinished;
  }

  lemma EndingAccepted(w: World, r: Request, p: View, e: Event, l: Ledger, i: nat)
    requires Submittable(w, r) && p.aggregate == AggregateOf(r) && e == Seal(r, p.version + 1, e.draft.payload)
    requires Ending(r, l, e.draft.payload) && Fits(p, r, l.phase)
    ensures var q := Applied(w.env, p, e); q.Some? && Fits(q.value, r, Noted(l, i, e).phase)
  {
    hide Blank, ValidMessage, ValidRequirements, StepFinished;
  }

  /** One more event of the stream. */
  lemma EntryAccepted(w: World, r: Request, p: View, e: Event, l: Ledger, i: nat)
    requires Submittable(w, r) && ValidSHA(w.digest(r)) && p.aggregate == AggregateOf(r) && e == Seal(r, p.version + 1, e.draft.payload)
    requires EntryOk(w, r, l, e) && Vouched(w, r, e) && Fits(p, r, l.phase) && l.request.Some?
    requires e.draft.payload.ExecutionRecorded? ==>
      var c := e.draft.payload.record;
      && LastLoop(p.execution, r.step) == l.lastLoop
      && (RoutingFor(l, c.turn).Some? ==> LastRouting(p.execution, r.step, c.turn) == RoutingFor(l, c.turn))
    ensures var q := Applied(w.env, p, e); q.Some? && Fits(q.value, r, Noted(l, i, e).phase)
  {
    hide Applied, Vouched, Submittable, ValidSHA, StageOk, Proper, Written, LoopOk, PayloadCount, Ending;
    if e.draft.payload.ExecutionRecorded? {
      StagePasses(w, r, p, e, l);
      RecordAccepted(w, r, p, e);
      var q := Applied(w.env, p, e).value;
      if Noted(l, i, e).phase == Underway { AppliedRuns(w.env, r, p, e, l, i); }
    } else {
      EndingAccepted(w, r, p, e, l, i);
    }
  }

  lemma {:induction false} RequestStays(log: seq<Event>, n: nat)
    requires n <= |log| && Read(log[..n]).request.Some?
    ensures Read(log).request.Some?
    decreases |log|
  {
    if n == |log| {
      assert log[..n] == log;
    } else {
      var init := log[..|log| - 1];
      assert init[..n] == log[..n];
      RequestStays(init, n);
    }
  }

  lemma {:induction false} PrefixAccepted(w: World, s: State, n: nat)
    requires Chronicled(w, s) && s.creator.Some? && AllVouched(w, s) && ValidSHA(w.digest(s.creator.value)) && 7 <= n <= |s.log|
    ensures var p := Replay(w.env, Fresh(AggregateOf(s.creator.value)), s.log[..n]);
      p.Some? && Fits(p.value, s.creator.value, Read(s.log[..n]).phase)
  {
    hide Read, LedgerOk, Replay, EntryOk, Submittable, Opening, ValidSHA, Vouched, Noted, InProgress;
    var r := s.creator.value;
    if n == 7 {
      OpeningAccepted(w, r);
      OpeningRead(w, r);
      UnderwayRuns(w, r, s.log[..7]);
    } else {
      var init, e := s.log[..n - 1], s.log[n - 1];
      PrefixAccepted(w, s, n - 1);
      var p, l := Replay(w.env, Fresh(AggregateOf(r)), init).value, Read(init);
      assert s.log[..n] == init + [e];
      ReplaySnoc(w.env, Fresh(AggregateOf(r)), init, e);
      ReadSnoc(init, e);
      assert init[..7] == s.log[..7];
      OpeningRead(w, r);
      RequestStays(init, 7);
      ReplayKeepsRecords(w.env, AggregateOf(r), init);
      EntriesOneStep(w, s, n - 1);
      if e.draft.payload.ExecutionRecorded? { SearchesAgree(init, r.step, e.draft.payload.record.turn); }
      EntryAccepted(w, r, p, e, l, n - 1);
    }
  }

  /** The acceptor replays the stream of every reachable state as long as collaborators answer for their own records. */
  lemma HistoryAccepted(w: World, workload: ID, states: seq<State>, run: seq<Action>, k: nat)
    requires Collisionless(w) && Behaviour(w, workload, states, run) && k < |states|
    requires forall r :: r in w.requests ==> ValidSHA(w.digest(r))
    requires AllVouched(w, states[k])
    ensures Replay(w.env, Fresh(Aggregate(WORKLOAD, workload)), states[k].log).Some?
  {
    hide EffectsOk, ProcOk, Collisionless, Read, LedgerOk, Replay, Behaviour, Opening, EntryOk, AllVouched, ValidSHA, Blank,
         ValidMessage, ValidRequirements;
    var s := states[k];
    Reachable(w, workload, states, run, k);
    SameWorkload(w, workload, states, run, k);
    if s.creator.None? {
      EmptyReplay(w.env, Fresh(Aggregate(WORKLOAD, workload)));
    } else {
      PrefixAccepted(w, s, |s.log|);
      assert s.log[..|s.log|] == s.log;
    }
  }

  // ---- The first batch in a store ---------------------------------------------------------------

  /** The first append of a run, with identifiers and times as the machine's events have them. */
  function FirstWrite(w: World, r: Request): Stores.Write {
    Stores.Write(AggregateOf(r), 0, seq(7, i requires 0 <= i < 7 => Sealed(r, 0, Opening(w, r))[i].draft),
                 seq(7, i requires 0 <= i < 7 => Stores.Stamp(i + 1, 1)), false)
  }

  /** An empty SQLite store takes the opening batch of every request that passes the engine's own checks. */
  lemma OpeningCommits(w: World, r: Request)
    requires Submittable(w, r) && ValidSHA(w.digest(r))
    ensures var (t, outcome) := Stores.Transaction(w.env, Stores.EMPTY, FirstWrite(w, r));
      outcome == Stores.Appended(Sealed(r, 0, Opening(w, r))) && Stores.RowsMatch(t) && Stores.TableStream(t, AggregateOf(r)) == Sealed(r, 0, Opening(w, r))
  {
    hide Replay, Stores.Transaction, Submittable;
    var write := FirstWrite(w, r);
    var es := Sealed(r, 0, Opening(w, r));
    assert Addressed(r) by { SubmittableAddressed(w, r); }
    assert Stores.Admissible(write) && Stores.Stamped(write);
    assert Stores.EventsOf(write) == es;
    Stores.CacheAlwaysReplay(w.env, []);
    OpeningAccepted(w, r);
    assert Stores.TableStream(Stores.EMPTY, AggregateOf(r)) + es == es;
    Stores.CommitsIff(w.env, Stores.EMPTY, write);
    Stores.CommitAdds(w.env, Stores.EMPTY, write);
    Stores.CommitShape(w.env, Stores.EMPTY, write);
  }

  predicate Addressed(r: Request) {
    ValidAggregate(AggregateOf(r))
  }

  lemma SubmittableAddressed(w: World, r: Request)
    requires Submittable(w, r)
    ensures Addressed(r)
  {
    hide Blank, ValidMessage, ValidRequirements;
  }
}
