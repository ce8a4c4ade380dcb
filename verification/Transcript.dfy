/**
 The conversation on record. Every message the loop appends is what the recorded model and
 tool events say, calls are announced and answered in order, and every checkpoint holds
 exactly the conversation recorded before it (loop/engine.go, engine.go).
 */
module Transcript {
  import opened Types
  import opened Policy
  import opened Projection
  import opened Engine
  import opened Ledger
  import opened Protocol
  import opened Invariant
  import opened Writing
  import opened Steps
  import opened TurnSteps
  import opened ToolSteps
  import opened Safety
  import Guarantees
  import SP = StreamProtocol

  /**
   What the records say so far: the summary the conversation starts from, the messages since, a summary still to be used,
   and of the turn under way the model's events, the calls announced, the results reported and their parts.
   */
  datatype Tally = Tally(
    base: Option<Message>, spoken: seq<Message>, pending: Option<Message>,
    heard: seq<ModelEvent>, begun: nat, done: nat, results: seq<ContentPart>)
  const SILENCE := Tally(None, [], None, [], 0, 0, [])

  function Counted(t: Tally, c: ExecutionRecord): Tally {
    if c.compaction.Some? then t.(pending := Some(c.compaction.value.summary))
    else if c.loop.None? then t
    else
      var l := c.loop.value;
      match l.kind
      case TurnStarted => if t.pending.Some? then SILENCE.(base := t.pending) else SILENCE.(base := t.base, spoken := t.spoken)
      case ModelOutput => if l.modelEvent.Some? then t.(heard := t.heard + [l.modelEvent.value]) else t
      case MessageAppended => if l.message.Some? then t.(spoken := t.spoken + [l.message.value]) else t
      case ToolStarted => t.(begun := t.begun + 1)
      case ToolCompleted =>
        if l.toolCall.Some? && l.toolOutput.Some? then
          t.(done := t.done + 1, results := t.results + ToolBatch.OutputParts(l.toolCall.value, l.toolOutput.value))
        else t
      case _ => t
  }

  function TallyOf(log: seq<Event>): Tally {
    if log == [] then SILENCE
    else
      var p := log[|log| - 1].draft.payload;
      if p.ExecutionRecorded? then Counted(TallyOf(log[..|log| - 1]), p.record) else TallyOf(log[..|log| - 1])
  }

  lemma TallySnoc(log: seq<Event>, e: Event)
    ensures TallyOf(log + [e]) ==
            if e.draft.payload.ExecutionRecorded? then Counted(TallyOf(log), e.draft.payload.record) else TallyOf(log)
  {
    assert (log + [e])[..|log|] == log;
  }

  /** The conversation of a request after records with this tally. */
  function Conversation(r: Request, t: Tally): seq<Message> {
    (if t.base.Some? then [t.base.value] else r.messages) + t.spoken
  }

  /** The calls the model has made in this turn. */
  function CallsHeard(t: Tally): seq<ToolCall> {
    SP.CallsOf(t.heard)
  }

  /** The turn's stream came through whole. */
  predicate HeardWhole(w: World, t: Tally) {
    SP.AcceptAll(w.env, t.heard).Some? && t.heard != [] && SP.IsTerminal(t.heard[|t.heard| - 1])
  }

  /** The stop reason the model gave as the last thing it said. */
  function StopHeard(t: Tally): StopReason {
    if t.heard != [] && t.heard[|t.heard| - 1].kind == StopEvent then t.heard[|t.heard| - 1].stop else NoStop
  }

  /** The model has said everything, and asked for tools. */
  predicate Asks(w: World, t: Tally) {
    HeardWhole(w, t) && StopHeard(t) == ToolUse
  }

  /** The assistant's message is the turn's text and then its calls, in the order they were heard. */
  predicate Speaks(r: Request, t: Tally, m: Message) {
    var head := if SP.TextOf(t.heard) == "" then [] else [ContentPart(TextContent, r.outputLevel, SP.TextOf(t.heard), ZERO_ID, "", "", "", false)];
    var calls := CallsHeard(t);
    && m.role == Assistant && |m.content| == |head| + |calls| && m.content[..|head|] == head
    && forall i :: 0 <= i < |calls| ==>
         m.content[|head| + i] == ContentPart(ToolCallContent, r.outputLevel, "", ZERO_ID, calls[i].id, calls[i].name, calls[i].input, false)
  }

  /** What a loop event on record has to do with the records before it. */
  predicate EventKept(w: World, r: Request, t: Tally, c: ExecutionRecord) {
    c.loop.Some? ==>
      var l := c.loop.value;
      && (l.kind == MessageAppended ==>
            && l.message.Some? && (l.message.value.role == Assistant || l.message.value.role == ToolRole)
            && (l.message.value.role == Assistant ==> HeardWhole(w, t) && Speaks(r, t, l.message.value))
            && (l.message.value.role == ToolRole ==> Asks(w, t) && t.done == |CallsHeard(t)| && l.message.value.content == t.results))
      && (l.kind == ToolStarted ==> Asks(w, t) && t.begun < |CallsHeard(t)| && l.toolCall == Some(CallsHeard(t)[t.begun]))
      && (l.kind == ToolCompleted ==> t.done < |CallsHeard(t)| && l.toolCall == Some(CallsHeard(t)[t.done]) && l.toolOutput.Some?)
      && (l.kind == LoopStopped ==> Reason(w, t, l.stop))
      && (l.kind == Checkpoint ==> l.checkpoint.Some? && l.checkpoint.value.messages == Conversation(r, t) && t.pending.None?)
  }

  /** A reason to stop that no model gave: nothing yet, the runner's own, or the tool use of an earlier turn. */
  predicate OwnReason(stop: StopReason) {
    stop == NoStop || stop == UnknownStop || stop == Cancelled || stop == ToolUse
  }

  /** Any other reason is the last word of the model in this turn. */
  predicate Reason(w: World, t: Tally, stop: StopReason) {
    OwnReason(stop) || (HeardWhole(w, t) && stop == StopHeard(t))
  }

  predicate LogKept(w: World, r: Request, log: seq<Event>) {
    forall i :: 0 <= i < |log| && log[i].draft.payload.ExecutionRecorded? ==> EventKept(w, r, TallyOf(log[..i]), log[i].draft.payload.record)
  }

  /** A runner's own conversation and turn are those on record. */
  predicate ProcKept(w: World, p: Proc, t: Tally) {
    p.result.messages == Conversation(p.request, t) &&
    match p.pc
    case Selecting(compacting, replacement, _) => replacement == t.pending && (compacting ==> t.pending.None?)
    case TurnReserved(_, _, replacement) => replacement == t.pending
    case TurnBegun(_, _, _) => t.pending.None? && t.heard == [] && t.begun == 0 && t.done == 0 && t.results == []
    case Streaming(_, _, _, d) =>
      && t.pending.None? && t.begun == 0 && t.done == 0 && t.results == []
      && d.text == SP.TextOf(t.heard) && d.calls == CallsHeard(t) && d.stop == StopHeard(t)
      && SP.AcceptAll(w.env, t.heard) == Some(d.progress)
    case Intending(_, calls, starts) =>
      && t.pending.None? && t.done == 0 && t.results == []
      && Asks(w, t) && calls == CallsHeard(t) && |starts| == t.begun
    case Running(_, calls, _, _) => t.pending.None? && Asks(w, t) && calls == CallsHeard(t) && t.done == 0 && t.results == []
    case Reporting(_, calls, _, reported, parts) =>
      t.pending.None? && Asks(w, t) && calls == CallsHeard(t) && reported == t.done && parts == t.results
    case _ => t.pending.None?
  }

  predicate Carried(w: World, p: Proc, log: seq<Event>) {
    Live(p.pc) || p.pc.Admitting? ==> p.run.sequence <= |log| && ProcKept(w, p, TallyOf(log[..p.run.sequence]))
  }

  /** The reason a runner would stop with. */
  predicate Reasoned(w: World, p: Proc, log: seq<Event>) {
    && (Live(p.pc) || p.pc.Admitting? ==> OwnReason(p.result.stop))
    && (p.pc.Stopping? && !p.muted ==>
          OwnReason(p.result.stop) || (p.run.sequence <= |log| && Reason(w, TallyOf(log[..p.run.sequence]), p.result.stop)))
  }

  ghost predicate Kept(w: World, s: State) {
    && (s.creator.Some? ==> LogKept(w, s.creator.value, s.log))
    && forall pid :: pid in s.procs ==> Carried(w, s.procs[pid], s.log)
  }

  ghost predicate AllReasoned(w: World, s: State) {
    forall pid :: pid in s.procs ==> Reasoned(w, s.procs[pid], s.log)
  }

  /** A runner that has committed writes for the request that opened the stream. */
  predicate Owned(s: State, pid: nat) {
    pid in s.procs && (s.procs[pid].pc.Gone? || s.procs[pid].pc.Loaded? || s.creator == Some(s.procs[pid].request))
  }

  // ---- One step, whichever it is ----------------------------------------------------------------

  /** A longer stream keeps what was carried. */
  lemma CarriedLasts(w: World, p: Proc, log: seq<Event>, log': seq<Event>)
    requires Carried(w, p, log) && log <= log'
    ensures Carried(w, p, log')
  {
    hide TallyOf, ProcKept;
    if Live(p.pc) || p.pc.Admitting? { assert log'[..p.run.sequence] == log[..p.run.sequence]; }
  }

  lemma LogKeptSnoc(w: World, r: Request, log: seq<Event>, e: Event)
    requires LogKept(w, r, log) && (e.draft.payload.ExecutionRecorded? ==> EventKept(w, r, TallyOf(log), e.draft.payload.record))
    ensures LogKept(w, r, log + [e])
  {
    hide TallyOf, EventKept;
    var g := log + [e];
    forall i | 0 <= i < |g| && g[i].draft.payload.ExecutionRecorded? ensures EventKept(w, r, TallyOf(g[..i]), g[i].draft.payload.record) {
      if i < |log| { assert g[..i] == log[..i] && g[i] == log[i]; } else { assert g[..i] == log; }
    }
  }

  lemma PutKept(w: World, s: State, pid: nat, q: Proc)
    requires Kept(w, s) && Carried(w, q, s.log)
    ensures Kept(w, Put(s, pid, q))
  {
    hide Carried, LogKept;
  }

  /** The stream and one runner may change together; the others keep what they carried. */
  lemma GrowsKept(w: World, s: State, s': State, pid: nat)
    requires Kept(w, s) && s.log <= s'.log && (s'.creator.Some? ==> LogKept(w, s'.creator.value, s'.log))
    requires pid in s'.procs && Carried(w, s'.procs[pid], s'.log) && s'.procs == s.procs[pid := s'.procs[pid]]
    ensures Kept(w, s')
  {
    hide Carried, LogKept;
    forall other | other in s'.procs ensures Carried(w, s'.procs[other], s'.log) {
      if other != pid { CarriedLasts(w, s.procs[other], s.log, s'.log); }
    }
  }

  /** A runner writes one record and moves on, or falls back. */
  lemma WroteKept(w: World, s: State, pid: nat, p: Proc, payload: Payload, how: How, success: Proc, fallback: Proc)
    requires Kept(w, s) && pid in s.procs && fallback.run.sequence == p.run.sequence && Carried(w, fallback, s.log)
    requires payload.ExecutionRecorded? && s.creator.Some?
    requires p.run.sequence == |s.log| ==>
      && EventKept(w, s.creator.value, TallyOf(s.log), payload.record)
      && (Live(success.pc) || success.pc.Admitting? ==> ProcKept(w, success, Counted(TallyOf(s.log), payload.record)))
    ensures Kept(w, Wrote(s, pid, p, [payload], how, success, fallback))
  {
    hide TallyOf, LogKept, EventKept, Counted, ProcKept, Carried, Kept;
    var e := Seal(p.request, |s.log| + 1, payload);
    assert Sealed(p.request, |s.log|, [payload]) == [e];
    var (log, run, ok) := Appending(p.request, p.run, s.log, [payload], how);
    AppendOutcome(p.request, p.run, s.log, [payload], how);
    var s' := Wrote(s, pid, p, [payload], how, success, fallback);
    var q := s'.procs[pid];
    assert LogKept(w, s.creator.value, s.log) by { KeptLog(w, s); }
    if log == s.log + [e] {
      LogKeptSnoc(w, s.creator.value, s.log, e);
      TallySnoc(s.log, e);
    }
    if ok {
      assert log[..|log|] == log;
      LandsKept(w, success, q, log, Counted(TallyOf(s.log), payload.record));
    } else {
      SameCarried(w, fallback, q, s.log);
      CarriedLasts(w, q, s.log, log);
    }
    GrowsKept(w, s, s', pid);
  }

  lemma KeptLog(w: World, s: State)
    requires Kept(w, s) && s.creator.Some?
    ensures LogKept(w, s.creator.value, s.log)
  {
  }

  lemma LandsKept(w: World, success: Proc, q: Proc, log: seq<Event>, t: Tally)
    requires q == success.(run := q.run) && q.run.sequence == |log| && t == TallyOf(log)
    requires Live(success.pc) || success.pc.Admitting? ==> ProcKept(w, success, t)
    ensures Carried(w, q, log)
  {
    hide TallyOf;
    assert log[..|log|] == log;
  }

  lemma SameCarried(w: World, p: Proc, q: Proc, log: seq<Event>)
    requires Carried(w, p, log) && q == p.(run := q.run) && q.run.sequence == p.run.sequence
    ensures Carried(w, q, log)
  {
    hide TallyOf;
  }

  /** What is known of a runner at the end of the stream. */
  lemma KeptAtEnd(w: World, s: State, pid: nat)
    requires Kept(w, s) && pid in s.procs && s.procs[pid].run.sequence == |s.log| && (Live(s.procs[pid].pc) || s.procs[pid].pc.Admitting?)
    ensures ProcKept(w, s.procs[pid], TallyOf(s.log))
  {
    hide TallyOf, ProcKept, LogKept;
    assert Carried(w, s.procs[pid], s.log);
    assert s.log[..|s.log|] == s.log;
  }

  lemma Stops(w: World, p: Proc, log: seq<Event>)
    requires !Live(p.pc) && !p.pc.Admitting?
    ensures Carried(w, p, log)
  {
  }

  /** A record without a loop event or a summary leaves the tally alone. */
  lemma PlainRecord(w: World, r: Request, t: Tally, c: ExecutionRecord)
    requires c.loop.None? && c.compaction.None?
    ensures EventKept(w, r, t, c) && Counted(t, c) == t
  {
  }

  /** A runner writes a record of that kind; it keeps its conversation or stops. */
  lemma PlainKept(w: World, s: State, pid: nat, p: Proc, payload: Payload, how: How, success: Proc, fallback: Proc)
    requires Kept(w, s) && pid in s.procs && s.creator.Some? && p.run.sequence == s.procs[pid].run.sequence
    requires Live(s.procs[pid].pc) || s.procs[pid].pc.Admitting? || (!Live(success.pc) && !success.pc.Admitting?)
    requires payload.ExecutionRecorded? && payload.record.loop.None? && payload.record.compaction.None?
    requires fallback.run.sequence == p.run.sequence && Carried(w, fallback, s.log)
    requires forall t :: ProcKept(w, s.procs[pid], t) ==> (Live(success.pc) || success.pc.Admitting? ==> ProcKept(w, success, t))
    ensures Kept(w, Wrote(s, pid, p, [payload], how, success, fallback))
  {
    hide TallyOf, ProcKept, Kept, Carried, EventKept, Counted;
    PlainRecord(w, s.creator.value, TallyOf(s.log), payload.record);
    if p.run.sequence == |s.log| && (Live(s.procs[pid].pc) || s.procs[pid].pc.Admitting?) { KeptAtEnd(w, s, pid); }
    WroteKept(w, s, pid, p, payload, how, success, fallback);
  }

  lemma ExhaustedKept(w: World, s: State, pid: nat, p: Proc, d: Dimension, how: How)
    requires Kept(w, s) && pid in s.procs && s.creator.Some? && p.run.sequence == s.procs[pid].run.sequence
    ensures Kept(w, Exhausted(s, pid, p, d, how))
  {
    hide Kept, Carried, ProcKept;
    var q := p.(pc := Stopping, run := p.run.(budgetDimension := d));
    Stops(w, q, s.log);
    PlainKept(w, s, pid, p, BudgetEntry(p.request, p.turn, BudgetRecord(NO_SPEND, d)), how, q, q);
  }

  /** A loop event: it fits the records before it, and the runner's turn moves with it; or the runner stops. */
  lemma EmittedKept(w: World, s: State, pid: nat, q: Proc, l: LoopEvent, how: How, success: Proc)
    requires Kept(w, s) && pid in s.procs && s.creator == Some(q.request) && q.run.sequence == s.procs[pid].run.sequence && Live(s.procs[pid].pc)
    requires forall t :: ProcKept(w, s.procs[pid], t) ==>
      var c := LoopEntry(q.request, l).record;
      EventKept(w, q.request, t, c) && (Live(success.pc) ==> ProcKept(w, success, Counted(t, c)))
    requires !success.pc.Admitting?
    ensures Kept(w, Emitted(s, pid, q, l, how, success))
  {
    hide TallyOf, ProcKept, Kept, Carried, EventKept, Counted, LoopEntry;
    var fallback := Stopped(q).(emitted := q.emitted + 1, muted := true);
    Stops(w, fallback, s.log);
    if q.run.sequence == |s.log| { KeptAtEnd(w, s, pid); }
    var next := success.(emitted := q.emitted + 1);
    forall t | ProcKept(w, success, t) ensures ProcKept(w, next, t) { EmittedSame(w, success, next, t); }
    assert LoopEntry(q.request, l).ExecutionRecorded? by { EntryIsRecord(q.request, l); }
    WroteKept(w, s, pid, q, LoopEntry(q.request, l), how, next, fallback);
  }

  lemma EntryIsRecord(r: Request, l: LoopEvent)
    ensures LoopEntry(r, l).ExecutionRecorded? && LoopEntry(r, l).record.loop == Some(l) && LoopEntry(r, l).record.compaction.None?
  {
    hide LoopLevel;
  }

  lemma EmittedSame(w: World, p: Proc, q: Proc, t: Tally)
    requires ProcKept(w, p, t) && q == p.(emitted := q.emitted)
    ensures ProcKept(w, q, t)
  {
  }

  /** A runner that moves on without writing keeps its conversation, or stops. */
  lemma MovesKept(w: World, s: State, s': State, pid: nat)
    requires Kept(w, s) && pid in s.procs && s'.log == s.log && s'.creator == s.creator
    requires pid in s'.procs && s'.procs == s.procs[pid := s'.procs[pid]]
    requires var p, q := s.procs[pid], s'.procs[pid];
      Live(q.pc) || q.pc.Admitting? ==>
        && (Live(p.pc) || p.pc.Admitting?) && q.run.sequence == p.run.sequence && forall t :: ProcKept(w, p, t) ==> ProcKept(w, q, t)
    ensures Kept(w, s')
  {
    hide ProcKept, LogKept, TallyOf;
    assert Carried(w, s.procs[pid], s.log);
    GrowsKept(w, s, s', pid);
  }

  // ---- Beginning and ending --------------------------------------------------------------------

  /** Neither a loop event nor a summary. */
  predicate Plain(p: Payload) {
    p.ExecutionRecorded? ==> p.record.loop.None? && p.record.compaction.None?
  }

  lemma {:induction false} PlainBatch(w: World, r: Request, q: Request, log: seq<Event>, ps: seq<Payload>)
    requires LogKept(w, r, log) && forall i :: 0 <= i < |ps| ==> Plain(ps[i])
    ensures LogKept(w, r, log + Sealed(q, |log|, ps)) && TallyOf(log + Sealed(q, |log|, ps)) == TallyOf(log)
    decreases |ps|
  {
    hide TallyOf, LogKept, EventKept, Counted;
    var n := |ps|;
    if n == 0 {
      assert log + Sealed(q, |log|, ps) == log;
    } else {
      var before := log + Sealed(q, |log|, ps[..n - 1]);
      var e := Seal(q, |log| + n, ps[n - 1]);
      PlainBatch(w, r, q, log, ps[..n - 1]);
      assert log + Sealed(q, |log|, ps) == before + [e];
      if ps[n - 1].ExecutionRecorded? { PlainRecord(w, r, TallyOf(before), ps[n - 1].record); }
      LogKeptSnoc(w, r, before, e);
      TallySnoc(before, e);
    }
  }

  lemma SubmitKept(w: World, s: State, pid: nat, r: Request, how: How)
    requires Kept(w, s)
    ensures Kept(w, DoSubmit(w, s, pid, r, how))
  {
    hide Kept, Carried, LogKept, TallyOf, Submittable, EventKept;
    if pid !in s.procs && r.workload == s.workload && Submittable(w, r) {
      var (log, run, ok) := Appending(r, NEW_RUN, s.log, Opening(w, r), how);
      AppendOutcome(r, NEW_RUN, s.log, Opening(w, r), how);
      var s' := DoSubmit(w, s, pid, r, how);
      assert s'.log == log;
      if log != s.log {
        assert s.log == [] && log == [] + Sealed(r, 0, Opening(w, r));
        assert LogKept(w, r, []) by { NothingKept(w, r); }
        PlainBatch(w, r, r, [], Opening(w, r));
        assert TallyOf([]) == SILENCE by { NothingKept(w, r); }
      } else if s.creator.Some? {
        KeptLog(w, s);
      }
      FreshKept(w, s'.procs[pid], log);
      GrowsKept(w, s, s', pid);
    }
  }

  lemma NothingKept(w: World, r: Request)
    ensures LogKept(w, r, []) && TallyOf([]) == SILENCE
  {
  }

  lemma FreshKept(w: World, q: Proc, log: seq<Event>)
    requires q.pc.Gone? || (q.pc == Admitting && q.result == NewResult(q.request) && q.run.sequence == |log| && TallyOf(log) == SILENCE)
    ensures Carried(w, q, log)
  {
    hide TallyOf;
    assert log[..|log|] == log;
  }

  lemma AdmitKept(w: World, s: State, pid: nat, how: How)
    requires Owned(s, pid) && Kept(w, s)
    ensures Kept(w, DoAdmit(s, pid, s.procs[pid], how))
  {
    hide Kept, Exhausted;
    var p := s.procs[pid];
    if p.pc.Admitting? {
      var s' := DoAdmit(s, pid, p, how);
      if p.request.budget.maxSteps < 1 {
        ExhaustedKept(w, s, pid, p, Steps, how);
        ExhaustedStops(s, pid, p, Steps, how);
        MovesKept(w, Exhausted(s, pid, p, Steps, how), s', pid);
      } else {
        MovesKept(w, s, s', pid);
      }
    }
  }

  lemma ExhaustedStops(s: State, pid: nat, p: Proc, d: Dimension, how: How)
    ensures pid in Exhausted(s, pid, p, d, how).procs
  {
  }

  /** A usable checkpoint holds the conversation on record, and nothing has been said since. */
  lemma {:induction false} CheckpointKept(w: World, r: Request, log: seq<Event>)
    requires LogKept(w, r, log) && Read(log).checkpoint.Some?
    ensures TallyOf(log).pending.None?
    ensures Read(log).checkpoint.value.checkpoint.Some?
    ensures Read(log).checkpoint.value.checkpoint.value.messages == Conversation(r, TallyOf(log))
  {
    hide Speaks, Conversation, HeardWhole, Asks, CallsHeard;
    var n := |log| - 1;
    var e := log[n];
    assert log == log[..n] + [e];
    TallySnoc(log[..n], e);
    if !e.draft.payload.ExecutionRecorded? || !IsCheckpoint(e.draft.payload.record) {
      assert LogKept(w, r, log[..n]) by {
        assert forall i :: 0 <= i < n ==> log[..n][..i] == log[..i];
      }
      CheckpointKept(w, r, log[..n]);
    }
  }

  lemma ClaimKept(w: World, s: State, pid: nat, how: How)
    requires Collisionless(w) && Inv(w, s) && Kept(w, s) && pid in s.procs
    ensures Kept(w, DoClaim(w, s, pid, s.procs[pid], how))
  {
    hide Inv, Kept, Collisionless, TallyOf, EventKept, Counted, Carried, Read, Wrote, Conversation;
    var p := s.procs[pid];
    if p.pc.Loaded? && p.pc.restart.checkpoint.checkpoint.Some? {
      var payload := ResumedEntry(p.request, w.digest(p.request));
      ReaderBasics(w, s, pid);
      Stops(w, p.(pc := Gone), s.log);
      PlainRecord(w, s.creator.value, TallyOf(s.log), payload.record);
      if p.run.sequence == |s.log| {
        ClaimStanding(w, s, pid);
        KeptLog(w, s);
        CheckpointKept(w, s.creator.value, s.log);
      }
      WroteKept(w, s, pid, p, payload, how, Claimed(p), p.(pc := Gone));
    }
  }

  lemma ReaderBasics(w: World, s: State, pid: nat)
    requires Inv(w, s) && pid in s.procs && s.procs[pid].pc.Loaded?
    ensures s.creator.Some? && (s.procs[pid].run.sequence == |s.log| ==> Read(s.log).checkpoint == Some(s.procs[pid].pc.restart.checkpoint))
  {
    hide Read, EntryOk, LedgerOk, EffectsOk, Submittable;
    assert ProcOk(w, s, pid, s.procs[pid]);
    assert s.log[..|s.log|] == s.log;
  }

  lemma StopKept(w: World, s: State, pid: nat, failed: bool, cancelled: bool, code: string, how: How)
    requires Owned(s, pid) && Kept(w, s) && Reasoned(w, s.procs[pid], s.log)
    ensures Kept(w, DoStop(s, pid, s.procs[pid], failed, cancelled, code, how))
  {
    hide Kept, TallyOf, EventKept, Counted, Carried, LoopEntry, Wrote;
    var p := s.procs[pid];
    if p.pc.Stopping? {
      if p.muted {
        MovesKept(w, s, DoStop(s, pid, p, failed, cancelled, code, how), pid);
      } else {
        var stop := if cancelled then Cancelled else if failed || p.result.stop == NoStop then UnknownStop else p.result.stop;
        var l := Utter(p, LoopStopped).(stop := stop, failureCode := code);
        var q := p.(pc := Finishing, emitted := p.emitted + 1);
        EntryIsRecord(p.request, l);
        if p.run.sequence == |s.log| {
          assert s.log[..|s.log|] == s.log;
          StopRecord(w, p.request, TallyOf(s.log), LoopEntry(p.request, l).record);
        }
        Stops(w, q.(muted := true), s.log);
        WroteKept(w, s, pid, p, LoopEntry(p.request, l), how, q, q.(muted := true));
      }
    }
  }

  lemma StopRecord(w: World, r: Request, t: Tally, c: ExecutionRecord)
    requires c.loop.Some? && c.loop.value.kind == LoopStopped && Reason(w, t, c.loop.value.stop)
    ensures EventKept(w, r, t, c)
  {
  }

  lemma FinishKept(w: World, s: State, pid: nat, failure: string, state: WorkloadState, how: How)
    requires Owned(s, pid) && Kept(w, s)
    ensures Kept(w, DoFinish(s, pid, s.procs[pid], failure, state, how))
  {
    hide Kept, TallyOf, Carried, LogKept, RaisedByAll, FinalResult;
    var p := s.procs[pid];
    if p.pc.Finishing? && Terminal(state) {
      KeptLog(w, s);
      var ps := Closing(p, failure, state);
      AppendOutcome(p.request, p.run, s.log, ps, how);
      PlainBatch(w, p.request, p.request, s.log, ps);
      var s' := DoFinish(s, pid, p, failure, state, how);
      Stops(w, s'.procs[pid], s'.log);
      GrowsKept(w, s, s', pid);
    }
  }

  // ---- Selecting and summarizing -----------------------------------------------------------------

  lemma BeginTurnKept(w: World, s: State, pid: nat, how: How)
    requires Owned(s, pid) && Kept(w, s)
    ensures Kept(w, DoBeginTurn(s, pid, s.procs[pid], how))
  {
    hide Kept, Exhausted;
    var p := s.procs[pid];
    if p.pc.Boundary? {
      var q := p.(turn := p.result.modelCalls + 1);
      if p.result.modelCalls < p.request.budget.maxModelCalls && q.turn + p.run.extraCalls > p.request.budget.maxModelCalls {
        ExhaustedKept(w, s, pid, q, ModelCalls, how);
      } else {
        MovesKept(w, s, DoBeginTurn(s, pid, p, how), pid);
      }
    }
  }

  lemma NoteKept(w: World, s: State, pid: nat, record: ExecutionRecord, how: How)
    requires Owned(s, pid) && Kept(w, s)
    ensures Kept(w, DoNote(s, pid, s.procs[pid], record, how))
  {
    hide Kept, Carried, ProcKept, Wrote;
    var p := s.procs[pid];
    if Remark(p.request.step, record) && (Live(p.pc) || p.pc.Stopping? || p.pc.Finishing?) {
      Stops(w, Stopped(p), s.log);
      assert Carried(w, p, s.log) by { KeptCarried(w, s, pid); }
      if p.pc.Selecting? || p.pc.Summarizing? || p.pc.Streaming? {
        PlainKept(w, s, pid, p, ExecutionRecorded(record), how, p, Stopped(p));
      } else if p.pc.Running? || !Live(p.pc) {
        PlainKept(w, s, pid, p, ExecutionRecorded(record), how, p, p);
      }
    }
  }

  lemma KeptCarried(w: World, s: State, pid: nat)
    requires Kept(w, s) && pid in s.procs
    ensures Carried(w, s.procs[pid], s.log)
  {
  }

  lemma CompactKept(w: World, s: State, pid: nat, how: How)
    requires Owned(s, pid) && Kept(w, s)
    ensures Kept(w, DoCompact(s, pid, s.procs[pid], how))
  {
    hide Kept, Exhausted;
    var p := s.procs[pid];
    if p.pc.Selecting? && !p.pc.compacting && p.pc.replacement.None? && p.pc.routed.None? {
      if p.turn + p.run.extraCalls >= p.request.budget.maxModelCalls {
        ExhaustedKept(w, s, pid, p, ModelCalls, how);
      } else {
        MovesKept(w, s, DoCompact(s, pid, p, how), pid);
      }
    }
  }

  lemma RouteKept(w: World, s: State, pid: nat, rr: RoutingRecord, how: How)
    requires Owned(s, pid) && Kept(w, s)
    ensures Kept(w, DoRoute(s, pid, s.procs[pid], rr, how))
  {
    hide Kept, Carried, Wrote, Routable, Chosen;
    var p := s.procs[pid];
    if p.pc.Selecting? && p.pc.routed.None? && Routable(p, rr) {
      Stops(w, Stopped(p), s.log);
      var next := if Chosen(rr).Some? then p.(pc := p.pc.(routed := Chosen(rr))) else Stopped(p);
      PlainKept(w, s, pid, p, RoutingEntry(p.request, p.turn, rr), how, next, Stopped(p));
    }
  }

  lemma ReserveKept(w: World, s: State, pid: nat, estimate: Option<Spend>, cap: int, how: How)
    requires Owned(s, pid) && Kept(w, s)
    ensures Kept(w, DoReserve(s, pid, s.procs[pid], estimate, cap, how))
  {
    hide Kept, Carried, Wrote, Exhausted, Exceeding, Plus;
    var p := s.procs[pid];
    if p.pc.Selecting? && p.pc.routed.Some? {
      Stops(w, Stopped(p), s.log);
      if estimate.None? || !ValidSpend(estimate.value) {
        MovesKept(w, s, DoReserve(s, pid, p, estimate, cap, how), pid);
      } else {
        var bound := estimate.value;
        var d := Exceeding(Limit(p.request.budget), p.run.reserved, bound);
        if d != NoDimension {
          ExhaustedKept(w, s, pid, p, d, how);
        } else if cap > bound.output {
          MovesKept(w, s, DoReserve(s, pid, p, estimate, cap, how), pid);
        } else {
          PlainKept(w, s, pid, p, BudgetEntry(p.request, p.turn, BudgetRecord(bound, NoDimension)), how,
                    Reserved(p, |s.log|, bound), Stopped(p));
        }
      }
    }
  }

  lemma SummaryEventKept(w: World, s: State, pid: nat, e: ModelEvent, how: How)
    requires Owned(s, pid) && Kept(w, s)
    ensures Kept(w, DoSummaryEvent(s, pid, s.procs[pid], e, how))
  {
    hide Kept, Exhausted, Overrun, Plus, PlusUsage;
    var p := s.procs[pid];
    if p.pc.Summarizing? && e.usage.Some? {
      var d := Overrun(p.pc.bound, p.pc.used, e.usage.value);
      if ValidUsage(e.usage.value) && d != NoDimension {
        ExhaustedKept(w, s, pid, p, d, how);
      } else {
        MovesKept(w, s, DoSummaryEvent(s, pid, p, e, how), pid);
      }
    }
  }

  lemma EndSummaryKept(w: World, s: State, pid: nat, text: string, draft: CompactionRecord, how: How)
    requires Owned(s, pid) && Kept(w, s)
    ensures Kept(w, DoEndSummary(s, pid, s.procs[pid], text, draft, how))
  {
    hide Kept, Carried, Wrote, TallyOf, Summary, Raised, PlusUsage;
    var p := s.procs[pid];
    if p.pc.Summarizing? {
      Stops(w, Stopped(p), s.log);
      if text == "" || Rank(Raised(p.request.level, p.request.outputLevel)) > Rank(p.request.level) {
        MovesKept(w, s, DoEndSummary(s, pid, p, text, draft, how), pid);
      } else {
        var c := draft.(summary := Summary(p.request, text), usage := p.pc.usage);
        if p.run.sequence == |s.log| { KeptAtEnd(w, s, pid); }
        WroteKept(w, s, pid, p, CompactionEntry(p.request, p.turn, c), how, Summarized(p, c.summary), Stopped(p));
      }
    }
  }

  // ---- The turn ------------------------------------------------------------------------------------

  lemma StartTurnKept(w: World, s: State, pid: nat, how: How)
    requires Owned(s, pid) && Kept(w, s)
    ensures Kept(w, DoStartTurn(s, pid, s.procs[pid], how))
  {
    hide Kept, Emitted, LoopEntry, LoopLevel;
    var p := s.procs[pid];
    if p.pc.TurnReserved? {
      EntryIsRecord(p.request, Utter(p, TurnStarted));
      EmittedKept(w, s, pid, Refreshed(p), Utter(p, TurnStarted), how, Begun(p, |s.log|));
    }
  }

  lemma RecvKept(w: World, s: State, pid: nat, e: ModelEvent, how: How)
    requires Owned(s, pid) && Kept(w, s)
    ensures Kept(w, DoRecv(s, pid, s.procs[pid], e, how))
  {
    hide Kept, Exhausted, Overrun, Plus;
    var p := s.procs[pid];
    if p.pc.Streaming? && p.pc.data.held.None? {
      if e.usage.Some? && ValidUsage(e.usage.value) && Overrun(p.pc.bound, p.pc.used, e.usage.value) != NoDimension {
        ExhaustedKept(w, s, pid, p, Overrun(p.pc.bound, p.pc.used, e.usage.value), how);
      } else {
        MovesKept(w, s, DoRecv(s, pid, p, e, how), pid);
      }
    }
  }

  /** The validator's progress and the stop reason move with what is heard; nothing follows a terminal event. */
  lemma HeardOn(w: World, t: Tally, e: ModelEvent, v: SP.Progress, v': SP.Progress)
    requires SP.AcceptAll(w.env, t.heard) == Some(v) && SP.Accepted(w.env, v, e) == (v', true)
    ensures SP.AcceptAll(w.env, t.heard + [e]) == Some(v')
    ensures StopHeard(t) == NoStop && StopHeard(t.(heard := t.heard + [e])) == if e.kind == StopEvent then e.stop else NoStop
  {
    hide ValidModelEvent;
    var es := t.heard + [e];
    assert es[..|t.heard|] == t.heard && es[|es| - 1] == e;
  }

  /** The turn's data after an event is what has been heard with it. */
  lemma HearsMore(w: World, p: Proc, t: Tally, e: ModelEvent, v: SP.Progress)
    requires p.pc.Streaming? && ProcKept(w, p, t) && SP.Accepted(w.env, p.pc.data.progress, e) == (v, true)
    ensures Live(Consumed(p, e, v).pc) ==> ProcKept(w, Consumed(p, e, v), t.(heard := t.heard + [e]))
  {
    hide AddUsage, ExceedsUsage, ValidCall, SP.AcceptAll, SP.TextOf, SP.CallsOf, StopHeard, ValidUsage, ValidDelta;
    SP.CarriesMore(t.heard, e);
    HeardOn(w, t, e, p.pc.data.progress, v);
  }

  lemma RelayKept(w: World, s: State, pid: nat, how: How)
    requires Owned(s, pid) && Kept(w, s)
    ensures Kept(w, DoRelay(w, s, pid, s.procs[pid], how))
  {
    hide Kept, Emitted, LoopEntry, LoopLevel, SP.Accepted, Consumed, ProcKept;
    var p := s.procs[pid];
    if p.pc.Streaming? && p.pc.data.held.Some? {
      var e := p.pc.data.held.value;
      var (v, ok) := SP.Accepted(w.env, p.pc.data.progress, e);
      if !ok {
        MovesKept(w, s, DoRelay(w, s, pid, p, how), pid);
      } else {
        var l := Utter(p, ModelOutput).(modelEvent := Some(e));
        EntryIsRecord(p.request, l);
        forall t | ProcKept(w, p, t)
          ensures Live(Consumed(p, e, v).pc) ==> ProcKept(w, Consumed(p, e, v), t.(heard := t.heard + [e]))
        {
          HearsMore(w, p, t, e, v);
        }
        EmittedKept(w, s, pid, p, l, how, Consumed(p, e, v));
      }
    }
  }

  lemma SaysMore(r: Request, t: Tally, m: Message)
    ensures Conversation(r, t.(spoken := t.spoken + [m])) == Conversation(r, t) + [m]
  {
  }

  /** The message at the end of the stream says what was heard. */
  lemma AnswerSpeaks(r: Request, t: Tally)
    ensures var m := AssistantMessage(r.outputLevel, SP.TextOf(t.heard), CallsHeard(t)); m.role == Assistant && Speaks(r, t, m)
  {
    hide SP.TextOf, SP.CallsOf;
    assert |CallParts(r.outputLevel, CallsHeard(t))| == |CallsHeard(t)|;
  }

  /** What follows the message is what the model asked for. */
  lemma AnswerKept(w: World, p: Proc, t: Tally, m: Message)
    requires p.pc.Streaming? && ProcKept(w, p, t) && HeardWhole(w, t)
    ensures var q := p.(result := p.result.(messages := p.result.messages + [m]));
      var q' := AfterTurn(q, p.pc.at, p.pc.data);
      Live(q'.pc) ==> ProcKept(w, q', t.(spoken := t.spoken + [m]))
  {
    hide SP.TextOf, SP.CallsOf, SP.AcceptAll, Conversation;
    SaysMore(p.request, t, m);
  }

  /** A stream that the validator lets end has been heard to its terminal event. */
  lemma HeardOut(w: World, t: Tally, v: SP.Progress)
    requires SP.AcceptAll(w.env, t.heard) == Some(v) && SP.Complete(v)
    ensures HeardWhole(w, t)
  {
    hide ValidModelEvent;
  }

  lemma EndStreamKept(w: World, s: State, pid: nat, how: How)
    requires Owned(s, pid) && Kept(w, s)
    ensures Kept(w, DoEndStream(w, s, pid, s.procs[pid], how))
  {
    hide Kept, Emitted, LoopEntry, LoopLevel, AfterTurn, Speaks, HeardWhole, SP.Complete, SP.AcceptAll, SP.TextOf,
         SP.CallsOf, AssistantMessage, FreshCalls, ValidMessage;
    var p := s.procs[pid];
    if p.pc.Streaming? && p.pc.data.held.None? {
      var d := p.pc.data;
      var m := AssistantMessage(p.request.outputLevel, d.text, d.calls);
      if !SP.Complete(d.progress) || !FreshCalls(p.result.messages, d.calls) || (m.content != [] && !ValidMessage(w.env, m)) {
        MovesKept(w, s, DoEndStream(w, s, pid, p, how), pid);
      } else if m.content == [] {
        SilenceStops(p, d);
        MovesKept(w, s, DoEndStream(w, s, pid, p, how), pid);
      } else {
        var q := p.(result := p.result.(messages := p.result.messages + [m]));
        var l := Utter(p, MessageAppended).(message := Some(m));
        EntryIsRecord(p.request, l);
        forall t | ProcKept(w, p, t)
          ensures HeardWhole(w, t) && m.role == Assistant && Speaks(p.request, t, m)
          ensures Live(AfterTurn(q, p.pc.at, d).pc) ==> ProcKept(w, AfterTurn(q, p.pc.at, d), t.(spoken := t.spoken + [m]))
        {
          HeardOut(w, t, d.progress);
          AnswerSpeaks(p.request, t);
          AnswerKept(w, p, t, m);
        }
        EmittedKept(w, s, pid, q, l, how, AfterTurn(q, p.pc.at, d));
      }
    }
  }

  lemma SilenceStops(p: Proc, d: TurnData)
    requires p.pc.Streaming? && AssistantMessage(p.request.outputLevel, d.text, d.calls).content == []
    ensures AfterTurn(p, p.pc.at, d).pc.Stopping?
  {
    assert |CallParts(p.request.outputLevel, d.calls)| == |d.calls|;
  }

  // ---- The batch of tools ------------------------------------------------------------------------

  lemma IntendKept(w: World, s: State, pid: nat, how: How)
    requires Owned(s, pid) && Kept(w, s)
    ensures Kept(w, DoIntend(s, pid, s.procs[pid], how))
  {
    hide Kept, Emitted, LoopEntry, LoopLevel, SP.AcceptAll, SP.CallsOf;
    var p := s.procs[pid];
    if p.pc.Intending? && |p.pc.starts| < |p.pc.calls| {
      var l := Utter(p, ToolStarted).(toolCall := Some(p.pc.calls[|p.pc.starts|]));
      EntryIsRecord(p.request, l);
      EmittedKept(w, s, pid, p, l, how, Intended(p, |s.log|));
    }
  }

  lemma MarkedKept(w: World, s: State, pid: nat, k: nat, payload: Payload, how: How, next: Status)
    requires Owned(s, pid) && Kept(w, s) && s.procs[pid].pc.Running? && k < |s.procs[pid].pc.status|
    requires payload.ExecutionRecorded? && payload.record.loop.None? && payload.record.compaction.None?
    ensures var p := s.procs[pid]; Kept(w, Wrote(s, pid, p, [payload], how, Marked(p, k, next), Marked(p, k, Barred)))
  {
    hide Kept, Wrote, TallyOf;
    var p := s.procs[pid];
    assert Carried(w, Marked(p, k, Barred), s.log) by { KeptCarried(w, s, pid); }
    PlainKept(w, s, pid, p, payload, how, Marked(p, k, next), Marked(p, k, Barred));
  }

  lemma JudgeKept(w: World, s: State, pid: nat, k: nat, sandbox: Sandbox, answer: Answer, how: How)
    requires Owned(s, pid) && Kept(w, s)
    ensures Kept(w, DoJudge(w, s, pid, s.procs[pid], k, sandbox, answer, how))
  {
    hide Kept, Wrote, EvaluateExecution, ValidManifest, ManifestClass, ProcKept;
    var p := s.procs[pid];
    if p.pc.Running? && k < |p.pc.status| && k < |p.pc.calls| && p.pc.status[k] == Waiting {
      var q := ToolQuestion(w, p.request, p.pc.calls[k], p.request.zone, p.request.autonomous, sandbox);
      var v := EvaluateExecution(w.env, answer, q);
      if !ValidManifest(q.manifest) {
        forall t | ProcKept(w, p, t) ensures ProcKept(w, Marked(p, k, Barred), t) { StatusFree(w, p, k, Barred, t); }
        MovesKept(w, s, DoJudge(w, s, pid, p, k, sandbox, answer, how), pid);
      } else {
        var next := if v.action == Allow then Allowed(|s.log|) else if v.action == RequireApproval then Asked(v) else Barred;
        MarkedKept(w, s, pid, k, VerdictEntry(p.request, p.turn, q.manifest, v), how, next);
      }
    }
  }

  lemma StatusFree(w: World, p: Proc, k: nat, next: Status, t: Tally)
    requires p.pc.Running? && k < |p.pc.status| && ProcKept(w, p, t)
    ensures ProcKept(w, Marked(p, k, next), t)
  {
  }

  lemma DecideKept(w: World, s: State, pid: nat, k: nat, d: ApprovalDecision, how: How)
    requires Owned(s, pid) && Kept(w, s)
    ensures Kept(w, DoDecide(w, s, pid, s.procs[pid], k, d, how))
  {
    hide Kept, Wrote, ValidManifest, ManifestClass, ProcKept, Blank;
    var p := s.procs[pid];
    if p.pc.Running? && k < |p.pc.status| && k < |p.pc.calls| && p.pc.status[k].Asked? && !Blank(d.actor) {
      var m, v := w.manifestOf(p.pc.calls[k]), p.pc.status[k].verdict;
      if !ValidManifest(m) || ManifestClass(m.items) == Secret {
        forall t | ProcKept(w, p, t) ensures ProcKept(w, Marked(p, k, Barred), t) { StatusFree(w, p, k, Barred, t); }
        MovesKept(w, s, DoDecide(w, s, pid, p, k, d, how), pid);
      } else {
        MarkedKept(w, s, pid, k, ApprovalEntry(p.request, p.turn, m, v, d), how, if d.approved then Granted(v) else Barred);
      }
    }
  }

  lemma ResolveKept(w: World, s: State, pid: nat, k: nat, how: How)
    requires Owned(s, pid) && Kept(w, s)
    ensures Kept(w, DoResolve(w, s, pid, s.procs[pid], k, how))
  {
    hide Kept, Wrote, ManifestClass;
    var p := s.procs[pid];
    if p.pc.Running? && k < |p.pc.status| && k < |p.pc.calls| && p.pc.status[k].Granted? {
      var m, v := w.manifestOf(p.pc.calls[k]), Approved(p.pc.status[k].verdict);
      MarkedKept(w, s, pid, k, VerdictEntry(p.request, p.turn, m, v), how, Allowed(|s.log|));
    }
  }

  lemma ReportFits(w: World, p: Proc, q: Proc, t: Tally, o: ToolOutput, c: ExecutionRecord)
    requires p.pc.Reporting? && p.pc.reported < |p.pc.calls| && ProcKept(w, p, t)
    requires q.request == p.request && q.result.messages == p.result.messages
    requires var call := p.pc.calls[p.pc.reported];
      && q.pc == p.pc.(reported := p.pc.reported + 1, parts := p.pc.parts + ToolBatch.OutputParts(call, o))
      && c.compaction.None? && c.loop.Some? && c.loop.value.kind == ToolCompleted
      && c.loop.value.toolCall == Some(call) && c.loop.value.toolOutput == Some(o)
    ensures EventKept(w, p.request, t, c) && ProcKept(w, q, Counted(t, c))
  {
    hide SP.AcceptAll, SP.CallsOf, ToolBatch.OutputParts;
  }

  lemma ReportKept(w: World, s: State, pid: nat, o: ToolOutput, failure: Option<ToolFailure>, how: How)
    requires Owned(s, pid) && Kept(w, s)
    ensures Kept(w, DoReport(s, pid, s.procs[pid], o, failure, how))
  {
    hide Kept, Emitted, LoopEntry, LoopLevel, ProcKept, EventKept, Counted, ToolBatch.OutputParts;
    var p := s.procs[pid];
    if p.pc.Reporting? && p.pc.reported < p.pc.finished && p.pc.reported < |p.pc.calls| {
      var call := p.pc.calls[p.pc.reported];
      var q := if failure.Some? then p.(result := p.result.(failures := p.result.failures + [failure.value])) else p;
      var l := Utter(p, ToolCompleted).(toolCall := Some(call), toolOutput := Some(o),
                                         failureCode := if failure.Some? then failure.value.code else "");
      EntryIsRecord(p.request, l);
      var next := q.(pc := p.pc.(reported := p.pc.reported + 1, parts := p.pc.parts + ToolBatch.OutputParts(call, o)));
      forall t | ProcKept(w, p, t)
        ensures EventKept(w, p.request, t, LoopEntry(p.request, l).record) && ProcKept(w, next, Counted(t, LoopEntry(p.request, l).record))
      {
        ReportFits(w, p, next, t, o, LoopEntry(p.request, l).record);
      }
      EmittedKept(w, s, pid, q, l, how, next);
    }
  }

  lemma AppendResultsKept(w: World, s: State, pid: nat, how: How)
    requires Owned(s, pid) && Kept(w, s)
    ensures Kept(w, DoAppendResults(w, s, pid, s.procs[pid], how))
  {
    hide Kept, Emitted, LoopEntry, LoopLevel, Asks, SP.CallsOf, ValidMessage;
    var p := s.procs[pid];
    if p.pc.Reporting? && p.pc.reported == p.pc.finished {
      var m := Message(ToolRole, p.pc.parts);
      if p.pc.finished != |p.pc.calls| || !ValidMessage(w.env, m) {
        MovesKept(w, s, DoAppendResults(w, s, pid, p, how), pid);
      } else {
        var q := p.(result := p.result.(messages := p.result.messages + [m]));
        var l := Utter(p, MessageAppended).(message := Some(m));
        EntryIsRecord(p.request, l);
        EmittedKept(w, s, pid, q, l, how, q.(pc := Reported(p.pc.at)));
      }
    }
  }

  lemma SaveKept(w: World, s: State, pid: nat, how: How)
    requires Owned(s, pid) && Kept(w, s)
    ensures Kept(w, DoSave(s, pid, s.procs[pid], how))
  {
    hide Kept, Emitted, LoopEntry, LoopLevel, Conversation;
    var p := s.procs[pid];
    if p.pc.Reported? {
      EntryIsRecord(p.request, Saving(p));
      EmittedKept(w, s, pid, p, Saving(p), how, p.(pc := Boundary));
    }
  }

  // ---- Why a run stops ----------------------------------------------------------------------------

  lemma ReasonLasts(w: World, p: Proc, log: seq<Event>, log': seq<Event>)
    requires Reasoned(w, p, log) && log <= log'
    ensures Reasoned(w, p, log')
  {
    hide TallyOf, Reason;
    if p.pc.Stopping? && p.run.sequence <= |log| { assert log'[..p.run.sequence] == log[..p.run.sequence]; }
  }

  /** The stream only grows, and only this runner changes. */
  predicate Moved(s: State, s': State, pid: nat) {
    s.log <= s'.log && pid in s'.procs && s'.procs == s.procs[pid := s'.procs[pid]]
  }

  /** The runner goes on with the reason it had, or stops with it. */
  predicate Onward(p: Proc, q: Proc) {
    Live(q.pc) || q.pc.Admitting? || (q.pc.Stopping? && !q.muted) ==> (Live(p.pc) || p.pc.Admitting?) && q.result.stop == p.result.stop
  }

  // Only the end of a stream, a claim and the opening give a runner a reason it did not have.

  lemma BeginsOnward(w: World, s: State, pid: nat, m: Move, how: How)
    requires pid in s.procs && Begins(m) && !m.Claim? && !(m.Note? && s.procs[pid].pc.Stopping?)
    ensures var s' := Acts(w, s, pid, s.procs[pid], m, how); Moved(s, s', pid) && (s' == s || Onward(s.procs[pid], s'.procs[pid]))
  {
    hide Private, Steady, Wrote, BudgetEntry, RoutingEntry, Routable, Chosen, Remark, Exceeding, Plus,
         DoOpenSummary, DoSummaryEvent, DoEndSummary, DoStartTurn, DoOpenStream, DoRecv, DoRelay, DoEndStream,
         DoIntend, DoJudge, DoDecide, DoResolve, DoRunTool, DoEndBatch, DoReport, DoAppendResults, DoSave, DoStop, DoFinish;
  }

  lemma CallsOnward(w: World, s: State, pid: nat, m: Move, how: How)
    requires pid in s.procs && Calls(m) && !m.EndStream?
    ensures var s' := Acts(w, s, pid, s.procs[pid], m, how); Moved(s, s', pid) && (s' == s || Onward(s.procs[pid], s'.procs[pid]))
  {
    hide ToolBatch.OutputParts, Summary, Private, Steady, Wrote, LoopEntry, BudgetEntry, CompactionEntry, SP.Accepted,
         AddUsage, ValidUsage, ExceedsUsage, Overrun, Raised, Plus, PlusUsage, DoAdmit, DoClaim, DoBeginTurn, DoNote,
         DoCompact, DoRoute, DoReserve, DoStop, DoFinish, DoEndStream, DoIntend, DoJudge, DoDecide, DoResolve, DoRunTool,
         DoEndBatch, DoReport, DoAppendResults, DoSave;
  }

  lemma BatchesOnward(w: World, s: State, pid: nat, m: Move, how: How)
    requires pid in s.procs && Batches(m)
    ensures var s' := Acts(w, s, pid, s.procs[pid], m, how); Moved(s, s', pid) && (s' == s || Onward(s.procs[pid], s'.procs[pid]))
  {
    hide ToolQuestion, Approved, ToolBatch.OutputParts, Private, Steady, Wrote, LoopEntry, VerdictEntry, ApprovalEntry,
         EvaluateExecution, ValidManifest, ManifestClass, ValidMessage, Blank, DoAdmit, DoClaim, DoBeginTurn, DoNote,
         DoCompact, DoRoute, DoReserve, DoStop, DoFinish, DoOpenSummary, DoSummaryEvent, DoEndSummary, DoStartTurn,
         DoOpenStream, DoRecv, DoRelay, DoEndStream;
  }

  lemma EndsOnward(w: World, s: State, pid: nat, m: Move, how: How)
    requires pid in s.procs && Ends(m)
    ensures var s' := Acts(w, s, pid, s.procs[pid], m, how); Moved(s, s', pid) && (s' == s || Onward(s.procs[pid], s'.procs[pid]))
  {
    hide Private, Steady, Wrote, LoopEntry, Closing,
         DoAdmit, DoClaim, DoBeginTurn, DoNote, DoCompact, DoRoute, DoReserve,
         DoOpenSummary, DoSummaryEvent, DoEndSummary, DoStartTurn, DoOpenStream, DoRecv, DoRelay, DoEndStream,
         DoIntend, DoJudge, DoDecide, DoResolve, DoRunTool, DoEndBatch, DoReport, DoAppendResults, DoSave;
  }

  lemma OnwardReasoned(w: World, p: Proc, q: Proc, log: seq<Event>, log': seq<Event>)
    requires Reasoned(w, p, log) && Onward(p, q)
    ensures Reasoned(w, q, log')
  {
    hide TallyOf, Reason;
  }

  lemma EndStreamReasoned(w: World, s: State, pid: nat, how: How)
    requires Owned(s, pid) && Kept(w, s) && Reasoned(w, s.procs[pid], s.log)
    ensures var s' := DoEndStream(w, s, pid, s.procs[pid], how); pid in s'.procs && Reasoned(w, s'.procs[pid], s'.log)
  {
    hide Private, Steady, Kept, TallyOf, LoopEntry, LoopLevel, SP.AcceptAll, SP.Complete, FreshCalls, ValidMessage,
         AssistantMessage, Wrote, Reason, HeardWhole, AfterTurn;
    var p, s' := s.procs[pid], DoEndStream(w, s, pid, s.procs[pid], how);
    if p.pc.Streaming? && p.pc.data.held.None? {
      var d := p.pc.data;
      var m := AssistantMessage(p.request.outputLevel, d.text, d.calls);
      if !SP.Complete(d.progress) || !FreshCalls(p.result.messages, d.calls) || (m.content != [] && !ValidMessage(w.env, m)) {
        OnwardReasoned(w, p, s'.procs[pid], s.log, s'.log);
      } else {
        assert Carried(w, p, s.log) by { KeptCarried(w, s, pid); }
        var t := TallyOf(s.log[..p.run.sequence]);
        HeardOut(w, t, d.progress);
        if m.content == [] {
          var next := AfterTurn(p, p.pc.at, d);
          assert next.run == p.run by { AfterTurnRuns(p, p.pc.at, d); }
          AfterTurnReasoned(w, p, p, next, t, s.log);
        } else {
          var q := p.(result := p.result.(messages := p.result.messages + [m]));
          var l := Utter(p, MessageAppended).(message := Some(m));
          var payload := LoopEntry(p.request, l);
          AppendOutcome(p.request, p.run, s.log, [payload], how);
          EndsWrote(w, s, pid, p, q, l, how, t);
        }
      }
    }
  }

  lemma AfterTurnRuns(p: Proc, at: nat, d: TurnData)
    ensures AfterTurn(p, at, d).run == p.run
  {
  }

  /** The end of a turn takes the model's own reason. */
  lemma AfterTurnReasoned(w: World, p: Proc, q: Proc, q': Proc, t: Tally, log: seq<Event>)
    requires p.pc.Streaming? && q.pc == p.pc && q.result.stop == p.result.stop && OwnReason(p.result.stop) && HeardWhole(w, t)
    requires p.pc.data.stop == StopHeard(t) && q'.run.sequence <= |log| && TallyOf(log[..q'.run.sequence]).heard == t.heard
    requires var n := AfterTurn(q, p.pc.at, p.pc.data); q'.pc == n.pc && q'.result == n.result
    ensures Reasoned(w, q', log)
  {
    hide TallyOf;
  }

  lemma EndsWrote(w: World, s: State, pid: nat, p: Proc, q: Proc, l: LoopEvent, how: How, t: Tally)
    requires pid in s.procs && p == s.procs[pid] && p.pc.Streaming? && OwnReason(p.result.stop) && p.run.sequence <= |s.log|
    requires q == p.(result := q.result) && q.result.stop == p.result.stop && l.kind == MessageAppended
    requires t == TallyOf(s.log[..p.run.sequence]) && HeardWhole(w, t) && p.pc.data.stop == StopHeard(t)
    ensures var s' := Emitted(s, pid, q, l, how, AfterTurn(q, p.pc.at, p.pc.data)); Reasoned(w, s'.procs[pid], s'.log)
  {
    hide TallyOf, LoopLevel, HeardWhole, Reason, AfterTurn;
    var payload := LoopEntry(q.request, l);
    var (log, run, ok) := Appending(q.request, q.run, s.log, [payload], how);
    AppendOutcome(q.request, q.run, s.log, [payload], how);
    var e := Seal(q.request, |s.log| + 1, payload);
    assert Sealed(q.request, |s.log|, [payload]) == [e];
    var q' := Emitted(s, pid, q, l, how, AfterTurn(q, p.pc.at, p.pc.data)).procs[pid];
    if ok {
      assert s.log[..p.run.sequence] == s.log;
      TallySnoc(s.log, e);
      EntryIsRecord(q.request, l);
      assert log[..|log|] == log;
      AfterTurnReasoned(w, p, q, q', t, log);
    }
  }

  lemma NoteReasoned(w: World, s: State, pid: nat, record: ExecutionRecord, how: How)
    requires pid in s.procs && s.procs[pid].pc.Stopping? && Reasoned(w, s.procs[pid], s.log)
    ensures var s' := DoNote(s, pid, s.procs[pid], record, how); pid in s'.procs && Reasoned(w, s'.procs[pid], s'.log)
  {
    hide TallyOf, Reason;
    var p := s.procs[pid];
    if Remark(p.request.step, record) {
      var payload := ExecutionRecorded(record);
      var (log, run, ok) := Appending(p.request, p.run, s.log, [payload], how);
      AppendOutcome(p.request, p.run, s.log, [payload], how);
      var e := Seal(p.request, |s.log| + 1, payload);
      assert Sealed(p.request, |s.log|, [payload]) == [e];
      if ok {
        TallySnoc(s.log, e);
        assert s.log[..p.run.sequence] == s.log && log[..|log|] == log;
      } else {
        ReasonLasts(w, p, s.log, log);
      }
    }
  }

  /** What a resumer continues from asked for tools. */
  lemma ClaimReasoned(w: World, s: State, pid: nat, how: How)
    requires Collisionless(w) && Inv(w, s) && pid in s.procs
    ensures var s' := DoClaim(w, s, pid, s.procs[pid], how); s' == s || (pid in s'.procs && Reasoned(w, s'.procs[pid], s'.log))
  {
    hide Collisionless, TallyOf, Read, Inv, Reason;
    var p := s.procs[pid];
    if p.pc.Loaded? && p.pc.restart.checkpoint.checkpoint.Some? {
      AppendOutcome(p.request, p.run, s.log, [ResumedEntry(p.request, w.digest(p.request))], how);
      if p.run.sequence == |s.log| { ResumerAsks(w, s, pid); }
    }
  }

  lemma ResumerAsks(w: World, s: State, pid: nat)
    requires Inv(w, s) && pid in s.procs && s.procs[pid].pc.Loaded? && s.procs[pid].run.sequence == |s.log|
    ensures s.procs[pid].pc.restart.checkpoint.checkpoint.Some? && s.procs[pid].pc.restart.checkpoint.checkpoint.value.stop == ToolUse
  {
    hide Read, EntryOk, EffectsOk, Submittable, Sane, Covered;
    assert ProcOk(w, s, pid, s.procs[pid]);
    assert s.log[..|s.log|] == s.log;
  }

  /** The stream only grows, and the runner that moved has a reason. */
  lemma ReasonsLast(w: World, s: State, s': State, pid: nat)
    requires AllReasoned(w, s) && Moved(s, s', pid)
    requires Reasoned(w, s'.procs[pid], s'.log)
    ensures AllReasoned(w, s')
  {
    hide Reasoned;
    forall other | other in s'.procs ensures Reasoned(w, s'.procs[other], s'.log) {
      if other != pid { ReasonLasts(w, s.procs[other], s.log, s'.log); }
    }
  }

  // ---- Every step, every run ------------------------------------------------------------------------

  /** The steps of a runner that has committed, other than the claim. */
  lemma MoveKept(w: World, s: State, pid: nat, m: Move, how: How)
    requires Owned(s, pid) && Kept(w, s) && Reasoned(w, s.procs[pid], s.log) && !m.Submit? && !m.Load? && !m.Claim?
    ensures Kept(w, Acts(w, s, pid, s.procs[pid], m, how))
  {
    hide Kept, ProcKept, LogKept, Put, DoAdmit, DoBeginTurn, DoNote, DoCompact, DoRoute, DoReserve, DoSummaryEvent,
         DoEndSummary, DoStartTurn, DoRecv, DoRelay, DoEndStream, DoIntend, DoJudge, DoDecide, DoResolve, DoReport,
         DoAppendResults, DoSave, DoStop, DoFinish;
    match m {
      case Admit => AdmitKept(w, s, pid, how);
      case BeginTurn => BeginTurnKept(w, s, pid, how);
      case Note(record) => NoteKept(w, s, pid, record, how);
      case Compact => CompactKept(w, s, pid, how);
      case Route(rr) => RouteKept(w, s, pid, rr, how);
      case Reserve(estimate, cap) => ReserveKept(w, s, pid, estimate, cap, how);
      case SummaryEvent(e) => SummaryEventKept(w, s, pid, e, how);
      case EndSummary(text, draft) => EndSummaryKept(w, s, pid, text, draft, how);
      case StartTurn => StartTurnKept(w, s, pid, how);
      case Recv(e) => RecvKept(w, s, pid, e, how);
      case Relay => RelayKept(w, s, pid, how);
      case EndStream => EndStreamKept(w, s, pid, how);
      case Intend => IntendKept(w, s, pid, how);
      case Judge(k, sandbox, answer) => JudgeKept(w, s, pid, k, sandbox, answer, how);
      case Decide(k, d) => DecideKept(w, s, pid, k, d, how);
      case Resolve(k) => ResolveKept(w, s, pid, k, how);
      case Report(o, failure) => ReportKept(w, s, pid, o, failure, how);
      case AppendResults => AppendResultsKept(w, s, pid, how);
      case Save => SaveKept(w, s, pid, how);
      case Stop(failed, cancelled, code) => StopKept(w, s, pid, failed, cancelled, code, how);
      case Finish(failure, state) => FinishKept(w, s, pid, failure, state, how);
      case _ => QuietMoveKept(w, s, pid, m, how);
    }
  }

  /** The steps that write nothing, whatever happens. */
  lemma QuietMoveKept(w: World, s: State, pid: nat, m: Move, how: How)
    requires Owned(s, pid) && Kept(w, s)
    requires m.OpenSummary? || m.OpenStream? || m.RunTool? || m.EndBatch? || m.Fail? || m.Abandon? || m.Crash?
    ensures Kept(w, Acts(w, s, pid, s.procs[pid], m, how))
  {
    hide Kept, ProcKept, DoAdmit, DoBeginTurn, DoNote, DoCompact, DoRoute, DoReserve, DoSummaryEvent, DoEndSummary,
         DoStartTurn, DoRecv, DoRelay, DoEndStream, DoIntend, DoJudge, DoDecide, DoResolve, DoReport, DoAppendResults,
         DoSave, DoStop, DoFinish;
    var p, s' := s.procs[pid], Acts(w, s, pid, s.procs[pid], m, how);
    if s' != s {
      forall t | ProcKept(w, p, t) ensures Live(s'.procs[pid].pc) ==> ProcKept(w, s'.procs[pid], t) {
        StaysInCall(w, p, s'.procs[pid], t);
      }
      MovesKept(w, s, s', pid);
    }
  }

  /** A runner that opens a call, runs a tool or collects the results has the same conversation and the same turn. */
  lemma StaysInCall(w: World, p: Proc, q: Proc, t: Tally)
    requires ProcKept(w, p, t) && q.request == p.request && q.result == p.result
    requires
      || !Live(q.pc) || (p.pc.SummaryReserved? && q.pc.Summarizing?)
      || (p.pc.TurnBegun? && q.pc.Streaming? && q.pc.data == NO_DATA)
      || (p.pc.Running? && q.pc.Running? && q.pc.calls == p.pc.calls)
      || (p.pc.Running? && q.pc.Reporting? && q.pc.calls == p.pc.calls && q.pc.reported == 0 && q.pc.parts == [])
    ensures Live(q.pc) ==> ProcKept(w, q, t)
  {
    hide Asks, Conversation;
  }

  /** No step of any runner writes anything that the records before it do not say. */
  lemma StepKeepsTranscript(w: World, s: State, a: Action)
    requires Collisionless(w) && Inv(w, s) && Kept(w, s) && AllReasoned(w, s)
    ensures Kept(w, Next(w, s, a))
  {
    hide Private, Steady, Collisionless, Inv, Kept, DoSubmit, DoClaim, Carried, Reasoned, Readable, Submittable, DoAdmit,
         DoBeginTurn, DoNote, DoCompact, DoRoute, DoReserve, DoOpenSummary, DoSummaryEvent, DoEndSummary, DoStartTurn,
         DoOpenStream, DoRecv, DoRelay, DoEndStream, DoIntend, DoJudge, DoDecide, DoResolve, DoRunTool, DoEndBatch, DoReport,
         DoAppendResults, DoSave, DoStop, DoFinish;
    if a.move.Submit? {
      SubmitKept(w, s, a.pid, a.move.r, a.how);
    } else if a.move.Load? {
      var s' := DoLoad(w, s, a.pid, a.move.r);
      if s' != s {
        Stops(w, s'.procs[a.pid], s.log);
        PutKept(w, s, a.pid, s'.procs[a.pid]);
      }
    } else if a.pid in s.procs {
      if a.move.Claim? {
        ClaimKept(w, s, a.pid, a.how);
      } else {
        if !s.procs[a.pid].pc.Gone? && !s.procs[a.pid].pc.Loaded? { HeldBasics(w, s, a.pid); }
        assert Reasoned(w, s.procs[a.pid], s.log);
        MoveKept(w, s, a.pid, a.move, a.how);
      }
    }
  }

  lemma MoveReasoned(w: World, s: State, pid: nat, m: Move, how: How)
    requires Collisionless(w) && Inv(w, s) && Owned(s, pid) && Kept(w, s) && AllReasoned(w, s) && !m.Submit? && !m.Load?
    ensures AllReasoned(w, Acts(w, s, pid, s.procs[pid], m, how))
  {
    hide Private, Steady, Collisionless, Inv, Kept, Reasoned, DoAdmit, DoBeginTurn, DoCompact, DoRoute, DoReserve,
         DoOpenSummary, DoSummaryEvent, DoEndSummary, DoStartTurn, DoOpenStream, DoRecv, DoRelay, DoIntend, DoJudge,
         DoDecide, DoResolve, DoRunTool, DoEndBatch, DoReport, DoAppendResults, DoSave, DoStop, DoFinish, Wrote, AfterTurn,
         FreshCalls, ValidMessage, Remark;
    var p, s' := s.procs[pid], Acts(w, s, pid, s.procs[pid], m, how);
    assert Reasoned(w, p, s.log);
    if m.Claim? {
      ClaimReasoned(w, s, pid, how);
    } else if m.EndStream? {
      EndStreamReasoned(w, s, pid, how);
    } else if m.Note? && p.pc.Stopping? {
      NoteReasoned(w, s, pid, m.record, how);
    } else {
      if Begins(m) { BeginsOnward(w, s, pid, m, how); }
      else if Calls(m) { CallsOnward(w, s, pid, m, how); }
      else if Batches(m) { BatchesOnward(w, s, pid, m, how); }
      else { EndsOnward(w, s, pid, m, how); }
      if s' != s { OnwardReasoned(w, p, s'.procs[pid], s.log, s'.log); }
    }
    if s' != s { ReasonsLast(w, s, s', pid); }
  }

  lemma StepKeepsReasons(w: World, s: State, a: Action)
    requires Collisionless(w) && Inv(w, s) && Kept(w, s) && AllReasoned(w, s)
    ensures AllReasoned(w, Next(w, s, a))
  {
    hide Collisionless, Inv, Kept, Wrote, Readable, Submittable, Acts, AllReasoned, Opening, TallyOf;
    var s' := Next(w, s, a);
    if a.move.Submit? || a.move.Load? {
      if s' != s { ReasonsLast(w, s, s', a.pid); }
    } else if a.pid in s.procs {
      if !s.procs[a.pid].pc.Gone? && !s.procs[a.pid].pc.Loaded? { HeldBasics(w, s, a.pid); }
      MoveReasoned(w, s, a.pid, a.move, a.how);
    }
  }

  /** In every state of every run, the stream and the runners keep the transcript. */
  lemma {:induction false} Transcribed(w: World, workload: ID, states: seq<State>, run: seq<Action>, k: nat)
    requires Collisionless(w) && Behaviour(w, workload, states, run) && k < |states|
    ensures Kept(w, states[k]) && AllReasoned(w, states[k])
  {
    hide Collisionless, Inv, Next, LogKept, Carried, Reasoned;
    if k > 0 {
      Transcribed(w, workload, states, run, k - 1);
      Reachable(w, workload, states, run, k - 1);
      assert Stepped(w, states, run, k - 1);
      StepKeepsTranscript(w, states[k - 1], run[k - 1]);
      StepKeepsReasons(w, states[k - 1], run[k - 1]);
    }
  }

  /** Whatever any runner says on record is what the records before it say. */
  lemma RecordSpeaks(w: World, workload: ID, states: seq<State>, run: seq<Action>, k: nat, i: nat)
    requires Collisionless(w) && Behaviour(w, workload, states, run) && k < |states| && i < |states[k].log|
    requires states[k].log[i].draft.payload.ExecutionRecorded?
    ensures var s := states[k];
      s.creator.Some? && EventKept(w, s.creator.value, TallyOf(s.log[..i]), s.log[i].draft.payload.record)
  {
    hide Behaviour, Collisionless, TallyOf, EventKept, Carried, AllReasoned, EffectsOk, ProcOk, EntryOk, LedgerOk, Read,
         Submittable;
    Transcribed(w, workload, states, run, k);
    Reachable(w, workload, states, run, k);
  }

  /** A resumer is handed exactly the conversation on record. */
  lemma ResumedConversation(w: World, workload: ID, states: seq<State>, run: seq<Action>, k: nat, r: Request)
    requires Collisionless(w) && Behaviour(w, workload, states, run) && k < |states| && r in w.requests
    requires Readable(w, r, states[k].log).Some?
    ensures var c := Readable(w, r, states[k].log).value.checkpoint.checkpoint;
      c.Some? && c.value.messages == Conversation(r, TallyOf(states[k].log))
  {
    hide Behaviour, Collisionless, TallyOf, Carried, AllReasoned, Readable, LogKept, Read, Conversation;
    Transcribed(w, workload, states, run, k);
    Guarantees.CheckpointsContinue(w, workload, states, run, k, r);
    ReadableIsRead(w, r, states[k].log);
    KeptLog(w, states[k]);
    CheckpointKept(w, r, states[k].log);
  }

  // ---- Levels and the final batch --------------------------------------------------------------------

  /** The level a part counts with: unlabelled content is confidential. */
  function Labelled(c: Class): Class {
    if c == Unlabelled then Confidential else c
  }

  /** A level that some part of these messages counts with. */
  predicate SaidAt(messages: seq<Message>, c: Class) {
    exists i, j :: 0 <= i < |messages| && 0 <= j < |messages[i].content| && Labelled(messages[i].content[j].level) == c
  }

  /** A level that enters the record of a loop event. */
  predicate Enters(r: Request, l: LoopEvent, c: Class) {
    || c == r.level
    || ((l.modelEvent.Some? || l.toolCall.Some?) && c == Labelled(r.outputLevel))
    || (l.toolOutput.Some? && c == Labelled(l.toolOutput.value.level))
    || (l.message.Some? && SaidAt([l.message.value], c))
  }

  lemma {:induction false} PartsHighest(a: Class, parts: seq<ContentPart>)
    ensures var c := RaisedBy(a, parts);
      && (c == a || exists j :: 0 <= j < |parts| && Labelled(parts[j].level) == c)
      && Rank(a) <= Rank(c) && forall j :: 0 <= j < |parts| ==> Rank(Labelled(parts[j].level)) <= Rank(c)
  {
    if parts != [] {
      var n := |parts| - 1;
      PartsHighest(a, parts[..n]);
      var c := RaisedBy(a, parts[..n]);
      forall j | 0 <= j < |parts| ensures Rank(Labelled(parts[j].level)) <= Rank(RaisedBy(a, parts)) {
        if j < n { assert parts[..n][j] == parts[j]; }
      }
      if RaisedBy(a, parts) != c { assert Labelled(parts[n].level) == RaisedBy(a, parts); }
      else if c != a {
        var j :| 0 <= j < n && Labelled(parts[..n][j].level) == c;
        assert Labelled(parts[j].level) == c;
      }
    }
  }

  lemma {:induction false} MessagesHighest(a: Class, messages: seq<Message>)
    ensures var c := RaisedByAll(a, messages);
      (c == a || SaidAt(messages, c)) && Rank(a) <= Rank(c) && forall d :: SaidAt(messages, d) ==> Rank(d) <= Rank(c)
  {
    hide Labelled, Rank, RaisedBy;
    if messages != [] {
      var n := |messages| - 1;
      var init, last := messages[..n], messages[n];
      var b, c := RaisedByAll(a, init), RaisedByAll(a, messages);
      MessagesHighest(a, init);
      PartsHighest(b, last.content);
      forall d | SaidAt(messages, d) ensures Rank(d) <= Rank(c) {
        var i, j :| 0 <= i < |messages| && 0 <= j < |messages[i].content| && Labelled(messages[i].content[j].level) == d;
        if i < n { assert init[i] == messages[i] && SaidAt(init, d); }
      }
      if c == b && c != a {
        var i, j :| 0 <= i < n && 0 <= j < |init[i].content| && Labelled(init[i].content[j].level) == c;
        assert messages[i] == init[i];
      }
    }
  }

  /** A loop event is recorded at the highest level of the request, of what the model or the tool put out, and of the message. */
  lemma LoopEntryLevel(r: Request, l: LoopEvent)
    ensures var c := LoopEntry(r, l).record.level; Enters(r, l, c) && forall d :: Enters(r, l, d) ==> Rank(d) <= Rank(c)
  {
    if l.message.Some? {
      var m := l.message.value;
      var c := LoopLevel(r, l.(message := None));
      PartsHighest(c, m.content);
      assert LoopLevel(r, l) == RaisedBy(c, m.content);
      forall j | 0 <= j < |m.content| ensures SaidAt([m], Labelled(m.content[j].level)) { assert [m][0] == m; }
    }
  }

  /**
   The final batch reports the loop's result with the summaries' calls and usage, at the highest level of the request and of
   everything said, and ends the step the way it ends the workload.
   */
  lemma ClosingReports(p: Proc, failure: string, state: WorkloadState)
    requires Terminal(state)
    ensures var ps := Closing(p, failure, state);
      && |ps| == 3 && ps[0].ExecutionRecorded? && ps[0].record.stage == FinishedStage && ps[0].record.failureCode == failure
      && ps[0].record.result.Some?
      && var c := ps[0].record.result.value;
      && c.messages == p.result.messages && c.stop == p.result.stop && c.failures == p.result.failures
      && c.toolCalls == p.result.toolCalls && c.modelCalls == p.result.modelCalls + p.run.extraCalls
      && c.budgetExceeded ==
           (if p.run.budgetDimension == NoDimension then p.result.budgetExceeded else DimensionName(p.run.budgetDimension))
      && SpendOf(c.usage) == Plus(SpendOf(p.result.usage), SpendOf(p.run.compactionUsage))
      && ps[1].StepTransitioned? && ps[2].WorkloadTransitioned? && ps[2].toWorkload == state
      && (ps[1].toStep == SSucceeded <==> state == WSucceeded) && (ps[1].toStep == SFailed <==> state == WFailed)
      && (ps[1].toStep == SCancelled <==> state == WCancelled)
    ensures var d := Closing(p, failure, state)[0].record.level;
      && (d == p.request.level || SaidAt(p.result.messages, d)) && Rank(p.request.level) <= Rank(d)
      && forall e :: SaidAt(p.result.messages, e) ==> Rank(e) <= Rank(d)
  {
    hide SaidAt, RaisedByAll, DimensionName;
    MessagesHighest(p.request.level, p.result.messages);
  }

  /** The terminal event a runner writes: cancelled when it was, unknown when it failed or no model said why, else the model's reason. */
  lemma StopTells(s: State, pid: nat, p: Proc, failed: bool, cancelled: bool, code: string, how: How)
    requires p.pc.Stopping? && !p.muted
    ensures var s' := DoStop(s, pid, p, failed, cancelled, code, how);
      s'.log == s.log ||
      (exists l: LoopEvent ::
         && s'.log == s.log + [Seal(p.request, |s.log| + 1, LoopEntry(p.request, l))]
         && l.kind == LoopStopped && l.failureCode == code && l.turn == p.turn && l.sequence == p.emitted + 1
         && l.stop == if cancelled then Cancelled else if failed || p.result.stop == NoStop then UnknownStop else p.result.stop)
  {
    var stop := if cancelled then Cancelled else if failed || p.result.stop == NoStop then UnknownStop else p.result.stop;
    var l := Utter(p, LoopStopped).(stop := stop, failureCode := code);
    AppendOutcome(p.request, p.run, s.log, [LoopEntry(p.request, l)], how);
    assert Sealed(p.request, |s.log|, [LoopEntry(p.request, l)]) == [Seal(p.request, |s.log| + 1, LoopEntry(p.request, l))];
  }
}
