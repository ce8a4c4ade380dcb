/**
 The protocol every model stream follows, as the validator checks it event by
 event (provider.go) and as a property of the whole stream.
 */
module StreamProtocol {
  import opened Types

  datatype Progress = Progress(lastSequence: nat, started: bool, terminal: bool)
  const UNSTARTED := Progress(0, false, false)

  predicate IsTerminal(e: ModelEvent) {
    e.kind == StopEvent || e.kind == ErrorEvent
  }

  /** Accept: the validator's state after an event, and whether the event was accepted. */
  function Accepted(env: Env, v: Progress, e: ModelEvent): (Progress, bool) {
    if v.terminal || !ValidModelEvent(env, e) then (v, false)
    else if v.started == (e.kind == StartEvent) then (v, false)
    else if e.sequence != v.lastSequence + 1 then (v.(started := true), false)
    else (Progress(e.sequence, true, IsTerminal(e)), true)
  }

  /** The state after accepting every event of a stream, or nothing when one is rejected. */
  function AcceptAll(env: Env, es: seq<ModelEvent>): Option<Progress> {
    if es == [] then Some(UNSTARTED)
    else
      var before := AcceptAll(env, es[..|es| - 1]);
      if before.None? then None
      else
        var (v, ok) := Accepted(env, before.value, es[|es| - 1]);
        if ok then Some(v) else None
  }

  predicate Complete(v: Progress) {
    v.started && v.terminal
  }

  /** The protocol as one statement: numbered from one, one start at the head, no event after a terminal one. */
  predicate WellFormed(env: Env, es: seq<ModelEvent>) {
    forall i :: 0 <= i < |es| ==>
      && ValidModelEvent(env, es[i]) && es[i].sequence == i + 1 && (es[i].kind == StartEvent <==> i == 0)
      && (IsTerminal(es[i]) ==> i == |es| - 1)
  }

  lemma {:induction false} AcceptedIffWellFormed(env: Env, es: seq<ModelEvent>)
    ensures AcceptAll(env, es).Some? <==> WellFormed(env, es)
    ensures AcceptAll(env, es).Some? ==>
      AcceptAll(env, es).value == Progress(|es|, es != [], es != [] && IsTerminal(es[|es| - 1]))
  {
    hide ValidModelEvent;
    if es != [] {
      var init, last := es[..|es| - 1], es[|es| - 1];
      AcceptedIffWellFormed(env, init);
      if WellFormed(env, es) {
        forall i | 0 <= i < |init|
          ensures init[i] == es[i] && !IsTerminal(init[i])
        {
        }
      }
      if AcceptAll(env, es).Some? {
        assert forall i :: 0 <= i < |init| ==> init[i] == es[i];
        if init != [] { assert !IsTerminal(init[|init| - 1]); }
      }
    }
  }

  lemma AcceptNone(env: Env)
    ensures AcceptAll(env, []) == Some(UNSTARTED) && WellFormed(env, [])
  {
  }

  lemma AcceptSnoc(env: Env, es: seq<ModelEvent>, e: ModelEvent)
    requires AcceptAll(env, es).Some? && AcceptAll(env, es + [e]).Some?
    ensures Accepted(env, AcceptAll(env, es).value, e) == (AcceptAll(env, es + [e]).value, true)
  {
    assert (es + [e])[..|es|] == es;
  }

  /** A stream that the validator lets end is well formed and ends with its one terminal event. */
  lemma CompleteEndsTerminal(env: Env, es: seq<ModelEvent>)
    requires AcceptAll(env, es).Some?
    ensures Complete(AcceptAll(env, es).value) <==> es != [] && IsTerminal(es[|es| - 1])
  {
    AcceptedIffWellFormed(env, es);
  }

  /** The validator object the loop and the drain helper feed. */
  class ModelStreamValidator {
    var lastSequence: nat
    var started: bool
    var terminal: bool

    function State(): Progress
      reads this
    {
      Progress(lastSequence, started, terminal)
    }

    constructor ()
      ensures State() == UNSTARTED
    {
      lastSequence, started, terminal := 0, false, false;
    }

    method Accept(env: Env, e: ModelEvent) returns (ok: bool)
      modifies this
      ensures (State(), ok) == Accepted(env, old(State()), e)
    {
      if terminal { return false; }
      if !ValidModelEvent(env, e) { return false; }
      if !started {
        if e.kind != StartEvent { return false; }
        started := true;
      } else if e.kind == StartEvent {
        return false;
      }
      if e.sequence != lastSequence + 1 { return false; }
      lastSequence := e.sequence;
      terminal := e.kind == StopEvent || e.kind == ErrorEvent;
      return true;
    }
  }

  // ---- What a stream carries -------------------------------------------------

  function TextOf(es: seq<ModelEvent>): string {
    if es == [] then "" else TextOf(es[..|es| - 1]) + es[|es| - 1].text
  }

  function UsageOf(es: seq<ModelEvent>): Usage {
    if es == [] then NO_USAGE
    else
      var e := es[|es| - 1];
      if e.usage.Some? then PlusUsage(UsageOf(es[..|es| - 1]), e.usage.value) else UsageOf(es[..|es| - 1])
  }

  function CallsOf(es: seq<ModelEvent>): seq<ToolCall> {
    if es == [] then []
    else
      var e := es[|es| - 1];
      if e.call.Some? then CallsOf(es[..|es| - 1]) + [e.call.value] else CallsOf(es[..|es| - 1])
  }

  function DeltasOf(es: seq<ModelEvent>): seq<ToolCallDelta> {
    if es == [] then []
    else
      var e := es[|es| - 1];
      if e.delta.Some? then DeltasOf(es[..|es| - 1]) + [e.delta.value] else DeltasOf(es[..|es| - 1])
  }

  lemma CarriesMore(es: seq<ModelEvent>, e: ModelEvent)
    ensures TextOf(es + [e]) == TextOf(es) + e.text
    ensures UsageOf(es + [e]) == if e.usage.Some? then PlusUsage(UsageOf(es), e.usage.value) else UsageOf(es)
    ensures CallsOf(es + [e]) == if e.call.Some? then CallsOf(es) + [e.call.value] else CallsOf(es)
    ensures DeltasOf(es + [e]) == if e.delta.Some? then DeltasOf(es) + [e.delta.value] else DeltasOf(es)
  {
    assert (es + [e])[..|es|] == es;
  }

  /** How draining a stream ends: at EOF, at a Recv error, or because the validator objected. */
  datatype Ending = Ended | Broken | Violated

  /** What a Recv call gives back. */
  datatype Received = Next(event: ModelEvent) | EOF | Failed

  /** The events are numbered from one, the start is first and only first, and a terminal event is last. */
  predicate Framed(es: seq<ModelEvent>, started: bool, done: bool) {
    && started == (es != [])
    && (forall i :: 0 <= i < |es| ==>
          && es[i].sequence == i + 1 && (es[i].kind == StartEvent <==> i == 0)
          && (IsTerminal(es[i]) ==> i == |es| - 1))
    && done == (es != [] && IsTerminal(es[|es| - 1]))
  }

  lemma FramedFlags(es: seq<ModelEvent>, started: bool, done: bool)
    requires Framed(es, started, done)
    ensures started == (es != [])
  {
  }

  /** The queue is the part of the enqueued events not yet handed out. */
  predicate Queued(queue: seq<ModelEvent>, sent: seq<ModelEvent>, sequence: nat) {
    |queue| <= |sent| && queue == sent[|sent| - |queue|..] && sequence == |sent|
  }

  /** The first n events are valid. */
  predicate Checked(env: Env, sent: seq<ModelEvent>, n: int) {
    n <= |sent| && forall i :: 0 <= i < n ==> ValidModelEvent(env, sent[i])
  }

  /** seen is the set of completed call identifiers, and no identifier was completed twice. */
  ghost predicate CallsSeen(seen: set<string>, calls: seq<ToolCall>) {
    && (forall id :: id in seen <==> exists k :: 0 <= k < |calls| && calls[k].id == id)
    && (forall j, k :: 0 <= j < k < |calls| ==> calls[j].id != calls[k].id)
  }

  lemma CallsSeenMore(seen: set<string>, calls: seq<ToolCall>, c: ToolCall)
    requires CallsSeen(seen, calls) && c.id !in seen
    ensures CallsSeen(seen + {c.id}, calls + [c])
  {
    var calls', seen' := calls + [c], seen + {c.id};
    forall id ensures id in seen' <==> exists k :: 0 <= k < |calls'| && calls'[k].id == id {
      if id in seen {
        var k :| 0 <= k < |calls| && calls[k].id == id;
        assert calls'[k].id == id;
      } else if id == c.id {
        assert calls'[|calls|].id == id;
      }
    }
  }

  lemma QueuedMore(env: Env, queue: seq<ModelEvent>, sent: seq<ModelEvent>, e: ModelEvent)
    requires Queued(queue, sent, |sent|)
    ensures Queued(queue + [e], sent + [e], |sent| + 1)
    ensures Checked(env, sent, |sent| - |queue|) ==> Checked(env, sent + [e], |sent| - |queue|)
  {
    hide ValidModelEvent;
  }

  lemma QueuedLess(env: Env, queue: seq<ModelEvent>, sent: seq<ModelEvent>)
    requires Queued(queue, sent, |sent|) && queue != []
    ensures queue[0] == sent[|sent| - |queue|] && Queued(queue[1..], sent, |sent|)
    ensures Checked(env, sent, |sent| - |queue|) && ValidModelEvent(env, queue[0]) ==> Checked(env, sent, |sent| - |queue| + 1)
  {
    hide ValidModelEvent;
  }

  lemma FramedMore(es: seq<ModelEvent>, e: ModelEvent)
    requires Framed(es, es != [], false) && e.sequence == |es| + 1 && (e.kind == StartEvent <==> es == [])
    ensures Framed(es + [e], true, IsTerminal(e))
  {
  }

  /** A framed stream whose first n events are valid: those events are a well-formed stream. */
  lemma FramedPrefix(env: Env, es: seq<ModelEvent>, started: bool, done: bool, n: nat)
    requires Framed(es, started, done) && n <= |es|
    requires forall i :: 0 <= i < n ==> ValidModelEvent(env, es[i])
    ensures WellFormed(env, es[..n]) && AcceptAll(env, es[..n]).Some?
    ensures n == |es| ==> (Complete(AcceptAll(env, es[..n]).value) <==> done)
  {
    hide ValidModelEvent;
    AcceptedIffWellFormed(env, es[..n]);
    assert n == |es| ==> es[..n] == es;
  }

  // ---- Events waiting to be handed out ------------------------------------------

  const PROVIDER_ERROR := ModelError("provider_error", "provider reported an error")

  /** The event that reports a provider's failure, whatever it said. */
  function Failure(): ModelEvent {
    Bare(ErrorEvent).(error := Some(PROVIDER_ERROR))
  }

  lemma FailureShape()
    ensures var e := Failure(); e.kind == ErrorEvent && e.text == "" && e.delta.None? && e.call.None? && e.usage.None?
  {
  }

  lemma TerminalEvents()
    ensures IsTerminal(Failure()) && !IsTerminal(Bare(StartEvent))
    ensures forall s :: IsTerminal(Bare(StopEvent).(stop := s))
  {
  }

  /** Every event waiting to be handed out is valid. */
  predicate Fit(env: Env, queue: seq<ModelEvent>) {
    forall i :: 0 <= i < |queue| ==> ValidModelEvent(env, queue[i])
  }

  lemma NothingFits(env: Env)
    ensures Fit(env, [])
  {
  }

  lemma FitMore(env: Env, queue: seq<ModelEvent>, e: ModelEvent, n: nat)
    ensures Fit(env, queue) && ValidModelEvent(env, e.(sequence := 1)) ==> Fit(env, queue + [e.(sequence := n + 1)])
  {
    hide ValidUsage, ValidCall, ValidDelta, Clean, Blank, ValidStop;
    assert ValidModelEvent(env, e.(sequence := 1)) ==> ValidModelEvent(env, e.(sequence := n + 1));
  }

  lemma FitLess(env: Env, queue: seq<ModelEvent>)
    requires queue != []
    ensures Fit(env, queue) ==> Fit(env, queue[1..]) && ValidModelEvent(env, queue[0])
  {
    hide ValidModelEvent;
  }

  /** What is said when a message starts, and of text, tools, usage, errors and stops, is valid. */
  lemma EventsFit(env: Env)
    ensures ValidModelEvent(env, Bare(StartEvent).(sequence := 1))
    ensures ValidModelEvent(env, Failure().(sequence := 1))
  {
    assert !IsSpace(PROVIDER_ERROR.message[0]);
  }

  lemma TextFits(env: Env, text: string)
    requires text != ""
    ensures ValidModelEvent(env, Bare(TextDeltaEvent).(sequence := 1, text := text))
  {
  }

  /** A fragment is valid exactly when its names are clean. */
  lemma DeltaFits(env: Env, d: ToolCallDelta, n: nat)
    requires d.index >= 0 && (d.id != "" || d.name != "" || d.input != "")
    ensures ValidModelEvent(env, Bare(ToolCallDeltaEvent).(sequence := 1, delta := Some(d))) <==>
            (d.id != "" ==> Clean(d.id)) && (d.name != "" ==> Clean(d.name))
    ensures ValidModelEvent(env, Bare(ToolCallDeltaEvent).(sequence := n + 1, delta := Some(d))) <==>
            (d.id != "" ==> Clean(d.id)) && (d.name != "" ==> Clean(d.name))
  {
  }

  lemma CallFits(env: Env, c: ToolCall)
    requires ValidCall(env, c)
    ensures ValidModelEvent(env, Bare(ToolCallEvent).(sequence := 1, call := Some(c)))
  {
    hide ValidCall;
  }

  lemma UsageFits(env: Env, u: Usage)
    requires ValidUsage(u)
    ensures ValidModelEvent(env, Bare(UsageEvent).(sequence := 1, usage := Some(u)))
  {
  }

  lemma StopFits(env: Env, s: StopReason)
    requires ValidStop(s)
    ensures ValidModelEvent(env, Bare(StopEvent).(sequence := 1, stop := s))
  {
  }

  /** sent' says what sent said, and then e. */
  predicate Adds(sent: seq<ModelEvent>, sent': seq<ModelEvent>, e: ModelEvent) {
    && TextOf(sent') == TextOf(sent) + e.text
    && UsageOf(sent') == (if e.usage.Some? then PlusUsage(UsageOf(sent), e.usage.value) else UsageOf(sent))
    && CallsOf(sent') == (if e.call.Some? then CallsOf(sent) + [e.call.value] else CallsOf(sent))
    && DeltasOf(sent') == (if e.delta.Some? then DeltasOf(sent) + [e.delta.value] else DeltasOf(sent))
  }

  /** An event at the end of what was said, and of what is to be handed out. */
  lemma Enqueued(env: Env, queue: seq<ModelEvent>, sent: seq<ModelEvent>, sequence: nat, e: ModelEvent)
    requires Queued(queue, sent, sequence) && Checked(env, sent, |sent| - |queue|)
    requires Framed(sent, sent != [], false) && (e.kind == StartEvent <==> sent == [])
    ensures sequence == |sent|
    ensures var stamped := e.(sequence := sequence + 1);
      var queue', sent' := queue + [stamped], sent + [stamped];
      && Queued(queue', sent', sequence + 1) && Checked(env, sent', |sent'| - |queue'|) && Framed(sent', true, IsTerminal(e))
      && Adds(sent, sent', e)
      && (Fit(env, queue) && ValidModelEvent(env, e.(sequence := 1)) ==> Fit(env, queue'))
  {
    hide ValidModelEvent, Framed, Checked, Fit, TextOf, UsageOf, CallsOf, DeltasOf;
    var stamped := e.(sequence := sequence + 1);
    assert IsTerminal(stamped) == IsTerminal(e);
    CarriesMore(sent, stamped);
    FramedMore(sent, stamped);
    QueuedMore(env, queue, sent, stamped);
    FitMore(env, queue, e, sequence);
  }
}
