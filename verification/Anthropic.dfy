/**
 The Anthropic Messages adapter: decoded server-sent frames in, model events out
 (provider/anthropic/stream.go).
 */
module Anthropic {
  import opened Types
  import opened StreamProtocol

  datatype FrameKind = Ping | ErrorFrame | MessageStart | BlockStart | BlockDelta | BlockStop | MessageDelta
                     | MessageStop | OtherFrame(name: string) | NoKind

  datatype WireUsage = WireUsage(input: Option<int>, output: Option<int>, cacheRead: Option<int>, cacheWrite: Option<int>)
  datatype BlockKind = TextBlock | ToolUseBlock | OtherBlock
  datatype Block = Block(kind: BlockKind, text: string, id: string, name: string, input: string)
  datatype DeltaKind = TextDelta | InputJSONDelta | OtherDelta
  datatype Delta = Delta(kind: DeltaKind, text: string, partialJSON: string, stopReason: Option<string>)

  datatype Envelope = Envelope(
    kind: FrameKind, index: int, message: Option<WireUsage>, block: Option<Block>, delta: Option<Delta>,
    usage: Option<WireUsage>)

  /** What the frame reader yields: a named envelope (none when its JSON is malformed), no data, or a failure. */
  datatype Input = Frame(name: FrameKind, envelope: Option<Envelope>) | NoData | ReadFailure

  function NormalizeStop(reason: string): (s: StopReason)
    ensures ValidStop(s)
  {
    if reason in ["end_turn", "stop_sequence", "pause_turn"] then EndTurn
    else if reason == "tool_use" then ToolUse
    else if reason in ["max_tokens", "model_context_window_exceeded"] then MaxTokens
    else if reason == "refusal" then Refusal
    else UnknownStop
  }

  /** The loop runs tools after exactly one reason, and what is not known is never taken for a finished turn. */
  lemma StopsMean(reason: string)
    ensures var s := NormalizeStop(reason);
      && (s == ToolUse <==> reason == "tool_use")
      && (s == EndTurn <==> reason == "end_turn" || reason == "stop_sequence" || reason == "pause_turn")
      && (s == MaxTokens <==> reason == "max_tokens" || reason == "model_context_window_exceeded")
      && (s == Refusal <==> reason == "refusal") && s != Cancelled
  {
  }

  // ---- What a sequence of frames says --------------------------------------------

  predicate Is(f: Input, kind: FrameKind) {
    f.Frame? && f.envelope.Some? && f.envelope.value.kind == kind
  }

  /** A cumulative report replaces the totals it names. */
  function Reported(total: Usage, w: WireUsage): Usage {
    Usage(if w.input.Some? then w.input.value else total.input,
          if w.output.Some? then w.output.value else total.output,
          if w.cacheRead.Some? then w.cacheRead.value else total.cacheRead,
          if w.cacheWrite.Some? then w.cacheWrite.value else total.cacheWrite, 0)
  }

  function FrameTotals(total: Usage, f: Input): Usage {
    if Is(f, MessageStart) && f.envelope.value.message.Some? then Reported(total, f.envelope.value.message.value)
    else if Is(f, MessageDelta) && f.envelope.value.usage.Some? then Reported(total, f.envelope.value.usage.value)
    else total
  }

  /** The cumulative usage the frames last reported. */
  function TotalsIn(h: seq<Input>): Usage {
    if h == [] then NO_USAGE else FrameTotals(TotalsIn(h[..|h| - 1]), h[|h| - 1])
  }

  function FrameText(f: Input): string {
    if Is(f, BlockStart) && f.envelope.value.block.Some? && f.envelope.value.block.value.kind == TextBlock then
      f.envelope.value.block.value.text
    else if Is(f, BlockDelta) && f.envelope.value.delta.Some? && f.envelope.value.delta.value.kind == TextDelta then
      f.envelope.value.delta.value.text
    else ""
  }

  /** The text of the frames, in order. */
  function TextIn(h: seq<Input>): string {
    if h == [] then "" else TextIn(h[..|h| - 1]) + FrameText(h[|h| - 1])
  }

  /** How many content blocks the frames opened. */
  function BlocksIn(h: seq<Input>): nat {
    if h == [] then 0 else BlocksIn(h[..|h| - 1]) + if Is(h[|h| - 1], BlockStart) then 1 else 0
  }

  datatype OpenBlock = OpenBlock(index: int, kind: BlockKind, id: string, name: string, input: string)

  function InitialInput(b: Block): string {
    if b.kind == ToolUseBlock && b.input != "{}" then b.input else ""
  }

  function FrameOpen(open: Option<OpenBlock>, f: Input): Option<OpenBlock> {
    if Is(f, BlockStart) && f.envelope.value.block.Some? then
      var b := f.envelope.value.block.value;
      Some(OpenBlock(f.envelope.value.index, b.kind, b.id, b.name, InitialInput(b)))
    else if Is(f, BlockDelta) && open.Some? && f.envelope.value.delta.Some? && f.envelope.value.delta.value.kind == InputJSONDelta then
      Some(open.value.(input := open.value.input + f.envelope.value.delta.value.partialJSON))
    else if Is(f, BlockStop) then None
    else open
  }

  /** The content block the frames left open, with the tool input they gave it so far. */
  function OpenIn(h: seq<Input>): Option<OpenBlock> {
    if h == [] then None else FrameOpen(OpenIn(h[..|h| - 1]), h[|h| - 1])
  }

  /** A tool called with no input at all is called with the empty object. */
  function CompletedInput(input: string): string {
    if input == "" then "{}" else input
  }

  function CallIn(o: OpenBlock): ToolCall {
    ToolCall(o.id, o.name, CompletedInput(o.input))
  }

  function FrameCalls(open: Option<OpenBlock>, f: Input): seq<ToolCall> {
    if Is(f, BlockStop) && open.Some? && open.value.kind == ToolUseBlock then [CallIn(open.value)] else []
  }

  /** The tool calls the frames completed. */
  function CallsIn(h: seq<Input>): seq<ToolCall> {
    if h == [] then [] else CallsIn(h[..|h| - 1]) + FrameCalls(OpenIn(h[..|h| - 1]), h[|h| - 1])
  }

  function FrameDeltas(f: Input): seq<ToolCallDelta> {
    if Is(f, BlockStart) && f.envelope.value.block.Some? && f.envelope.value.block.value.kind == ToolUseBlock then
      var b := f.envelope.value.block.value;
      [ToolCallDelta(f.envelope.value.index, b.id, b.name, "")]
    else if Is(f, BlockDelta) && f.envelope.value.delta.Some? && f.envelope.value.delta.value.kind == InputJSONDelta then
      [ToolCallDelta(f.envelope.value.index, "", "", f.envelope.value.delta.value.partialJSON)]
    else []
  }

  /** The tool-call fragments of the frames. */
  function DeltasIn(h: seq<Input>): seq<ToolCallDelta> {
    if h == [] then [] else DeltasIn(h[..|h| - 1]) + FrameDeltas(h[|h| - 1])
  }

  /** What one more frame adds. */
  lemma Says(h: seq<Input>, f: Input)
    ensures TextIn(h + [f]) == TextIn(h) + FrameText(f) && TotalsIn(h + [f]) == FrameTotals(TotalsIn(h), f)
    ensures OpenIn(h + [f]) == FrameOpen(OpenIn(h), f) && CallsIn(h + [f]) == CallsIn(h) + FrameCalls(OpenIn(h), f)
    ensures DeltasIn(h + [f]) == DeltasIn(h) + FrameDeltas(f)
    ensures BlocksIn(h + [f]) == BlocksIn(h) + if Is(f, BlockStart) then 1 else 0
  {
    assert (h + [f])[..|h|] == h;
  }

  /** A frame without content. */
  lemma SaysNothing(blocks: map<int, BlockState>, nextBlock: int, h: seq<Input>, f: Input)
    requires f == NoData || Is(f, Ping) || Is(f, ErrorFrame) || Is(f, MessageStop) || (Is(f, MessageDelta) && f.envelope.value.usage.None?)
    ensures TextIn(h + [f]) == TextIn(h) && TotalsIn(h + [f]) == TotalsIn(h) && CallsIn(h + [f]) == CallsIn(h) && DeltasIn(h + [f]) == DeltasIn(h)
    ensures BlocksMatch(blocks, nextBlock, h) ==> BlocksMatch(blocks, nextBlock, h + [f])
  {
    hide TextIn, TotalsIn, CallsIn, DeltasIn, OpenIn, BlocksIn;
    Says(h, f);
  }

  /** A usage report. */
  lemma SaysTotals(blocks: map<int, BlockState>, nextBlock: int, h: seq<Input>, f: Input, w: WireUsage)
    requires (Is(f, MessageStart) && f.envelope.value.message == Some(w)) || (Is(f, MessageDelta) && f.envelope.value.usage == Some(w))
    ensures TextIn(h + [f]) == TextIn(h) && CallsIn(h + [f]) == CallsIn(h) && DeltasIn(h + [f]) == DeltasIn(h)
    ensures TotalsIn(h + [f]) == Reported(TotalsIn(h), w)
    ensures BlocksMatch(blocks, nextBlock, h) ==> BlocksMatch(blocks, nextBlock, h + [f])
  {
    hide TextIn, TotalsIn, CallsIn, DeltasIn, OpenIn, BlocksIn, Reported;
    Says(h, f);
  }

  /** A new block. */
  lemma SaysBegin(nextBlock: int, h: seq<Input>, f: Input)
    requires Is(f, BlockStart) && f.envelope.value.block.Some? && f.envelope.value.index == nextBlock && BlocksMatch(map[], nextBlock, h)
    requires f.envelope.value.block.value.kind != OtherBlock
    ensures var b := f.envelope.value.block.value;
      var text := b.kind == TextBlock;
      && TextIn(h + [f]) == TextIn(h) + (if text then b.text else "") && TotalsIn(h + [f]) == TotalsIn(h) && CallsIn(h + [f]) == CallsIn(h)
      && DeltasIn(h + [f]) == DeltasIn(h) + (if text then [] else [ToolCallDelta(nextBlock, b.id, b.name, "")])
      && BlocksMatch(map[nextBlock := BlockState(b.kind, b.id, b.name, InitialInput(b))], nextBlock + 1, h + [f]) && nextBlock >= 0
  {
    hide TextIn, TotalsIn, CallsIn, DeltasIn, OpenIn, BlocksIn, InitialInput;
    Says(h, f);
  }

  /** A fragment of the open block. */
  lemma SaysFragment(blocks: map<int, BlockState>, nextBlock: int, h: seq<Input>, f: Input)
    requires Is(f, BlockDelta) && f.envelope.value.delta.Some? && f.envelope.value.index in blocks && BlocksMatch(blocks, nextBlock, h)
    requires f.envelope.value.delta.value.kind != OtherDelta
    ensures var d, i := f.envelope.value.delta.value, f.envelope.value.index;
      var text := d.kind == TextDelta;
      && TextIn(h + [f]) == TextIn(h) + (if text then d.text else "") && TotalsIn(h + [f]) == TotalsIn(h) && CallsIn(h + [f]) == CallsIn(h)
      && DeltasIn(h + [f]) == DeltasIn(h) + (if text then [] else [ToolCallDelta(i, "", "", d.partialJSON)])
      && BlocksMatch(if text then blocks else blocks[i := blocks[i].(input := blocks[i].input + d.partialJSON)], nextBlock, h + [f]) && i >= 0
  {
    hide TextIn, TotalsIn, CallsIn, DeltasIn, OpenIn, BlocksIn;
    Says(h, f);
  }

  /** The end of the open block. */
  lemma SaysEnd(blocks: map<int, BlockState>, nextBlock: int, h: seq<Input>, f: Input)
    requires Is(f, BlockStop) && f.envelope.value.index in blocks && BlocksMatch(blocks, nextBlock, h)
    ensures var b := blocks[f.envelope.value.index];
      && TextIn(h + [f]) == TextIn(h) && TotalsIn(h + [f]) == TotalsIn(h) && DeltasIn(h + [f]) == DeltasIn(h)
      && CallsIn(h + [f]) == CallsIn(h) + (if b.kind == ToolUseBlock then [ToolCall(b.id, b.name, CompletedInput(b.input))] else [])
      && BlocksMatch(blocks - {f.envelope.value.index}, nextBlock, h + [f])
  {
    hide TextIn, TotalsIn, CallsIn, DeltasIn, OpenIn, BlocksIn, CompletedInput;
    Says(h, f);
  }

  // ---- Which frame may come next ------------------------------------------------------

  /** The message has started. */
  predicate StartedIn(h: seq<Input>) {
    h != [] && (StartedIn(h[..|h| - 1]) || Is(h[|h| - 1], MessageStart))
  }

  /** The message is closing: a stop reason has been announced. */
  predicate ClosingIn(h: seq<Input>) {
    h != [] && (ClosingIn(h[..|h| - 1]) || Is(h[|h| - 1], MessageDelta))
  }

  /** The stop reason last announced. */
  function ReasonIn(h: seq<Input>): string {
    if h == [] then ""
    else
      var f := h[|h| - 1];
      if Is(f, MessageDelta) && f.envelope.value.delta.Some? && f.envelope.value.delta.value.stopReason.Some? then
        f.envelope.value.delta.value.stopReason.value
      else ReasonIn(h[..|h| - 1])
  }

  predicate Terminal(f: Input) {
    Is(f, MessageStop) || Is(f, ErrorFrame)
  }

  predicate Terminated(h: seq<Input>) {
    h != [] && Terminal(h[|h| - 1])
  }

  /** A usage report that lowers no total. */
  predicate Grows(total: Usage, w: WireUsage) {
    var next := Reported(total, w);
    total.input <= next.input && total.output <= next.output && total.cacheRead <= next.cacheRead && total.cacheWrite <= next.cacheWrite
  }

  /** After the frames h this frame is accepted. */
  predicate Takes(env: Env, h: seq<Input>, f: Input) {
    f.Frame? && f.envelope.Some? && f.envelope.value.kind != NoKind && f.name == f.envelope.value.kind &&
    var e, open := f.envelope.value, OpenIn(h);
    var writing := StartedIn(h) && !ClosingIn(h);
    match e.kind
    case Ping => true
    case ErrorFrame => true
    case MessageStart => !StartedIn(h) && e.message.Some? && Grows(TotalsIn(h), e.message.value)
    case BlockStart =>
      && writing && open.None? && e.block.Some? && e.index == BlocksIn(h)
      && (e.block.value.kind == TextBlock || (e.block.value.kind == ToolUseBlock && e.block.value.id != "" && e.block.value.name != ""))
    case BlockDelta =>
      && writing && open.Some? && e.index == open.value.index && e.delta.Some?
      && ((e.delta.value.kind == TextDelta && open.value.kind == TextBlock && e.delta.value.text != "")
          || (e.delta.value.kind == InputJSONDelta && open.value.kind == ToolUseBlock && e.delta.value.partialJSON != ""))
    case BlockStop =>
      && writing && open.Some? && e.index == open.value.index
      && (open.value.kind == ToolUseBlock ==>
            ValidCall(env, CallIn(open.value)) && forall k :: 0 <= k < |CallsIn(h)| ==> CallsIn(h)[k].id != open.value.id)
    case MessageDelta =>
      && StartedIn(h) && open.None? && e.delta.Some? && e.delta.value.stopReason.Some?
      && (ReasonIn(h) == "" || ReasonIn(h) == e.delta.value.stopReason.value)
      && (e.usage.Some? ==> Grows(TotalsIn(h), e.usage.value))
    case MessageStop => StartedIn(h) && open.None? && ReasonIn(h) != ""
    case _ => false
  }

  /** A tool block whose names can be handed on. */
  predicate Sound(f: Input) {
    Is(f, BlockStart) && f.envelope.value.block.Some? && f.envelope.value.block.value.kind == ToolUseBlock ==>
      Clean(f.envelope.value.block.value.id) && Clean(f.envelope.value.block.value.name)
  }

  predicate Follows(env: Env, h: seq<Input>, f: Input) {
    !Terminated(h) && (f == NoData || (Takes(env, h, f) && Sound(f)))
  }

  /** Every frame follows the ones before it. */
  ghost predicate Viable(env: Env, h: seq<Input>) {
    forall i :: 0 <= i < |h| ==> Follows(env, h[..i], h[i])
  }

  /** The first n frames are a whole stream: every frame follows, and the last one ends it. */
  ghost predicate Finishes(env: Env, frames: seq<Input>, n: nat) {
    n <= |frames| && Viable(env, frames[..n]) && Terminated(frames[..n])
  }

  lemma ViableMore(env: Env, h: seq<Input>, f: Input)
    ensures Viable(env, h + [f]) <==> Viable(env, h) && Follows(env, h, f)
  {
    hide Follows;
    var g := h + [f];
    forall i | 0 <= i < |h| ensures g[..i] == h[..i] && g[i] == h[i] {
    }
    assert g[..|h|] == h;
    if Viable(env, g) {
      assert Follows(env, g[..|h|], g[|h|]);
      forall i | 0 <= i < |h| ensures Follows(env, h[..i], h[i]) { assert Follows(env, g[..i], g[i]); }
    }
  }

  /** The reader can go no further: the frames end, or the next one does not follow, before the stream has ended. */
  ghost predicate Stuck(env: Env, frames: seq<Input>, n: nat) {
    n <= |frames| && Viable(env, frames[..n]) && !Terminated(frames[..n]) && (n == |frames| || !Follows(env, frames[..n], frames[n]))
  }

  lemma StuckNeverFinishes(env: Env, frames: seq<Input>, n: nat, m: nat)
    requires Stuck(env, frames, n)
    ensures !Finishes(env, frames, m)
  {
    hide Follows;
    if Finishes(env, frames, m) {
      var h := frames[..m];
      if m < n {
        assert frames[..n][..m] == h;
        assert Follows(env, frames[..n][..m], frames[..n][m]);
        NothingAfter(env, h, frames[m]);
      } else if m > n {
        FollowsWithin(env, frames, m, n);
      }
    }
  }

  lemma FollowsWithin(env: Env, frames: seq<Input>, m: nat, n: nat)
    requires n < m <= |frames| && Viable(env, frames[..m])
    ensures Follows(env, frames[..n], frames[n])
  {
    var h := frames[..m];
    assert h[..n] == frames[..n] && Follows(env, h[..n], h[n]);
  }

  lemma NothingAfter(env: Env, h: seq<Input>, f: Input)
    requires Terminated(h)
    ensures !Follows(env, h, f)
  {
  }

  /** The reader's flags are what the frames say. */
  predicate Paced(h: seq<Input>, started: bool, closing: bool, reason: string, done: bool) {
    done == Terminated(h) && (!done ==> started == StartedIn(h) && closing == ClosingIn(h) && reason == ReasonIn(h))
  }

  lemma Paces(h: seq<Input>, f: Input, started: bool, closing: bool, reason: string)
    requires Paced(h, started, closing, reason, false)
    ensures f == NoData || Is(f, Ping) || Is(f, BlockStart) || Is(f, BlockDelta) || Is(f, BlockStop) ==>
      Paced(h + [f], started, closing, reason, false)
    ensures Is(f, MessageStart) ==> Paced(h + [f], true, closing, reason, false)
    ensures Is(f, MessageDelta) && f.envelope.value.delta.Some? && f.envelope.value.delta.value.stopReason.Some? ==>
      Paced(h + [f], started, true, f.envelope.value.delta.value.stopReason.value, false)
  {
    assert (h + [f])[..|h|] == h;
  }

  lemma PacesEnd(h: seq<Input>, f: Input, started: bool, closing: bool, reason: string, started': bool)
    requires Paced(h, started, closing, reason, false) && Terminal(f)
    ensures Paced(h + [f], started', closing, reason, true)
    ensures Is(f, MessageStop) ==> ReasonIn(h + [f]) == reason
  {
    assert (h + [f])[..|h|] == h;
  }

  /** A stopped stream ends with the stop its frames announced, a failed one with an error. */
  predicate Concluded(sent: seq<ModelEvent>, h: seq<Input>) {
    Terminated(h) ==>
      sent != [] &&
      var last := sent[|sent| - 1];
      if Is(h[|h| - 1], MessageStop) then last.kind == StopEvent && last.stop == NormalizeStop(ReasonIn(h)) else last.kind == ErrorEvent
  }

  /** The event that ends a stream is that of the frame that ended it. */
  lemma ConcludedBy(sent: seq<ModelEvent>, h: seq<Input>, f: Input, reason: string)
    requires sent != []
    requires var last := sent[|sent| - 1];
      if Is(f, MessageStop) then last.kind == StopEvent && last.stop == NormalizeStop(reason) && ReasonIn(h + [f]) == reason
      else last.kind == ErrorEvent
    ensures Concluded(sent, h + [f])
  {
  }

  lemma NotConcluded(sent: seq<ModelEvent>, h: seq<Input>, started: bool, closing: bool, reason: string)
    requires Paced(h, started, closing, reason, false)
    ensures Concluded(sent, h)
  {
  }

  /** The events carry exactly what the frames said. */
  predicate Conserves(sent: seq<ModelEvent>, h: seq<Input>) {
    && TextOf(sent) == TextIn(h) && UsageOf(sent) == TotalsIn(h) && CallsOf(sent) == CallsIn(h) && DeltasOf(sent) == DeltasIn(h)
  }

  /** s is what n of the frames came to, and the events are all of it, or all before an event of it that is itself invalid. */
  predicate Halted(env: Env, events: seq<ModelEvent>, frames: seq<Input>, n: nat, s: seq<ModelEvent>) {
    n <= |frames| && Conserves(s, frames[..n]) && events <= s && (s == events || !ValidModelEvent(env, s[|events|]))
  }

  /** A broken stream: everything up to the frame or the event that broke it was delivered. */
  ghost predicate Partial(env: Env, events: seq<ModelEvent>, frames: seq<Input>, read: nat) {
    exists n: nat, s: seq<ModelEvent> :: read - 1 <= n <= read && Halted(env, events, frames, n, s)
  }

  datatype BlockState = BlockState(kind: BlockKind, id: string, name: string, input: string)

  /** At most one block is open, it is the newest, and the blocks are numbered consecutively. */
  ghost predicate BlocksMatch(blocks: map<int, BlockState>, nextBlock: int, h: seq<Input>) {
    && nextBlock == BlocksIn(h)
    && match OpenIn(h)
       case None => blocks == map[]
       case Some(o) => blocks == map[o.index := BlockState(o.kind, o.id, o.name, o.input)] && 0 <= o.index == nextBlock - 1
  }

  /** The frame is accepted in this state of the reader. */
  predicate Admitted(
    env: Env, f: Input, started: bool, closing: bool, reason: string, blocks: map<int, BlockState>, nextBlock: int,
    seen: set<string>, usage: Usage)
  {
    f.Frame? && f.envelope.Some? && f.envelope.value.kind != NoKind && f.name == f.envelope.value.kind &&
    var e := f.envelope.value;
    match e.kind
    case Ping => true
    case ErrorFrame => true
    case MessageStart => !started && !closing && e.message.Some? && Grows(usage, e.message.value)
    case BlockStart =>
      && started && !closing && e.block.Some? && e.index == nextBlock && blocks == map[]
      && (e.block.value.kind == TextBlock || (e.block.value.kind == ToolUseBlock && e.block.value.id != "" && e.block.value.name != ""))
    case BlockDelta =>
      && started && !closing && e.index in blocks && e.delta.Some?
      && ((e.delta.value.kind == TextDelta && blocks[e.index].kind == TextBlock && e.delta.value.text != "")
          || (e.delta.value.kind == InputJSONDelta && blocks[e.index].kind == ToolUseBlock && e.delta.value.partialJSON != ""))
    case BlockStop =>
      && started && !closing && e.index in blocks
      && (blocks[e.index].kind == ToolUseBlock ==>
            && ValidCall(env, ToolCall(blocks[e.index].id, blocks[e.index].name, CompletedInput(blocks[e.index].input)))
            && blocks[e.index].id !in seen)
    case MessageDelta =>
      && started && blocks == map[] && e.delta.Some? && e.delta.value.stopReason.Some?
      && (reason == "" || reason == e.delta.value.stopReason.value) && (e.usage.Some? ==> Grows(usage, e.usage.value))
    case MessageStop => started && blocks == map[] && reason != ""
    case _ => false
  }

  lemma AdmittedBegin(
    env: Env, f: Input, e: Envelope, reason: string, blocks: map<int, BlockState>, nextBlock: int, seen: set<string>, usage: Usage)
    requires f == Frame(BlockStart, Some(e)) && e.kind == BlockStart
    ensures Admitted(env, f, true, false, reason, blocks, nextBlock, seen, usage) <==>
      && e.block.Some? && e.index == nextBlock && blocks == map[]
      && (e.block.value.kind == TextBlock || (e.block.value.kind == ToolUseBlock && e.block.value.id != "" && e.block.value.name != ""))
  {
    hide Grows, ValidCall;
  }

  lemma AdmittedFragment(
    env: Env, f: Input, e: Envelope, reason: string, blocks: map<int, BlockState>, nextBlock: int, seen: set<string>, usage: Usage)
    requires f == Frame(BlockDelta, Some(e)) && e.kind == BlockDelta
    ensures Admitted(env, f, true, false, reason, blocks, nextBlock, seen, usage) <==>
      && e.index in blocks && e.delta.Some?
      && ((e.delta.value.kind == TextDelta && blocks[e.index].kind == TextBlock && e.delta.value.text != "")
          || (e.delta.value.kind == InputJSONDelta && blocks[e.index].kind == ToolUseBlock && e.delta.value.partialJSON != ""))
  {
    hide Grows, ValidCall;
  }

  /** Nothing is announced before the message has started. */
  lemma {:induction false} ClosingStarted(env: Env, h: seq<Input>)
    requires Viable(env, h) && ClosingIn(h)
    ensures StartedIn(h)
  {
    hide OpenIn, BlocksIn, TotalsIn, CallsIn, ReasonIn;
    var init, f := h[..|h| - 1], h[|h| - 1];
    assert h == init + [f];
    ViableMore(env, init, f);
    if ClosingIn(init) { ClosingStarted(env, init); }
  }

  /** What the reader accepts is what may come next. */
  lemma AdmittedIff(
    env: Env, h: seq<Input>, f: Input, started: bool, closing: bool, reason: string, blocks: map<int, BlockState>, nextBlock: int,
    seen: set<string>, usage: Usage)
    requires Viable(env, h) && Paced(h, started, closing, reason, false) && BlocksMatch(blocks, nextBlock, h)
    requires CallsSeen(seen, CallsIn(h)) && usage == TotalsIn(h)
    ensures Admitted(env, f, started, closing, reason, blocks, nextBlock, seen, usage) <==> Takes(env, h, f)
  {
    hide OpenIn, BlocksIn, TotalsIn, CallsIn, ReasonIn, StartedIn, ClosingIn, Viable, Grows, ValidCall, Terminated,
         CompletedInput, CallsSeen;
    if ClosingIn(h) { ClosingStarted(env, h); }
    if OpenIn(h).Some? {
      var o := OpenIn(h).value;
      SeenIff(seen, CallsIn(h), o.id);
      assert o.index in blocks && forall i :: i in blocks ==> i == o.index;
    }
    if Is(f, MessageStart) {
    } else if Is(f, BlockStart) {
    } else if Is(f, BlockDelta) {
    } else if Is(f, BlockStop) {
    } else if Is(f, MessageDelta) {
    } else if Is(f, MessageStop) {
    }
  }

  lemma SeenIff(seen: set<string>, calls: seq<ToolCall>, id: string)
    requires CallsSeen(seen, calls)
    ensures id in seen <==> exists k :: 0 <= k < |calls| && calls[k].id == id
  {
  }

  class MessageStream {
    const env: Env
    var pending: seq<Input>
    var sequence: nat
    var queue: seq<ModelEvent>
    var started: bool
    var messageDelta: bool
    var done: bool
    var stopReason: string
    var blocks: map<int, BlockState>
    var seenCallIDs: set<string>
    var nextBlock: int
    var usage: Usage
    ghost var sent: seq<ModelEvent>
    ghost var consumed: seq<Input>

    /** The queue is the unsent tail, and the events handed out so far are valid. */
    ghost predicate Served()
      reads this
    {
      Queued(queue, sent, sequence) && Checked(env, sent, |sent| - |queue|)
    }

    /** Besides: the events are framed, and they carry exactly what was consumed. */
    ghost predicate Valid()
      reads this
    {
      && Served() && Framed(sent, started, done) && Told(sent, consumed, usage, blocks, nextBlock, seenCallIDs)
      && Paced(consumed, started, messageDelta, stopReason, done) && Concluded(sent, consumed)
    }

    /** Every frame so far followed, and every event still to be handed out is valid. */
    ghost predicate Steady()
      reads this
    {
      Viable(env, consumed) && Fit(env, queue)
    }

    predicate Admits(f: Input)
      reads this
    {
      Admitted(env, f, started, messageDelta, stopReason, blocks, nextBlock, seenCallIDs, usage)
    }

    constructor (env: Env, frames: seq<Input>)
      ensures Valid() && Steady() && pending == frames && consumed == [] && sent == [] && queue == [] && this.env == env
    {
      this.env := env;
      pending, sequence, queue, started, messageDelta, done := frames, 0, [], false, false, false;
      stopReason, blocks, seenCallIDs, nextBlock, usage := "", map[], {}, 0, NO_USAGE;
      sent, consumed := [], [];
    }

    method Enqueue(e: ModelEvent)
      requires Served() && Framed(sent, sent != [], false) && (e.kind == StartEvent <==> sent == [])
      modifies this`sequence, this`queue, this`sent
      ensures Served() && Framed(sent, true, IsTerminal(e))
      ensures sent == old(sent) + [e.(sequence := old(|sent|) + 1)] && queue == old(queue) + [e.(sequence := old(|sent|) + 1)]
      ensures Fit(env, old(queue)) && ValidModelEvent(env, e.(sequence := 1)) ==> Fit(env, queue)
      ensures Adds(old(sent), sent, e)
    {
      hide ValidModelEvent, Framed, Checked, Fit, Queued, Adds, IsTerminal;
      Enqueued(env, queue, sent, sequence, e);
      var stamped := e.(sequence := sequence + 1);
      sequence := sequence + 1;
      queue := queue + [stamped];
      sent := sent + [stamped];
    }

    /** Recv: serve the queue, reading frames while it is empty; EOF only after a terminal event went out, failure only when stuck. */
    method Recv(cancelled: bool) returns (r: Received)
      requires Valid() && Steady()
      modifies this
      ensures !r.Failed? ==> Valid() && Steady() && consumed + pending == old(consumed + pending)
      ensures r.Next? ==> |sent| - |queue| == old(|sent| - |queue|) + 1 && r.event == sent[|sent| - |queue| - 1]
      ensures r.EOF? ==> done && queue == [] && sent == old(sent) && old(queue) == []
      ensures old(sent) <= sent
      ensures |pending| < old(|pending|) || (pending == old(pending) && (r.Next? ==> |queue| < old(|queue|)))
      ensures |pending| <= |old(consumed + pending)|
      ensures r.Failed? && !cancelled ==>
        Partial(env, old(sent[..|sent| - |queue|]), old(consumed + pending), |old(consumed + pending)| - |pending|)
      ensures r.Failed? && !cancelled ==> exists n :: Stuck(env, old(consumed + pending), n)
    {
      hide Conserves, TotalsIn, ValidModelEvent, Framed, BlocksMatch, CallsSeen, CallsOf, Told, Paced, Concluded, Viable, Takes, Sound, Fit,
           Terminated, Admitted, Stuck, Halted, Partial, Follows;
      ghost var frames, events := consumed + pending, sent[..|sent| - |queue|];
      if cancelled { return Failed; }
      while queue == []
        invariant Valid() && old(sent) <= sent && consumed + pending == frames == old(consumed + pending)
        invariant |pending| < old(|pending|) || (pending == old(pending) && queue == old(queue) && sent == old(sent))
        invariant |sent| - |queue| == old(|sent| - |queue|)
        invariant Steady() || (queue != [] && !ValidModelEvent(env, queue[0]) && exists n :: Stuck(env, frames, n))
        decreases |pending|
      {
        if done { assert sent == old(sent); return EOF; }
        ghost var before := consumed;
        assert frames[..|before|] == before && sent == events;
        HaltsHere(env, events, frames, |before|, usage, blocks, nextBlock, seenCallIDs);
        NotOver(before, started, messageDelta, stopReason);
        if pending == [] || pending[0] == ReadFailure {
          assert pending != [] ==> frames[|before|] == pending[0];
          SticksHere(env, frames, |before|);
          return Failed;
        }
        var f := pending[0];
        assert frames[|before|] == f;
        assert before + pending == (before + [f]) + pending[1..];
        AdmitsIff(f);
        ViableMore(env, before, f);
        FollowsWhen(env, before, f);
        pending := pending[1..];
        if f == NoData {
          Skip(f);
        } else {
          var ok := Consume(f);
          if !ok || !Sound(f) { SticksHere(env, frames, |before|); }
          if !ok { return Failed; }
        }
      }
      var e := queue[0];
      QueuedLess(env, queue, sent);
      FitLess(env, queue);
      queue := queue[1..];
      if !ValidModelEvent(env, e) {
        assert frames[..|consumed|] == consumed;
        HaltsAt(env, events, frames, |consumed|, sent, usage, blocks, nextBlock, seenCallIDs);
        return Failed;
      }
      return Next(e);
    }

    /** What the reader admits is what may come next. */
    lemma AdmitsIff(f: Input)
      requires Valid() && Steady() && !done
      ensures Admits(f) <==> Takes(env, consumed, f)
    {
      hide Admitted, Takes, Viable, Fit, BlocksMatch, CallsSeen, Queued, Checked, Framed, Paced, Concluded, TotalsIn, CallsIn, CallsOf, TextIn,
           TextOf, DeltasIn, DeltasOf, UsageOf;
      AdmittedIff(env, consumed, f, started, messageDelta, stopReason, blocks, nextBlock, seenCallIDs, usage);
    }

    /** A frame that says nothing. */
    method Skip(f: Input)
      requires Valid() && !done && (f == NoData || Is(f, Ping))
      modifies this`consumed
      ensures Valid() && consumed == old(consumed) + [f]
    {
      hide Queued, Checked, Framed, Told, Paced, Concluded;
      ToldNothing(sent, consumed, f, usage, blocks, nextBlock, seenCallIDs);
      Paces(consumed, f, started, messageDelta, stopReason);
      NotConcluded(sent, consumed + [f], started, messageDelta, stopReason);
      consumed := consumed + [f];
    }

    /** consume: one frame. It succeeds exactly for a frame this state admits; on failure nothing is promised any more. */
    method Consume(f: Input) returns (ok: bool)
      requires Valid() && !done && f.Frame? && queue == []
      modifies this
      ensures ok <==> old(Admits(f))
      ensures ok ==> Valid() && |sent| - |queue| == old(|sent|) && consumed == old(consumed) + [f]
      ensures ok ==> if Sound(f) then Fit(env, queue) else queue != [] && !ValidModelEvent(env, queue[0])
      ensures pending == old(pending) && old(sent) <= sent
    {
      hide Valid, ValidModelEvent, Fit;
      if f.envelope.None? || f.envelope.value.kind == NoKind { return false; }
      var e := f.envelope.value;
      if f.name == NoKind || f.name != e.kind { return false; }
      if e.kind == Ping { Skip(f); assert |sent| - |queue| == |sent|; NothingFits(env); return true; }
      if e.kind == ErrorFrame { ReportError(f); return true; }
      if !started && e.kind != MessageStart { return false; }
      if messageDelta && e.kind != MessageDelta && e.kind != MessageStop { return false; }
      match e.kind {
        case MessageStart => ok := StartMessage(f, e);
        case BlockStart => ok := StartBlock(f, e);
        case BlockDelta => ok := ContinueBlock(f, e);
        case BlockStop => ok := StopBlock(f, e);
        case MessageDelta => ok := EndMessage(f, e);
        case MessageStop => ok := StopMessage(f, e);
        case _ => ok := false;
      }
    }

    method ReportError(f: Input)
      requires Valid() && !done && queue == [] && Is(f, ErrorFrame)
      modifies this
      ensures Valid() && Fit(env, queue) && old(sent) <= sent && |sent| - |queue| == old(|sent|)
      ensures consumed == old(consumed) + [f] && pending == old(pending)
    {
      hide Queued, Checked, Framed, Told, Paced, Concluded, Adds, ValidModelEvent, Fit, ReasonIn, IsTerminal, Failure;
      FramedFlags(sent, started, done);
      PacesEnd(consumed, f, started, messageDelta, stopReason, true);
      NothingFits(env);
      EventsFit(env);
      TerminalEvents();
      FailureShape();
      var e := Failure();
      if !started {
        ghost var before := sent;
        started := true;
        Enqueue(Bare(StartEvent));
        ToldQuietly(before, sent, Bare(StartEvent), consumed, usage, blocks, nextBlock, seenCallIDs);
      }
      ghost var before := sent;
      Enqueue(e);
      ToldQuietly(before, sent, e, consumed, usage, blocks, nextBlock, seenCallIDs);
      ToldNothing(sent, consumed, f, usage, blocks, nextBlock, seenCallIDs);
      ConcludedBy(sent, consumed, f, stopReason);
      done := true;
      consumed := consumed + [f];
    }

    method StartMessage(f: Input, e: Envelope) returns (ok: bool)
      requires Valid() && !done && queue == [] && f.Frame? && f.envelope == Some(e) && e.kind == MessageStart
      modifies this
      ensures ok <==> !old(started) && e.message.Some? && Grows(old(usage), e.message.value)
      ensures ok ==> Valid() && Fit(env, queue) && |sent| - |queue| == old(|sent|) && consumed == old(consumed) + [f]
      ensures pending == old(pending) && old(sent) <= sent
    {
      hide Queued, Checked, Framed, Told, Paced, Concluded, Adds, ValidModelEvent, Fit, IsTerminal, Grows;
      FramedFlags(sent, started, done);
      if started || e.message.None? { return false; }
      NothingFits(env);
      EventsFit(env);
      TerminalEvents();
      Paces(consumed, f, started, messageDelta, stopReason);
      ghost var before := sent;
      started := true;
      Enqueue(Bare(StartEvent));
      ToldQuietly(before, sent, Bare(StartEvent), consumed, usage, blocks, nextBlock, seenCallIDs);
      ok := UpdateUsage(f, e.message.value);
      if ok {
        consumed := consumed + [f];
        NotConcluded(sent, consumed, started, messageDelta, stopReason);
      }
    }

    /** updateUsage: emit what the cumulative totals grew by; a total that shrinks or is negative is refused. */
    method UpdateUsage(f: Input, w: WireUsage) returns (ok: bool)
      requires Served() && Framed(sent, started, done) && Told(sent, consumed, usage, blocks, nextBlock, seenCallIDs) && started && !done
      requires (Is(f, MessageStart) && f.envelope.value.message == Some(w)) || (Is(f, MessageDelta) && f.envelope.value.usage == Some(w))
      modifies this`sequence, this`queue, this`sent, this`usage
      ensures ok <==> Grows(old(usage), w)
      ensures ok ==> Served() && Framed(sent, started, done) && Told(sent, consumed + [f], usage, blocks, nextBlock, seenCallIDs)
      ensures ok && old(Fit(env, queue)) ==> Fit(env, queue)
      ensures ok ==> |sent| - |queue| == old(|sent| - |queue|)
      ensures old(sent) <= sent
    {
      hide Queued, Checked, Framed, Told, Adds, ValidModelEvent, Fit;
      FramedFlags(sent, started, done);
      assert ValidUsage(usage) && usage.cost == 0 by { TotalsValid(sent, consumed, usage, blocks, nextBlock, seenCallIDs); }
      var total := Reported(usage, w);
      if total.input < 0 || total.output < 0 || total.cacheRead < 0 || total.cacheWrite < 0 { return false; }
      if total.input < usage.input || total.output < usage.output || total.cacheRead < usage.cacheRead ||
         total.cacheWrite < usage.cacheWrite { return false; }
      var delta := Usage(total.input - usage.input, total.output - usage.output, total.cacheRead - usage.cacheRead,
                         total.cacheWrite - usage.cacheWrite, 0);
      ghost var before, sofar := sent, usage;
      usage := total;
      if delta.input != 0 || delta.output != 0 || delta.cacheRead != 0 || delta.cacheWrite != 0 {
        UsageFits(env, delta);
        Enqueue(Bare(UsageEvent).(usage := Some(delta)));
      }
      ToldTotals(before, sent, consumed, f, w, sofar, delta, blocks, nextBlock, seenCallIDs);
      return true;
    }

    /** What is said at once of a new block; a tool's names may turn out not to be clean. */
    method Announce(b: Block, index: int)
      requires Served() && Framed(sent, sent != [], false) && sent != [] && queue == [] && index >= 0
      requires b.kind == TextBlock || (b.kind == ToolUseBlock && b.id != "" && b.name != "")
      modifies this`sequence, this`queue, this`sent
      ensures Served() && Framed(sent, true, false) && AddsBlock(old(sent), sent, b, index)
      ensures old(sent) <= sent && |sent| - |queue| == old(|sent|)
      ensures if b.kind == ToolUseBlock ==> Clean(b.id) && Clean(b.name) then Fit(env, queue) else queue != [] && !ValidModelEvent(env, queue[0])
    {
      hide Queued, Checked, Framed, Adds, ValidModelEvent, Fit, Clean;
      NothingFits(env);
      if b.kind == TextBlock {
        if b.text != "" {
          TextFits(env, b.text);
          Enqueue(Bare(TextDeltaEvent).(text := b.text));
        }
      } else {
        DeltaFits(env, ToolCallDelta(index, b.id, b.name, ""), |sent|);
        Enqueue(Bare(ToolCallDeltaEvent).(delta := Some(ToolCallDelta(index, b.id, b.name, ""))));
      }
    }

    method StartBlock(f: Input, e: Envelope) returns (ok: bool)
      requires Valid() && started && !messageDelta && !done && queue == [] && f.Frame? && f.envelope == Some(e) && e.kind == BlockStart && f.name == BlockStart
      modifies this
      ensures ok <==> old(Admits(f))
      ensures ok ==> Valid() && |sent| - |queue| == old(|sent|) && consumed == old(consumed) + [f]
      ensures ok ==> if Sound(f) then Fit(env, queue) else queue != [] && !ValidModelEvent(env, queue[0])
      ensures pending == old(pending) && old(sent) <= sent
    {
      hide Queued, Checked, Framed, Told, Paced, Concluded, Adds, ValidModelEvent, Fit, Clean, Grows, InitialInput, Admitted, AddsBlock;
      AdmittedBegin(env, f, e, stopReason, blocks, nextBlock, seenCallIDs, usage);
      FramedFlags(sent, started, done);
      if e.block.None? || e.index != nextBlock || |blocks| != 0 { return false; }
      assert blocks == map[];
      var b := e.block.value;
      if b.kind == OtherBlock || (b.kind == ToolUseBlock && (b.id == "" || b.name == "")) { return false; }
      BlockIndex(sent, consumed, usage, blocks, nextBlock, seenCallIDs);
      ghost var before := sent;
      Announce(b, e.index);
      ToldBegin(before, sent, consumed, f, usage, nextBlock, seenCallIDs);
      Paces(consumed, f, started, messageDelta, stopReason);
      blocks := blocks[e.index := BlockState(b.kind, b.id, b.name, InitialInput(b))];
      nextBlock := nextBlock + 1;
      consumed := consumed + [f];
      NotConcluded(sent, consumed, started, messageDelta, stopReason);
      return true;
    }

    method ContinueBlock(f: Input, e: Envelope) returns (ok: bool)
      requires Valid() && started && !messageDelta && !done && queue == [] && f.Frame? && f.envelope == Some(e) && e.kind == BlockDelta && f.name == BlockDelta
      modifies this
      ensures ok <==> old(Admits(f))
      ensures ok ==> Valid() && Fit(env, queue) && |sent| - |queue| == old(|sent|) && consumed == old(consumed) + [f]
      ensures pending == old(pending) && old(sent) <= sent
    {
      hide Queued, Checked, Framed, Told, Paced, Concluded, Adds, ValidModelEvent, Fit, Clean, Grows, Admitted;
      AdmittedFragment(env, f, e, stopReason, blocks, nextBlock, seenCallIDs, usage);
      FramedFlags(sent, started, done);
      if e.index !in blocks || e.delta.None? { return false; }
      FragmentIndex(sent, consumed, usage, blocks, nextBlock, seenCallIDs, e.index);
      var block := blocks[e.index];
      var d := e.delta.value;
      ghost var before, open := sent, blocks;
      NothingFits(env);
      match d.kind {
        case TextDelta =>
          if block.kind != TextBlock || d.text == "" { return false; }
          TextFits(env, d.text);
          Enqueue(Bare(TextDeltaEvent).(text := d.text));
        case InputJSONDelta =>
          if block.kind != ToolUseBlock || d.partialJSON == "" { return false; }
          blocks := blocks[e.index := block.(input := block.input + d.partialJSON)];
          DeltaFits(env, ToolCallDelta(e.index, "", "", d.partialJSON), 0);
          Enqueue(Bare(ToolCallDeltaEvent).(delta := Some(ToolCallDelta(e.index, "", "", d.partialJSON))));
        case OtherDelta => return false;
      }
      ToldFragment(before, sent, consumed, f, usage, open, nextBlock, seenCallIDs);
      Paces(consumed, f, started, messageDelta, stopReason);
      consumed := consumed + [f];
      NotConcluded(sent, consumed, started, messageDelta, stopReason);
      return true;
    }

    method StopBlock(f: Input, e: Envelope) returns (ok: bool)
      requires Valid() && started && !messageDelta && !done && queue == [] && f.Frame? && f.envelope == Some(e) && e.kind == BlockStop && f.name == BlockStop
      modifies this
      ensures ok <==> old(Admits(f))
      ensures ok ==> Valid() && Fit(env, queue) && |sent| - |queue| == old(|sent|) && consumed == old(consumed) + [f]
      ensures pending == old(pending) && old(sent) <= sent
    {
      hide Queued, Checked, Framed, Told, Paced, Concluded, Adds, ValidModelEvent, Fit, Grows, CompletedInput, ValidCall;
      FramedFlags(sent, started, done);
      if e.index !in blocks { return false; }
      var block := blocks[e.index];
      ghost var before, open, seen := sent, blocks, seenCallIDs;
      NothingFits(env);
      blocks := blocks - {e.index};
      if block.kind == ToolUseBlock {
        var call := ToolCall(block.id, block.name, CompletedInput(block.input));
        if !ValidCall(env, call) { return false; }
        if call.id in seenCallIDs { return false; }
        seenCallIDs := seenCallIDs + {call.id};
        CallFits(env, call);
        Enqueue(Bare(ToolCallEvent).(call := Some(call)));
      }
      ToldEnd(before, sent, consumed, f, usage, open, nextBlock, seen);
      Paces(consumed, f, started, messageDelta, stopReason);
      consumed := consumed + [f];
      NotConcluded(sent, consumed, started, messageDelta, stopReason);
      return true;
    }

    method EndMessage(f: Input, e: Envelope) returns (ok: bool)
      requires Valid() && started && !done && queue == [] && f.Frame? && f.envelope == Some(e) && e.kind == MessageDelta && f.name == MessageDelta
      modifies this
      ensures ok <==> old(Admits(f))
      ensures ok ==> Valid() && Fit(env, queue) && |sent| - |queue| == old(|sent|) && consumed == old(consumed) + [f]
      ensures pending == old(pending) && old(sent) <= sent
    {
      hide Queued, Checked, Framed, Told, Paced, Concluded, Adds, ValidModelEvent, Fit, Grows;
      FramedFlags(sent, started, done);
      if |blocks| != 0 || e.delta.None? || e.delta.value.stopReason.None? { return false; }
      assert blocks == map[];
      if stopReason != "" && stopReason != e.delta.value.stopReason.value { return false; }
      Paces(consumed, f, started, messageDelta, stopReason);
      NothingFits(env);
      stopReason := e.delta.value.stopReason.value;
      messageDelta := true;
      if e.usage.Some? {
        ok := UpdateUsage(f, e.usage.value);
        if !ok { return false; }
      } else {
        ToldNothing(sent, consumed, f, usage, blocks, nextBlock, seenCallIDs);
      }
      consumed := consumed + [f];
      NotConcluded(sent, consumed, started, messageDelta, stopReason);
      ok := true;
    }

    method StopMessage(f: Input, e: Envelope) returns (ok: bool)
      requires Valid() && started && !done && queue == [] && f.Frame? && f.envelope == Some(e) && e.kind == MessageStop && f.name == MessageStop
      modifies this
      ensures ok <==> old(Admits(f))
      ensures ok ==> Valid() && Fit(env, queue) && |sent| - |queue| == old(|sent|) && consumed == old(consumed) + [f]
      ensures ok ==> stopReason != "" && sent[|sent| - 1].stop == NormalizeStop(stopReason)
      ensures pending == old(pending) && old(sent) <= sent
    {
      hide Queued, Checked, Framed, Told, Paced, Concluded, Adds, ValidModelEvent, Fit, Grows, NormalizeStop, ReasonIn, IsTerminal;
      FramedFlags(sent, started, done);
      if |blocks| != 0 || stopReason == "" { return false; }
      assert blocks == map[];
      var e := Bare(StopEvent).(stop := NormalizeStop(stopReason));
      PacesEnd(consumed, f, started, messageDelta, stopReason, started);
      NothingFits(env);
      StopFits(env, NormalizeStop(stopReason));
      TerminalEvents();
      ghost var before := sent;
      Enqueue(e);
      ToldQuietly(before, sent, e, consumed, usage, blocks, nextBlock, seenCallIDs);
      ToldNothing(sent, consumed, f, usage, blocks, nextBlock, seenCallIDs);
      ConcludedBy(sent, consumed, f, stopReason);
      done := true;
      consumed := consumed + [f];
      return true;
    }
  }

  /** The account of what was said: the events carry it, and totals, blocks and calls are those of the frames. */
  ghost predicate Told(
    sent: seq<ModelEvent>, h: seq<Input>, usage: Usage, blocks: map<int, BlockState>, nextBlock: int, seen: set<string>)
  {
    && Conserves(sent, h) && usage == TotalsIn(h) && ValidUsage(usage) && usage.cost == 0
    && BlocksMatch(blocks, nextBlock, h) && CallsSeen(seen, CallsOf(sent))
  }

  lemma ToldNothing(sent: seq<ModelEvent>, h: seq<Input>, f: Input, usage: Usage, blocks: map<int, BlockState>, nextBlock: int, seen: set<string>)
    requires Told(sent, h, usage, blocks, nextBlock, seen)
    requires f == NoData || Is(f, Ping) || Is(f, ErrorFrame) || Is(f, MessageStop) || (Is(f, MessageDelta) && f.envelope.value.usage.None?)
    ensures Told(sent, h + [f], usage, blocks, nextBlock, seen)
  {
    hide TextIn, TotalsIn, CallsIn, DeltasIn, TextOf, UsageOf, CallsOf, DeltasOf, BlocksMatch, CallsSeen;
    SaysNothing(blocks, nextBlock, h, f);
  }

  /** An event that carries no content. */
  lemma ToldQuietly(sent: seq<ModelEvent>, sent': seq<ModelEvent>, e: ModelEvent, h: seq<Input>, usage: Usage, blocks: map<int, BlockState>, nextBlock: int, seen: set<string>)
    requires Told(sent, h, usage, blocks, nextBlock, seen) && Adds(sent, sent', e)
    requires e.text == "" && e.delta.None? && e.call.None? && e.usage.None?
    ensures Told(sent', h, usage, blocks, nextBlock, seen)
  {
    hide TextIn, TotalsIn, CallsIn, DeltasIn, TextOf, UsageOf, CallsOf, DeltasOf, BlocksMatch, CallsSeen;
  }

  lemma ToldTotals(
    sent: seq<ModelEvent>, sent': seq<ModelEvent>, h: seq<Input>, f: Input, w: WireUsage, usage: Usage, delta: Usage,
    blocks: map<int, BlockState>, nextBlock: int, seen: set<string>)
    requires Told(sent, h, usage, blocks, nextBlock, seen) && Grows(usage, w)
    requires (Is(f, MessageStart) && f.envelope.value.message == Some(w)) || (Is(f, MessageDelta) && f.envelope.value.usage == Some(w))
    requires PlusUsage(usage, delta) == Reported(usage, w)
    requires if delta == NO_USAGE then sent' == sent else Adds(sent, sent', Bare(UsageEvent).(usage := Some(delta)))
    ensures Told(sent', h + [f], Reported(usage, w), blocks, nextBlock, seen)
  {
    hide TextIn, TotalsIn, CallsIn, DeltasIn, TextOf, UsageOf, CallsOf, DeltasOf, BlocksMatch, CallsSeen;
    SaysTotals(blocks, nextBlock, h, f, w);
  }

  /** What a new block says at once: the names of a tool call, or the first text if there is any. */
  predicate AddsBlock(sent: seq<ModelEvent>, sent': seq<ModelEvent>, b: Block, index: int) {
    if b.kind == ToolUseBlock then Adds(sent, sent', Bare(ToolCallDeltaEvent).(delta := Some(ToolCallDelta(index, b.id, b.name, ""))))
    else if b.text == "" then sent' == sent
    else Adds(sent, sent', Bare(TextDeltaEvent).(text := b.text))
  }

  lemma ToldBegin(
    sent: seq<ModelEvent>, sent': seq<ModelEvent>, h: seq<Input>, f: Input, usage: Usage, nextBlock: int, seen: set<string>)
    requires Told(sent, h, usage, map[], nextBlock, seen)
    requires Is(f, BlockStart) && f.envelope.value.block.Some? && f.envelope.value.index == nextBlock
    requires f.envelope.value.block.value.kind != OtherBlock
    requires AddsBlock(sent, sent', f.envelope.value.block.value, nextBlock)
    ensures var b := f.envelope.value.block.value;
      Told(sent', h + [f], usage, map[nextBlock := BlockState(b.kind, b.id, b.name, InitialInput(b))], nextBlock + 1, seen)
    ensures nextBlock >= 0
  {
    hide TextIn, TotalsIn, CallsIn, DeltasIn, TextOf, UsageOf, CallsOf, DeltasOf, BlocksMatch, CallsSeen, InitialInput,
         ValidUsage;
    SaysBegin(nextBlock, h, f);
  }

  lemma ToldFragment(
    sent: seq<ModelEvent>, sent': seq<ModelEvent>, h: seq<Input>, f: Input, usage: Usage, blocks: map<int, BlockState>, nextBlock: int,
    seen: set<string>)
    requires Told(sent, h, usage, blocks, nextBlock, seen)
    requires Is(f, BlockDelta) && f.envelope.value.delta.Some? && f.envelope.value.index in blocks
    requires var d, i := f.envelope.value.delta.value, f.envelope.value.index;
      d.kind != OtherDelta &&
      Adds(sent, sent', if d.kind == TextDelta then Bare(TextDeltaEvent).(text := d.text)
                        else Bare(ToolCallDeltaEvent).(delta := Some(ToolCallDelta(i, "", "", d.partialJSON))))
    ensures var d, i := f.envelope.value.delta.value, f.envelope.value.index;
      Told(sent', h + [f], usage,
           if d.kind == TextDelta then blocks else blocks[i := blocks[i].(input := blocks[i].input + d.partialJSON)], nextBlock, seen)
  {
    hide TextIn, TotalsIn, CallsIn, DeltasIn, TextOf, UsageOf, CallsOf, DeltasOf, BlocksMatch, CallsSeen, ValidUsage;
    SaysFragment(blocks, nextBlock, h, f);
  }

  lemma TotalsValid(sent: seq<ModelEvent>, h: seq<Input>, usage: Usage, blocks: map<int, BlockState>, nextBlock: int, seen: set<string>)
    requires Told(sent, h, usage, blocks, nextBlock, seen)
    ensures ValidUsage(usage) && usage.cost == 0
  {
  }

  lemma BlockIndex(sent: seq<ModelEvent>, h: seq<Input>, usage: Usage, blocks: map<int, BlockState>, nextBlock: int, seen: set<string>)
    requires Told(sent, h, usage, blocks, nextBlock, seen)
    ensures nextBlock >= 0
  {
  }

  lemma ToldConserves(sent: seq<ModelEvent>, h: seq<Input>, usage: Usage, blocks: map<int, BlockState>, nextBlock: int, seen: set<string>)
    requires Told(sent, h, usage, blocks, nextBlock, seen)
    ensures Conserves(sent, h)
  {
  }

  lemma NotOver(h: seq<Input>, started: bool, closing: bool, reason: string)
    requires Paced(h, started, closing, reason, false)
    ensures !Terminated(h)
  {
  }

  lemma Over(env: Env, frames: seq<Input>, n: nat, started: bool, closing: bool, reason: string)
    requires n <= |frames| && Viable(env, frames[..n]) && Paced(frames[..n], started, closing, reason, true)
    ensures Finishes(env, frames, n)
  {
  }

  /** Everything read so far has been handed out. */
  lemma HaltsHere(
    env: Env, events: seq<ModelEvent>, frames: seq<Input>, n: nat, usage: Usage, blocks: map<int, BlockState>, nextBlock: int, seen: set<string>)
    requires n <= |frames| && Told(events, frames[..n], usage, blocks, nextBlock, seen)
    ensures Partial(env, events, frames, n) && Partial(env, events, frames, n + 1)
  {
    hide Conserves;
    ToldConserves(events, frames[..n], usage, blocks, nextBlock, seen);
    assert Halted(env, events, frames, n, events);
  }

  /** Everything before an invalid event has been handed out. */
  lemma HaltsAt(
    env: Env, events: seq<ModelEvent>, frames: seq<Input>, n: nat, sent: seq<ModelEvent>, usage: Usage, blocks: map<int, BlockState>,
    nextBlock: int, seen: set<string>)
    requires n <= |frames| && Told(sent, frames[..n], usage, blocks, nextBlock, seen) && events <= sent
    requires |events| < |sent| && !ValidModelEvent(env, sent[|events|])
    ensures Partial(env, events, frames, n)
  {
    hide Conserves;
    ToldConserves(sent, frames[..n], usage, blocks, nextBlock, seen);
    assert Halted(env, events, frames, n, sent);
  }

  lemma SticksHere(env: Env, frames: seq<Input>, n: nat)
    requires n <= |frames| && Viable(env, frames[..n]) && !Terminated(frames[..n])
    requires n == |frames| || frames[n] == ReadFailure || !Follows(env, frames[..n], frames[n])
    ensures exists m :: Stuck(env, frames, m)
  {
    hide Takes;
    if n < |frames| { FailureNeverFollows(env, frames[..n]); }
    assert Stuck(env, frames, n);
  }

  lemma FollowsWhen(env: Env, h: seq<Input>, f: Input)
    ensures !Terminated(h) ==> (Follows(env, h, f) <==> f == NoData || (Takes(env, h, f) && Sound(f)))
  {
  }

  lemma FailureNeverFollows(env: Env, h: seq<Input>)
    ensures !Follows(env, h, ReadFailure)
  {
  }

  lemma FragmentIndex(sent: seq<ModelEvent>, h: seq<Input>, usage: Usage, blocks: map<int, BlockState>, nextBlock: int, seen: set<string>, i: int)
    requires Told(sent, h, usage, blocks, nextBlock, seen) && i in blocks
    ensures i >= 0
  {
  }

  lemma ToldEnd(
    sent: seq<ModelEvent>, sent': seq<ModelEvent>, h: seq<Input>, f: Input, usage: Usage, blocks: map<int, BlockState>, nextBlock: int,
    seen: set<string>)
    requires Told(sent, h, usage, blocks, nextBlock, seen) && Is(f, BlockStop) && f.envelope.value.index in blocks
    requires var b := blocks[f.envelope.value.index];
      if b.kind == ToolUseBlock then
        b.id !in seen && Adds(sent, sent', Bare(ToolCallEvent).(call := Some(ToolCall(b.id, b.name, CompletedInput(b.input)))))
      else sent' == sent
    ensures var b := blocks[f.envelope.value.index];
      Told(sent', h + [f], usage, blocks - {f.envelope.value.index}, nextBlock, if b.kind == ToolUseBlock then seen + {b.id} else seen)
  {
    hide TextIn, TotalsIn, CallsIn, DeltasIn, TextOf, UsageOf, CallsOf, DeltasOf, BlocksMatch, CallsSeen, CompletedInput,
         ValidUsage;
    SaysEnd(blocks, nextBlock, h, f);
    var b := blocks[f.envelope.value.index];
    if b.kind == ToolUseBlock { CallsSeenMore(seen, CallsOf(sent), ToolCall(b.id, b.name, CompletedInput(b.input))); }
  }

  /**
   DrainStream over this adapter, for every sequence of frames: the validator never objects, a stream that ends has
   delivered exactly the content of the frames read, and one that breaks exactly that of the frames before the break.
   */
  method Drain(env: Env, frames: seq<Input>) returns (events: seq<ModelEvent>, read: nat, end: Ending)
    ensures end != Violated
    ensures WellFormed(env, events) && AcceptAll(env, events).Some?
    ensures end == Ended ==> Complete(AcceptAll(env, events).value)
    ensures read <= |frames| && (end == Ended ==> Conserves(events, frames[..read]))
    ensures end == Broken ==> Partial(env, events, frames, read)
    ensures end == Ended <==> exists n :: Finishes(env, frames, n)
    ensures end == Ended ==> Finishes(env, frames, read) && Concluded(events, frames[..read])
  {
    hide Told, Paced, Concluded, Viable, Terminated, Fit, Stuck, Finishes, Conserves, Partial, ValidModelEvent, Framed,
         TotalsIn, BlocksMatch, CallsSeen, WellFormed, CallsOf, AcceptAll;
    var stream := new MessageStream(env, frames);
    var validator := new ModelStreamValidator();
    events := [];
    AcceptNone(env);
    while true
      invariant stream.Valid() && stream.Steady() && stream.env == env && stream.consumed + stream.pending == frames
      invariant events == stream.sent[..|stream.sent| - |stream.queue|]
      invariant AcceptAll(env, events) == Some(validator.State()) && WellFormed(env, events)
      decreases |stream.pending|, |stream.queue|
    {
      ghost var sent, taken := stream.sent, |events|;
      var r := stream.Recv(false);
      read := |frames| - |stream.pending|;
      match r {
        case Failed =>
          ghost var n :| Stuck(env, frames, n);
          forall m: nat ensures !Finishes(env, frames, m) { StuckNeverFinishes(env, frames, n, m); }
          return events, read, Broken;
        case EOF =>
          FramedPrefix(env, stream.sent, stream.started, stream.done, |stream.sent|);
          assert stream.sent[..|stream.sent|] == stream.sent && events == stream.sent;
          assert frames[..read] == stream.consumed;
          ToldConserves(stream.sent, stream.consumed, stream.usage, stream.blocks, stream.nextBlock, stream.seenCallIDs);
          Over(env, frames, read, stream.started, stream.messageDelta, stream.stopReason);
          return events, read, if Complete(validator.State()) then Ended else Violated;
        case Next(e) =>
          assert stream.sent[..taken] == sent[..taken];
          FramedPrefix(env, stream.sent, stream.started, stream.done, taken + 1);
          assert stream.sent[..taken + 1] == events + [e];
          AcceptSnoc(env, events, e);
          var ok := validator.Accept(env, e);
          if !ok { return events, read, Violated; }
          events := events + [e];
      }
    }
  }
}
