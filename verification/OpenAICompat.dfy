/**
 The OpenAI-compatible Chat Completions adapter: decoded chunks in, model events
 out (provider/openaicompat/stream.go).
 */
module OpenAICompat {
  import opened Types
  import opened StreamProtocol

  datatype CompletionUsage = CompletionUsage(prompt: int, completion: int, cached: int)
  datatype CallChunk = CallChunk(index: int, id: string, kind: string, name: string, arguments: string)
  datatype Choice = Choice(
    index: int, content: Option<string>, refusal: Option<string>, calls: seq<CallChunk>, finish: Option<string>)
  datatype Chunk = Chunk(choices: seq<Choice>, usage: Option<CompletionUsage>, error: bool)

  /** What the frame reader yields: a chunk (none when its JSON is malformed), the end marker, no data, a failure. */
  datatype Input = Data(chunk: Option<Chunk>) | DoneMarker | NoData | ReadFailure

  function NormalizeFinish(reason: string): (s: StopReason)
    ensures ValidStop(s)
  {
    if reason == "stop" then EndTurn
    else if reason in ["tool_calls", "function_call"] then ToolUse
    else if reason == "length" then MaxTokens
    else if reason == "content_filter" then Refusal
    else UnknownStop
  }

  /** The loop runs tools after exactly two reasons, and what is not known is never taken for a finished turn. */
  lemma FinishesMean(reason: string)
    ensures var s := NormalizeFinish(reason);
      && (s == ToolUse <==> reason == "tool_calls" || reason == "function_call") && (s == EndTurn <==> reason == "stop")
      && (s == MaxTokens <==> reason == "length") && (s == Refusal <==> reason == "content_filter") && s != Cancelled
  {
  }

  // ---- What a sequence of chunks says ----------------------------------------------

  function OrEmpty(s: Option<string>): string {
    if s.Some? then s.value else ""
  }

  predicate HasChoice(f: Input) {
    f.Data? && f.chunk.Some? && !f.chunk.value.error && f.chunk.value.choices != []
  }

  function FrameText(f: Input): string {
    if HasChoice(f) then OrEmpty(f.chunk.value.choices[0].content) + OrEmpty(f.chunk.value.choices[0].refusal) else ""
  }

  function TextIn(h: seq<Input>): string {
    if h == [] then "" else TextIn(h[..|h| - 1]) + FrameText(h[|h| - 1])
  }

  function DeltaOf(c: CallChunk): ToolCallDelta {
    ToolCallDelta(c.index, c.id, c.name, c.arguments)
  }

  function DeltasFrom(cs: seq<CallChunk>): seq<ToolCallDelta> {
    if cs == [] then [] else DeltasFrom(cs[..|cs| - 1]) + [DeltaOf(cs[|cs| - 1])]
  }

  function FrameDeltas(f: Input): seq<ToolCallDelta> {
    if HasChoice(f) then DeltasFrom(f.chunk.value.choices[0].calls) else []
  }

  /** The function-call fragments of the chunks, in order. */
  function DeltasIn(h: seq<Input>): seq<ToolCallDelta> {
    if h == [] then [] else DeltasIn(h[..|h| - 1]) + FrameDeltas(h[|h| - 1])
  }

  function UsageFrom(u: CompletionUsage): Usage {
    Usage(u.prompt, u.completion, u.cached, 0, 0)
  }

  function FrameUsage(u: Option<Usage>, f: Input): Option<Usage> {
    if f.Data? && f.chunk.Some? && !f.chunk.value.error && f.chunk.value.usage.Some? then Some(UsageFrom(f.chunk.value.usage.value))
    else u
  }

  /** The usage the chunks reported. */
  function UsageIn(h: seq<Input>): Option<Usage> {
    if h == [] then None else FrameUsage(UsageIn(h[..|h| - 1]), h[|h| - 1])
  }

  lemma Says(h: seq<Input>, f: Input)
    ensures TextIn(h + [f]) == TextIn(h) + FrameText(f) && DeltasIn(h + [f]) == DeltasIn(h) + FrameDeltas(f)
    ensures UsageIn(h + [f]) == FrameUsage(UsageIn(h), f)
  {
    assert (h + [f])[..|h|] == h;
  }

  /** The finish reason a chunk gives. */
  function FinishOf(f: Input): Option<string> {
    if HasChoice(f) then f.chunk.value.choices[0].finish else None
  }

  /** The finish reason last given. */
  function FinishIn(h: seq<Input>): string {
    if h == [] then "" else if FinishOf(h[|h| - 1]).Some? then FinishOf(h[|h| - 1]).value else FinishIn(h[..|h| - 1])
  }

  // ---- Interleaved fragments and the calls they make up ----------------------------

  /** The identifier, name and input of call i: each the concatenation of its own fragments. */
  function Assembled(ds: seq<ToolCallDelta>, i: int): ToolCall {
    if ds == [] then ToolCall("", "", "")
    else
      var before, d := Assembled(ds[..|ds| - 1], i), ds[|ds| - 1];
      if d.index == i then ToolCall(before.id + d.id, before.name + d.name, before.input + d.input) else before
  }

  function IndexesOf(ds: seq<ToolCallDelta>): set<int> {
    set k | 0 <= k < |ds| :: ds[k].index
  }

  /** The accumulator map holds one entry per fragment index, each assembled so far. */
  ghost predicate Accumulates(calls: map<int, ToolCall>, ds: seq<ToolCallDelta>) {
    calls.Keys == IndexesOf(ds) && forall i :: i in calls ==> calls[i] == Assembled(ds, i)
  }

  lemma AccumulatesMore(calls: map<int, ToolCall>, ds: seq<ToolCallDelta>, d: ToolCallDelta)
    requires Accumulates(calls, ds)
    ensures var c := if d.index in calls then calls[d.index] else ToolCall("", "", "");
      Accumulates(calls[d.index := ToolCall(c.id + d.id, c.name + d.name, c.input + d.input)], ds + [d])
  {
    var c := if d.index in calls then calls[d.index] else ToolCall("", "", "");
    var ds' := ds + [d];
    assert ds'[..|ds|] == ds;
    assert IndexesOf(ds') == IndexesOf(ds) + {d.index} by {
      assert ds'[|ds|] == d;
      forall k | 0 <= k < |ds| ensures ds'[k] == ds[k] {
      }
    }
    if d.index !in calls { AssembledAbsent(ds, d.index); }
  }

  lemma {:induction false} AssembledAbsent(ds: seq<ToolCallDelta>, i: int)
    requires i !in IndexesOf(ds)
    ensures Assembled(ds, i) == ToolCall("", "", "")
  {
    if ds != [] {
      assert ds[|ds| - 1].index in IndexesOf(ds);
      var init := ds[..|ds| - 1];
      forall k | 0 <= k < |init| ensures init[k].index in IndexesOf(ds) {
        assert init[k] == ds[k];
      }
      AssembledAbsent(init, i);
    }
  }

  predicate Increasing(s: seq<int>) {
    forall j, k :: 0 <= j < k < |s| ==> s[j] < s[k]
  }

  /** The calls are those of the fragments: one per index, in increasing index order, with distinct identifiers. */
  ghost predicate Assembles(calls: seq<ToolCall>, ds: seq<ToolCallDelta>) {
    && (exists order: seq<int> ::
          && Increasing(order) && |order| == |calls| && (forall i :: i in order <==> i in IndexesOf(ds))
          && forall k :: 0 <= k < |order| ==> calls[k] == Assembled(ds, order[k]))
    && (forall j, k :: 0 <= j < k < |calls| ==> calls[j].id != calls[k].id)
  }

  /** What a terminated stream carried: after a stop the completed calls and the usage, after an error neither. */
  ghost predicate Settled(sent: seq<ModelEvent>, usage: Option<Usage>) {
    sent != [] &&
    if sent[|sent| - 1].kind == StopEvent then
      Assembles(CallsOf(sent), DeltasOf(sent)) && UsageOf(sent) == if usage.Some? then usage.value else NO_USAGE
    else CallsOf(sent) == [] && UsageOf(sent) == NO_USAGE
  }

  predicate Carries(sent: seq<ModelEvent>, h: seq<Input>) {
    TextOf(sent) == TextIn(h) && DeltasOf(sent) == DeltasIn(h)
  }

  /** What is out of a stream that has not terminated, or all that a terminated one settled. */
  ghost predicate Conserves(sent: seq<ModelEvent>, h: seq<Input>) {
    Carries(sent, h) && ((CallsOf(sent) == [] && UsageOf(sent) == NO_USAGE) || Settled(sent, UsageIn(h)))
  }

  /** s is what n of the chunks came to, and the events are all of it, or all before an event of it that is itself invalid. */
  ghost predicate Halted(env: Env, events: seq<ModelEvent>, frames: seq<Input>, n: nat, s: seq<ModelEvent>) {
    n <= |frames| && Conserves(s, frames[..n]) && events <= s && (s == events || !ValidModelEvent(env, s[|events|]))
  }

  /** A broken stream: everything up to the chunk or the event that broke it was delivered. */
  ghost predicate Partial(env: Env, events: seq<ModelEvent>, frames: seq<Input>, read: nat) {
    exists n: nat, s: seq<ModelEvent> :: read - 1 <= n <= read && Halted(env, events, frames, n, s)
  }

  // ---- Which chunk may come next ----------------------------------------------------

  predicate Reports(f: Input) {
    f.Data? && f.chunk.Some? && f.chunk.value.error
  }

  predicate Terminal(f: Input) {
    f == DoneMarker || Reports(f)
  }

  predicate Terminated(h: seq<Input>) {
    h != [] && Terminal(h[|h| - 1])
  }

  predicate OrderlyCall(c: CallChunk) {
    c.index >= 0 && (c.kind == "" || c.kind == "function") && ValidDelta(DeltaOf(c))
  }

  /** A chunk that is acceptable by itself: at most one choice, the first, of valid fragments, and a valid usage report. */
  predicate Orderly(f: Input) {
    f.Data? && f.chunk.Some? && !f.chunk.value.error &&
    var c := f.chunk.value;
    && |c.choices| <= 1 && (c.usage.Some? ==> ValidUsage(UsageFrom(c.usage.value)))
    && (c.choices != [] ==>
          c.choices[0].index == 0 && forall i :: 0 <= i < |c.choices[0].calls| ==> OrderlyCall(c.choices[0].calls[i]))
  }

  /** The calls can be completed: each is valid, and no identifier is used twice. */
  predicate Completable(env: Env, ds: seq<ToolCallDelta>) {
    && (forall i :: i in IndexesOf(ds) ==> ValidCall(env, Assembled(ds, i)))
    && forall i, j :: i in IndexesOf(ds) && j in IndexesOf(ds) && i != j ==> Assembled(ds, i).id != Assembled(ds, j).id
  }

  /** A stream may be declared over: it gave a reason, which asks for tools exactly when there are calls to complete. */
  predicate MayEnd(env: Env, reason: string, ds: seq<ToolCallDelta>) {
    reason != "" && (NormalizeFinish(reason) == ToolUse <==> ds != []) && Completable(env, ds)
  }

  /** After the chunks h this one is accepted. */
  predicate Takes(env: Env, h: seq<Input>, f: Input) {
    match f
    case NoData => true
    case ReadFailure => false
    case DoneMarker => MayEnd(env, FinishIn(h), DeltasIn(h))
    case Data(_) =>
      || Reports(f)
      || (&& Orderly(f) && (f.chunk.value.usage.Some? ==> UsageIn(h).None?)
          && (FinishOf(f).Some? ==> FinishIn(h) == "" || FinishIn(h) == FinishOf(f).value))
  }

  predicate Follows(env: Env, h: seq<Input>, f: Input) {
    !Terminated(h) && Takes(env, h, f)
  }

  ghost predicate Viable(env: Env, h: seq<Input>) {
    forall i :: 0 <= i < |h| ==> Follows(env, h[..i], h[i])
  }

  /** The first n chunks are a whole stream: every one follows, and the last one ends it. */
  ghost predicate Finishes(env: Env, frames: seq<Input>, n: nat) {
    n <= |frames| && Viable(env, frames[..n]) && Terminated(frames[..n])
  }

  lemma ViableMore(env: Env, h: seq<Input>, f: Input)
    ensures Viable(env, h + [f]) <==> Viable(env, h) && Follows(env, h, f)
  {
    hide Follows;
    var g := h + [f];
    forall i | 0 <= i < |h| ensures g[..i] == h[..i] && g[i] == h[i] {
    }
    assert g[..|h|] == h;
    if Viable(env, g) {
      assert Follows(env, g[..|h|], g[|h|]);
      forall i | 0 <= i < |h| ensures Follows(env, h[..i], h[i]) { assert Follows(env, g[..i], g[i]); }
    }
  }

  /** The reader can go no further: the chunks end, or the next one does not follow, before the stream has ended. */
  ghost predicate Stuck(env: Env, frames: seq<Input>, n: nat) {
    n <= |frames| && Viable(env, frames[..n]) && !Terminated(frames[..n]) && (n == |frames| || !Follows(env, frames[..n], frames[n]))
  }

  lemma FollowsWithin(env: Env, frames: seq<Input>, m: nat, n: nat)
    requires n < m <= |frames| && Viable(env, frames[..m])
    ensures Follows(env, frames[..n], frames[n])
  {
    var h := frames[..m];
    assert h[..n] == frames[..n] && Follows(env, h[..n], h[n]);
  }

  lemma StuckNeverFinishes(env: Env, frames: seq<Input>, n: nat, m: nat)
    requires Stuck(env, frames, n)
    ensures !Finishes(env, frames, m)
  {
    hide Takes;
    if Finishes(env, frames, m) {
      if m < n { FollowsWithin(env, frames, n, m); }
      else if m > n { FollowsWithin(env, frames, m, n); }
    }
  }

  // ---- Exactly the whole streams end ---------------------------------------------------

  /** Usage is reported at most once, and a finish reason once given does not change. */
  predicate Consistent(h: seq<Input>) {
    forall i, j :: 0 <= i < j < |h| ==>
      && !(UsageAt(h, i) && UsageAt(h, j))
      && (FinishOf(h[i]).Some? && FinishOf(h[j]).Some? ==> FinishOf(h[i]).value == "" || FinishOf(h[i]) == FinishOf(h[j]))
  }

  predicate UsageAt(h: seq<Input>, i: nat)
    requires i < |h|
  {
    Orderly(h[i]) && h[i].chunk.value.usage.Some?
  }

  /** Every input but the last is an orderly chunk or no data at all. */
  predicate Body(h: seq<Input>) {
    forall i :: 0 <= i < |h| ==> h[i] == NoData || Orderly(h[i])
  }

  /** A whole answer: an orderly, consistent body that gives a reason and whose calls can be completed, and the end marker. */
  predicate WholeAnswer(env: Env, h: seq<Input>) {
    h != [] && h[|h| - 1] == DoneMarker &&
    var body := h[..|h| - 1];
    && Body(body) && Consistent(body)
    && exists i :: 0 <= i < |body| && GivesReason(body, i) && MayEnd(env, FinishOf(body[i]).value, DeltasIn(body))
  }

  /** The first reason given, when one is. */
  predicate GivesReason(h: seq<Input>, i: nat)
    requires i < |h|
  {
    FinishOf(h[i]).Some? && FinishOf(h[i]).value != ""
  }

  /** An orderly, consistent body and then a report of failure. */
  predicate FailedAnswer(h: seq<Input>) {
    h != [] && Reports(h[|h| - 1]) && Body(h[..|h| - 1]) && Consistent(h[..|h| - 1])
  }

  /** The last reason is one that was given. */
  lemma {:induction false} FinishGiven(h: seq<Input>)
    ensures FinishIn(h) == "" || exists i :: 0 <= i < |h| && GivesReason(h, i) && FinishOf(h[i]).value == FinishIn(h)
  {
    hide FinishOf;
    if h != [] && FinishIn(h) != "" {
      var init := h[..|h| - 1];
      if FinishOf(h[|h| - 1]).Some? {
        assert GivesReason(h, |h| - 1);
      } else {
        FinishGiven(init);
        var i :| 0 <= i < |init| && GivesReason(init, i) && FinishOf(init[i]).value == FinishIn(init);
        assert h[i] == init[i] && GivesReason(h, i);
      }
    }
  }

  /** In a consistent body every reason given is the last one. */
  lemma {:induction false} FinishConstant(h: seq<Input>)
    requires Consistent(h)
    ensures forall i :: 0 <= i < |h| && FinishOf(h[i]).Some? ==> FinishOf(h[i]).value == "" || FinishOf(h[i]).value == FinishIn(h)
  {
    hide FinishOf;
    if h != [] {
      var init, f := h[..|h| - 1], h[|h| - 1];
      assert h == init + [f];
      ConsistentSnoc(init, f);
      FinishConstant(init);
      assert forall i :: 0 <= i < |init| ==> init[i] == h[i];
    }
  }

  /** The totals are there when some chunk of the body reported them. */
  lemma {:induction false} UsageGiven(h: seq<Input>)
    requires Body(h)
    ensures UsageIn(h).Some? <==> exists i :: 0 <= i < |h| && UsageAt(h, i)
  {
    if h != [] {
      var init, f := h[..|h| - 1], h[|h| - 1];
      assert h == init + [f];
      BodySnoc(init, f);
      UsageGiven(init);
      assert forall i :: 0 <= i < |init| ==> init[i] == h[i] && (UsageAt(init, i) <==> UsageAt(h, i));
      UsageOrNot(f);
      hide Orderly;
      if UsageIn(init).Some? {
        var i :| 0 <= i < |init| && UsageAt(init, i);
        assert UsageAt(h, i);
      }
      if Orderly(f) && f.chunk.value.usage.Some? { assert UsageAt(h, |init|); }
    }
  }

  lemma UsageOrNot(f: Input)
    requires f == NoData || Orderly(f)
    ensures forall u :: FrameUsage(u, f).Some? <==> u.Some? || (Orderly(f) && f.chunk.value.usage.Some?)
    ensures Orderly(f) ==> f.Data? && f.chunk.Some?
  {
  }

  lemma BodySnoc(h: seq<Input>, f: Input)
    ensures Body(h + [f]) <==> Body(h) && (f == NoData || Orderly(f))
  {
    hide Orderly;
    var g := h + [f];
    assert g[|h|] == f && forall i :: 0 <= i < |h| ==> g[i] == h[i];
  }

  lemma ConsistentSnoc(h: seq<Input>, f: Input)
    ensures Consistent(h + [f]) <==>
      && Consistent(h)
      && forall i :: 0 <= i < |h| ==>
           && !(UsageAt(h, i) && Orderly(f) && f.chunk.value.usage.Some?)
           && (FinishOf(h[i]).Some? && FinishOf(f).Some? ==> FinishOf(h[i]).value == "" || FinishOf(h[i]) == FinishOf(f))
  {
    hide FinishOf;
    OrderlyData(f);
    hide Orderly;
    var g := h + [f];
    assert g[|h|] == f && forall i :: 0 <= i < |h| ==> g[i] == h[i] && (UsageAt(g, i) <==> UsageAt(h, i));
    assert UsageAt(g, |h|) <==> Orderly(f) && f.chunk.value.usage.Some?;
  }

  lemma OrderlyData(f: Input)
    ensures Orderly(f) ==> f.Data? && f.chunk.Some? && !Reports(f) && !Terminal(f)
  {
  }

  /** What may follow an orderly, consistent body without ending it is what keeps it one. */
  lemma BodyTakes(env: Env, h: seq<Input>, f: Input)
    requires Body(h) && Consistent(h)
    ensures Takes(env, h, f) && !Terminal(f) <==> Body(h + [f]) && Consistent(h + [f])
  {
    hide MayEnd;
    BodySnoc(h, f);
    ConsistentSnoc(h, f);
    UsageGiven(h);
    FinishGiven(h);
    FinishConstant(h);
    OrderlyData(f);
    NoChoiceNoFinish(f);
    hide Orderly, FinishOf, Body, Consistent;
  }

  lemma NoChoiceNoFinish(f: Input)
    ensures f == NoData ==> FinishOf(f).None?
  {
  }

  /** The chunks read so far are exactly the orderly, consistent bodies. */
  lemma {:induction false} ViableBody(env: Env, h: seq<Input>)
    ensures Viable(env, h) && !Terminated(h) <==> Body(h) && Consistent(h)
  {
    hide Takes, Body, Consistent, Terminal;
    if h != [] {
      var init, f := h[..|h| - 1], h[|h| - 1];
      assert h == init + [f];
      ViableBody(env, init);
      ViableMore(env, init, f);
      Shorter(init, f);
      if Body(init) && Consistent(init) { BodyTakes(env, init, f); }
    } else {
      assert Body([]) && Consistent([]) by { EmptyBody(); }
    }
  }

  lemma EmptyBody()
    ensures Body([]) && Consistent([])
  {
  }

  lemma Shorter(h: seq<Input>, f: Input)
    ensures Body(h + [f]) && Consistent(h + [f]) ==> Body(h) && Consistent(h)
  {
    BodySnoc(h, f);
    ConsistentSnoc(h, f);
  }

  /** A stream ends on exactly the chunks of a whole answer, or of a failed one. */
  lemma FinishesIff(env: Env, frames: seq<Input>, n: nat)
    requires n <= |frames|
    ensures Finishes(env, frames, n) <==> WholeAnswer(env, frames[..n]) || FailedAnswer(frames[..n])
  {
    hide Takes, Body, Consistent, Orderly, MayEnd, FinishOf;
    var h := frames[..n];
    if h != [] {
      var init, f := h[..n - 1], h[n - 1];
      assert h == init + [f];
      ViableMore(env, init, f);
      ViableBody(env, init);
      EndTakes(env, init, f);
      FinishGiven(init);
      if Consistent(init) { FinishConstant(init); }
      EndGiven(env, init);
    }
  }

  lemma EndTakes(env: Env, h: seq<Input>, f: Input)
    ensures f == DoneMarker ==> (Takes(env, h, f) <==> MayEnd(env, FinishIn(h), DeltasIn(h)))
    ensures Reports(f) ==> Takes(env, h, f) && f != DoneMarker
  {
    hide MayEnd;
  }

  /** The reason the end is judged by is one of those given, and with a constant reason any of them will do. */
  lemma EndGiven(env: Env, h: seq<Input>)
    ensures Consistent(h) ==>
      (MayEnd(env, FinishIn(h), DeltasIn(h)) <==>
         exists i :: 0 <= i < |h| && GivesReason(h, i) && MayEnd(env, FinishOf(h[i]).value, DeltasIn(h)))
  {
    hide Completable, FinishOf, Consistent, NormalizeFinish;
    FinishGiven(h);
    if Consistent(h) { FinishConstant(h); }
  }

  lemma Inhabited(s: set<int>)
    ensures s == {} || exists x :: x in s
  {
    if forall x :: x !in s { assert s == {}; }
  }

  method Least(s: set<int>) returns (m: int)
    requires s != {}
    ensures m in s && forall y :: y in s ==> m <= y
  {
    Inhabited(s);
    m :| m in s;
    var rest := s - {m};
    while rest != {}
      invariant m in s && rest <= s && forall y :: y in s && y !in rest ==> m <= y
      decreases rest
    {
      Inhabited(rest);
      var x :| x in rest;
      if x < m { m := x; }
      rest := rest - {x};
    }
  }

  /** sort.Ints over the keys of the accumulator map. */
  method SortedKeys(keys: set<int>) returns (order: seq<int>)
    ensures Increasing(order) && forall i :: i in order <==> i in keys
  {
    order := [];
    var rest := keys;
    while rest != {}
      invariant rest <= keys && Increasing(order)
      invariant forall i :: i in keys <==> i in rest || i in order
      invariant forall i, j :: i in order && j in rest ==> i < j
      decreases rest
    {
      var m := Least(rest);
      forall k | 0 <= k < |order| ensures order[k] < m { assert order[k] in order; }
      rest := rest - {m};
      order := order + [m];
    }
  }

  /** A stream declared over ends with the stop its chunks announced, a failed one with an error. */
  predicate Concluded(sent: seq<ModelEvent>, h: seq<Input>) {
    Terminated(h) ==>
      sent != [] &&
      var last := sent[|sent| - 1];
      if h[|h| - 1] == DoneMarker then last.kind == StopEvent && last.stop == NormalizeFinish(FinishIn(h)) else last.kind == ErrorEvent
  }

  lemma FailureNeverFollows(env: Env, h: seq<Input>)
    ensures !Follows(env, h, ReadFailure)
  {
  }

  lemma Turns(h: seq<Input>, f: Input)
    ensures FinishIn(h + [f]) == (if FinishOf(f).Some? then FinishOf(f).value else FinishIn(h)) && (Terminated(h + [f]) <==> Terminal(f))
  {
    assert (h + [f])[..|h|] == h;
  }

  class ChatStream {
    const env: Env
    var pending: seq<Input>
    var sequence: nat
    var queue: seq<ModelEvent>
    var done: bool
    var finish: string
    var calls: map<int, ToolCall>
    var usage: Option<Usage>
    ghost var sent: seq<ModelEvent>
    ghost var consumed: seq<Input>

    ghost predicate Served()
      reads this
    {
      Queued(queue, sent, sequence) && Checked(env, sent, |sent| - |queue|)
    }

    /** Not yet terminated: no call is completed and no usage is out. */
    ghost predicate Open()
      reads this
    {
      !done && Framed(sent, true, false) && CallsOf(sent) == [] && UsageOf(sent) == NO_USAGE && Accumulates(calls, DeltasOf(sent))
    }

    ghost predicate Valid()
      reads this
    {
      && Served() && Carries(sent, consumed) && usage == UsageIn(consumed)
      && (Open() || (done && Framed(sent, true, true) && Settled(sent, usage)))
      && done == Terminated(consumed) && (!done ==> finish == FinishIn(consumed)) && Concluded(sent, consumed)
      && Viable(env, consumed) && Fit(env, queue)
    }

    constructor (env: Env, frames: seq<Input>)
      ensures Valid() && pending == frames && consumed == [] && |queue| == |sent| && this.env == env
    {
      this.env := env;
      pending, sequence, done, finish, calls, usage := frames, 1, false, "", map[], None;
      var e := Bare(StartEvent).(sequence := 1);
      queue, sent, consumed := [e], [e], [];
      new;
      CarriesMore([], e);
      FramedMore([], e);
      EventsFit(env);
      assert [] + [e] == [e];
    }

    method Enqueue(e: ModelEvent)
      requires Served() && Framed(sent, true, false) && e.kind != StartEvent
      modifies this`sequence, this`queue, this`sent
      ensures Served() && Framed(sent, true, IsTerminal(e))
      ensures sent == old(sent) + [e.(sequence := old(|sent|) + 1)] && queue == old(queue) + [e.(sequence := old(|sent|) + 1)]
      ensures Adds(old(sent), sent, e)
      ensures Fit(env, old(queue)) && ValidModelEvent(env, e.(sequence := 1)) ==> Fit(env, queue)
    {
      FramedFlags(sent, true, false);
      hide ValidModelEvent, Framed, Checked, Fit, Queued, Adds, IsTerminal;
      Enqueued(env, queue, sent, sequence, e);
      var stamped := e.(sequence := sequence + 1);
      sequence := sequence + 1;
      queue := queue + [stamped];
      sent := sent + [stamped];
    }

    /** Recv: serve the queue, reading chunks while it is empty; EOF only after a terminal event went out, failure only when stuck. */
    method Recv(cancelled: bool) returns (r: Received)
      requires Valid()
      modifies this
      ensures !r.Failed? ==> Valid() && consumed + pending == old(consumed + pending)
      ensures r.Next? ==> |sent| - |queue| == old(|sent| - |queue|) + 1 && r.event == sent[|sent| - |queue| - 1]
      ensures r.EOF? ==> done && queue == [] && sent == old(sent) && old(queue) == []
      ensures old(sent) <= sent
      ensures |pending| < old(|pending|) || (pending == old(pending) && (r.Next? ==> |queue| < old(|queue|)))
      ensures |pending| <= |old(consumed + pending)|
      ensures r.Failed? && !cancelled ==>
        Partial(env, old(sent[..|sent| - |queue|]), old(consumed + pending), |old(consumed + pending)| - |pending|)
      ensures r.Failed? && !cancelled ==> exists n :: Stuck(env, old(consumed + pending), n)
    {
      hide Carries, UsageIn, ValidModelEvent, Framed, Settled, Accumulates, CallsOf, UsageOf, DeltasOf, Concluded, Viable, Takes,
           Terminated, Fit, FinishIn;
      ghost var frames, events := consumed + pending, sent[..|sent| - |queue|];
      if cancelled { return Failed; }
      while queue == []
        invariant Valid() && old(sent) <= sent && consumed + pending == old(consumed + pending)
        invariant |pending| < old(|pending|) || (pending == old(pending) && queue == old(queue) && sent == old(sent))
        invariant |sent| - |queue| == old(|sent| - |queue|)
        decreases |pending|
      {
        if done { assert sent == old(sent); return EOF; }
        ghost var before := consumed;
        assert frames[..|before|] == before && sent == events;
        assert Halted(env, events, frames, |before|, sent);
        if pending == [] || pending[0] == ReadFailure {
          FailureNeverFollows(env, before);
          assert pending != [] ==> frames[|before|] == pending[0];
          assert Stuck(env, frames, |before|);
          return Failed;
        }
        var f := pending[0];
        assert frames[|before|] == f;
        assert before + pending == (before + [f]) + pending[1..];
        pending := pending[1..];
        var ok := true;
        match f {
          case NoData => Skip(f);
          case DoneMarker => ok := Finalize(f);
          case Data(chunk) => ok := ConsumeChunk(f);
        }
        if !ok {
          assert Stuck(env, frames, |before|);
          return Failed;
        }
      }
      var e := queue[0];
      QueuedLess(env, queue, sent);
      FitLess(env, queue);
      queue := queue[1..];
      if !ValidModelEvent(env, e) { return Failed; }
      return Next(e);
    }

    method Skip(f: Input)
      requires Valid() && !done && f == NoData
      modifies this`consumed
      ensures Valid() && consumed == old(consumed) + [f]
    {
      hide TextOf, DeltasOf, TextIn, DeltasIn, UsageIn, Queued, Checked, Framed, Settled, Accumulates, CallsOf, UsageOf, FinishIn, Viable, Fit,
           Terminated;
      Says(consumed, f);
      Turns(consumed, f);
      ViableMore(env, consumed, f);
      NoDataTaken(env, consumed);
      consumed := consumed + [f];
    }

    method ReportError(f: Input)
      requires Valid() && !done && queue == [] && f.Data? && f.chunk.Some? && f.chunk.value.error
      modifies this
      ensures Valid() && |sent| - |queue| == old(|sent|) && consumed == old(consumed) + [f]
      ensures pending == old(pending) && old(sent) <= sent
    {
      hide TextOf, UsageOf, CallsOf, DeltasOf, TextIn, DeltasIn, UsageIn, Queued, Checked, Framed, Accumulates, Assembles, FinishIn, Viable,
           Fit, Terminated, ValidModelEvent, Failure, IsTerminal, Adds, Concluded, Carries, Settled, Takes;
      ReportTaken(env, consumed, f);
      ViableMore(env, consumed, f);
      Turns(consumed, f);
      NothingFits(env);
      EventsFit(env);
      TerminalEvents();
      FailureShape();
      ghost var before := sent;
      Enqueue(Failure());
      Reported(before, sent, consumed, f, usage);
      done := true;
      consumed := consumed + [f];
    }

    /** consumeChunk: one chunk. It succeeds exactly for one that may come next; on failure nothing is promised any more. */
    method ConsumeChunk(f: Input) returns (ok: bool)
      requires Valid() && !done && queue == [] && f.Data?
      modifies this
      ensures ok <==> Takes(env, old(consumed), f)
      ensures ok ==> Valid() && |sent| - |queue| == old(|sent|) && consumed == old(consumed) + [f]
      ensures pending == old(pending) && old(sent) <= sent
    {
      hide TextOf, UsageOf, CallsOf, DeltasOf, TextIn, DeltasIn, UsageIn, Queued, Checked, Framed, Accumulates, Settled, ValidUsage, FinishIn,
           Viable, Fit, Terminated, Concluded, OrderlyCall;
      if f.chunk.None? { return false; }
      var chunk := f.chunk.value;
      if chunk.error {
        ReportError(f);
        return true;
      }
      if |chunk.choices| > 1 { return false; }
      if chunk.usage.Some? && (usage.Some? || !ValidUsage(UsageFrom(chunk.usage.value))) { return false; }
      if chunk.usage.Some? { usage := Some(UsageFrom(chunk.usage.value)); }
      Says(consumed, f);
      Turns(consumed, f);
      ViableMore(env, consumed, f);
      NothingFits(env);
      if chunk.choices != [] {
        ok := ConsumeChoice(chunk.choices[0]);
        if !ok { return false; }
      }
      NotTerminal(sent, consumed + [f]);
      consumed := consumed + [f];
      return true;
    }

    method ConsumeChoice(choice: Choice) returns (ok: bool)
      requires Served() && Open() && Fit(env, queue)
      modifies this`sequence, this`queue, this`sent, this`calls, this`finish
      ensures old(sent) <= sent
      ensures ok <==>
        && choice.index == 0 && (forall i :: 0 <= i < |choice.calls| ==> OrderlyCall(choice.calls[i]))
        && (choice.finish.Some? ==> old(finish) == "" || old(finish) == choice.finish.value)
      ensures ok ==> Served() && Open() && Fit(env, queue) && |sent| - |queue| == old(|sent| - |queue|)
      ensures ok ==> finish == if choice.finish.Some? then choice.finish.value else old(finish)
      ensures ok ==> TextOf(sent) == TextOf(old(sent)) + (OrEmpty(choice.content) + OrEmpty(choice.refusal))
      ensures ok ==> DeltasOf(sent) == DeltasOf(old(sent)) + DeltasFrom(choice.calls)
    {
      hide TextOf, UsageOf, CallsOf, DeltasOf, Queued, Checked, Framed, Accumulates, DeltasFrom, Fit, ValidModelEvent, OrderlyCall;
      if choice.index != 0 { return false; }
      if choice.content.Some? && choice.content.value != "" { Speak(choice.content.value); }
      if choice.refusal.Some? && choice.refusal.value != "" { Speak(choice.refusal.value); }
      ok := Accumulate(choice.calls);
      if !ok { return false; }
      if choice.finish.Some? {
        if finish != "" && finish != choice.finish.value { return false; }
        finish := choice.finish.value;
      }
    }

    /** A piece of text. */
    method Speak(text: string)
      requires Served() && Open() && Fit(env, queue) && text != ""
      modifies this`sequence, this`queue, this`sent
      ensures Served() && Open() && Fit(env, queue) && old(sent) <= sent && |sent| - |queue| == old(|sent| - |queue|)
      ensures TextOf(sent) == TextOf(old(sent)) + text && DeltasOf(sent) == DeltasOf(old(sent))
    {
      hide TextOf, UsageOf, CallsOf, DeltasOf, Queued, Checked, Framed, Accumulates, Fit, ValidModelEvent;
      TextFits(env, text);
      Enqueue(Bare(TextDeltaEvent).(text := text));
    }

    /** The fragment loop: check, accumulate under the index, and pass the fragment on. */
    method Accumulate(chunks: seq<CallChunk>) returns (ok: bool)
      requires Served() && Open() && Fit(env, queue)
      modifies this`sequence, this`queue, this`sent, this`calls
      ensures old(sent) <= sent
      ensures ok <==> forall i :: 0 <= i < |chunks| ==> OrderlyCall(chunks[i])
      ensures ok ==> Served() && Open() && Fit(env, queue) && |sent| - |queue| == old(|sent| - |queue|)
      ensures ok ==> TextOf(sent) == TextOf(old(sent)) && DeltasOf(sent) == DeltasOf(old(sent)) + DeltasFrom(chunks)
    {
      hide TextOf, UsageOf, CallsOf, DeltasOf, Queued, Checked, Framed, Accumulates, ValidDelta, Fit, ValidModelEvent;
      for k := 0 to |chunks|
        invariant Served() && Open() && Fit(env, queue) && |sent| - |queue| == old(|sent| - |queue|) && old(sent) <= sent
        invariant TextOf(sent) == TextOf(old(sent)) && DeltasOf(sent) == DeltasOf(old(sent)) + DeltasFrom(chunks[..k])
        invariant forall i :: 0 <= i < k ==> OrderlyCall(chunks[i])
      {
        var c := chunks[k];
        assert chunks[..k + 1][..k] == chunks[..k];
        if c.index < 0 || (c.kind != "" && c.kind != "function") { return false; }
        var delta := DeltaOf(c);
        if !ValidDelta(delta) { return false; }
        var acc := if c.index in calls then calls[c.index] else ToolCall("", "", "");
        AccumulatesMore(calls, DeltasOf(sent), delta);
        calls := calls[c.index := ToolCall(acc.id + c.id, acc.name + c.name, acc.input + c.arguments)];
        FragmentFits(env, delta);
        Enqueue(Bare(ToolCallDeltaEvent).(delta := Some(delta)));
      }
      assert chunks[..|chunks|] == chunks;
      return true;
    }

    /** finalize: complete the calls in index order, then usage, then the stop. It succeeds exactly when the stream may end. */
    method Finalize(f: Input) returns (ok: bool)
      requires Valid() && !done && queue == [] && f == DoneMarker
      modifies this
      ensures ok <==> Takes(env, old(consumed), f)
      ensures ok ==> Valid() && |sent| - |queue| == old(|sent|) && consumed == old(consumed) + [f]
      ensures ok ==> finish != "" && sent[|sent| - 1].stop == NormalizeFinish(finish)
      ensures pending == old(pending) && old(sent) <= sent
    {
      hide TextOf, UsageOf, CallsOf, DeltasOf, TextIn, DeltasIn, UsageIn, Queued, Checked, Framed, Accumulates, NormalizeFinish, Settled,
           Assembles, FinishIn, Viable, Fit, Terminated, Completable;
      if finish == "" { return false; }
      Says(consumed, f);
      Turns(consumed, f);
      ViableMore(env, consumed, f);
      NothingFits(env);
      var stop := NormalizeFinish(finish);
      NoCallsIff(calls, DeltasOf(sent));
      UsageReported(env, consumed);
      if stop == ToolUse && calls == map[] { return false; }
      if stop != ToolUse && calls != map[] { return false; }
      ok := CompleteCalls();
      if !ok { return false; }
      Close(stop);
      StoppedBy(sent, consumed, finish);
      consumed := consumed + [f];
    }

    /** Usage, if any was reported, and the stop. */
    method Close(stop: StopReason)
      requires Served() && Framed(sent, true, false) && Assembles(CallsOf(sent), DeltasOf(sent)) && UsageOf(sent) == NO_USAGE
      requires Fit(env, queue) && ValidStop(stop) && (usage.Some? ==> ValidUsage(usage.value))
      modifies this`sequence, this`queue, this`sent, this`done
      ensures Served() && done && Framed(sent, true, true) && Settled(sent, usage) && Fit(env, queue)
      ensures old(sent) <= sent && |sent| - |queue| == old(|sent| - |queue|)
      ensures sent != [] && sent[|sent| - 1].kind == StopEvent && sent[|sent| - 1].stop == stop
      ensures TextOf(sent) == TextOf(old(sent)) && DeltasOf(sent) == DeltasOf(old(sent))
    {
      hide TextOf, UsageOf, CallsOf, DeltasOf, Queued, Checked, Framed, Assembles, Fit, ValidModelEvent, ValidUsage, ValidStop;
      if usage.Some? {
        UsageFits(env, usage.value);
        Enqueue(Bare(UsageEvent).(usage := usage));
      }
      StopFits(env, stop);
      Enqueue(Bare(StopEvent).(stop := stop));
      done := true;
    }

    /** The calls in index order: completed exactly when each is valid and none repeats an identifier. */
    method CompleteCalls() returns (ok: bool)
      requires Served() && Open() && Fit(env, queue)
      modifies this`sequence, this`queue, this`sent
      ensures old(sent) <= sent
      ensures ok <==> Completable(env, DeltasOf(old(sent)))
      ensures ok ==> Served() && Framed(sent, true, false) && Fit(env, queue) && |sent| - |queue| == old(|sent| - |queue|)
      ensures ok ==> TextOf(sent) == TextOf(old(sent)) && DeltasOf(sent) == DeltasOf(old(sent)) && UsageOf(sent) == UsageOf(old(sent))
      ensures ok ==> Assembles(CallsOf(sent), DeltasOf(sent))
    {
      hide TextOf, UsageOf, CallsOf, DeltasOf, Queued, Checked, Framed, ValidCall, Increasing, IndexesOf, CallsSeen, Assembles, Assembled, Fit,
           ValidModelEvent, Completable;
      var order := SortedKeys(calls.Keys);
      ghost var ds := DeltasOf(sent);
      var seen: set<string> := {};
      NoneSeen();
      for k := 0 to |order|
        invariant Served() && Framed(sent, true, false) && Fit(env, queue)
        invariant |sent| - |queue| == old(|sent| - |queue|) && old(sent) <= sent
        invariant TextOf(sent) == TextOf(old(sent)) && DeltasOf(sent) == ds && UsageOf(sent) == UsageOf(old(sent))
        invariant |CallsOf(sent)| == k && forall j :: 0 <= j < k ==> CallsOf(sent)[j] == Assembled(ds, order[j])
        invariant forall j :: 0 <= j < k ==> ValidCall(env, Assembled(ds, order[j]))
        invariant CallsSeen(seen, CallsOf(sent))
      {
        assert order[k] in order;
        var call := calls[order[k]];
        if !ValidCall(env, call) {
          NotCompletable(env, ds, order, k);
          return false;
        }
        if call.id in seen {
          SeenBefore(seen, CallsOf(sent), call.id);
          RepeatedCall(env, ds, order, CallsOf(sent), k);
          return false;
        }
        CallsSeenMore(seen, CallsOf(sent), call);
        seen := seen + {call.id};
        CallFits(env, call);
        Enqueue(Bare(ToolCallEvent).(call := Some(call)));
      }
      Gathered(CallsOf(sent), ds, order, seen);
      AllCompletable(env, CallsOf(sent), ds, order, seen);
      return true;
    }
  }

  lemma NoDataTaken(env: Env, h: seq<Input>)
    ensures Takes(env, h, NoData) && !Terminal(NoData)
  {
  }

  lemma ReportTaken(env: Env, h: seq<Input>, f: Input)
    requires f.Data? && f.chunk.Some? && f.chunk.value.error
    ensures Takes(env, h, f) && Terminal(f) && FinishOf(f).None? && f != DoneMarker
  {
    hide Orderly;
  }

  /** A failed stream carries the text and fragments so far, and neither calls nor usage. */
  lemma Reported(sent: seq<ModelEvent>, sent': seq<ModelEvent>, h: seq<Input>, f: Input, usage: Option<Usage>)
    requires Carries(sent, h) && CallsOf(sent) == [] && UsageOf(sent) == NO_USAGE && Adds(sent, sent', Failure())
    requires f.Data? && f.chunk.Some? && f.chunk.value.error
    requires sent' != [] && sent'[|sent'| - 1] == Failure().(sequence := sent'[|sent'| - 1].sequence)
    ensures Carries(sent', h + [f]) && Settled(sent', usage) && UsageIn(h + [f]) == UsageIn(h) && Concluded(sent', h + [f])
  {
    hide TextOf, UsageOf, CallsOf, DeltasOf, TextIn, DeltasIn, UsageIn, Assembles, FinishIn;
    FailureShape();
    Says(h, f);
  }

  lemma StoppedBy(sent: seq<ModelEvent>, h: seq<Input>, reason: string)
    requires sent != [] && sent[|sent| - 1].kind == StopEvent && sent[|sent| - 1].stop == NormalizeFinish(reason) && reason == FinishIn(h)
    ensures Concluded(sent, h + [DoneMarker])
  {
    Turns(h, DoneMarker);
  }

  lemma NotTerminal(sent: seq<ModelEvent>, h: seq<Input>)
    requires !Terminated(h)
    ensures Concluded(sent, h)
  {
  }

  lemma FragmentFits(env: Env, d: ToolCallDelta)
    requires ValidDelta(d)
    ensures ValidModelEvent(env, Bare(ToolCallDeltaEvent).(sequence := 1, delta := Some(d)))
  {
    hide Clean;
  }

  lemma NoCallsIff(calls: map<int, ToolCall>, ds: seq<ToolCallDelta>)
    requires Accumulates(calls, ds)
    ensures calls == map[] <==> ds == []
  {
    if ds != [] { assert ds[0].index in IndexesOf(ds); }
    if calls == map[] { assert calls.Keys == {}; }
  }

  /** Whatever usage the chunks reported is valid. */
  lemma {:induction false} UsageReported(env: Env, h: seq<Input>)
    requires Viable(env, h)
    ensures UsageIn(h).Some? ==> ValidUsage(UsageIn(h).value)
  {
    hide MayEnd, ValidUsage, OrderlyCall;
    if h != [] {
      var init, f := h[..|h| - 1], h[|h| - 1];
      assert h == init + [f];
      ViableMore(env, init, f);
      UsageReported(env, init);
    }
  }

  lemma NotCompletable(env: Env, ds: seq<ToolCallDelta>, order: seq<int>, k: nat)
    requires k < |order| && (forall i :: i in order <==> i in IndexesOf(ds)) && !ValidCall(env, Assembled(ds, order[k]))
    ensures !Completable(env, ds)
  {
    hide IndexesOf, Assembled, ValidCall;
    assert order[k] in order;
  }

  lemma SeenBefore(seen: set<string>, calls: seq<ToolCall>, id: string)
    requires CallsSeen(seen, calls) && id in seen
    ensures exists k :: 0 <= k < |calls| && calls[k].id == id
  {
  }

  lemma RepeatedCall(env: Env, ds: seq<ToolCallDelta>, order: seq<int>, calls: seq<ToolCall>, k: nat)
    requires k == |calls| < |order| && (forall i :: i in order <==> i in IndexesOf(ds)) && Increasing(order)
    requires forall j :: 0 <= j < k ==> calls[j] == Assembled(ds, order[j])
    requires exists j :: 0 <= j < k && calls[j].id == Assembled(ds, order[k]).id
    ensures !Completable(env, ds)
  {
    hide IndexesOf, Assembled, ValidCall;
    var j :| 0 <= j < k && calls[j].id == Assembled(ds, order[k]).id;
    assert order[j] in order && order[k] in order && order[j] < order[k];
  }

  lemma AllCompletable(env: Env, calls: seq<ToolCall>, ds: seq<ToolCallDelta>, order: seq<int>, seen: set<string>)
    requires |order| == |calls| && (forall i :: i in order <==> i in IndexesOf(ds)) && CallsSeen(seen, calls)
    requires forall k :: 0 <= k < |order| ==> calls[k] == Assembled(ds, order[k]) && ValidCall(env, Assembled(ds, order[k]))
    ensures Completable(env, ds)
  {
    hide IndexesOf, Assembled, ValidCall;
    forall i, j | i in IndexesOf(ds) && j in IndexesOf(ds) && i != j ensures Assembled(ds, i).id != Assembled(ds, j).id {
      var m :| 0 <= m < |order| && order[m] == i;
      var n :| 0 <= n < |order| && order[n] == j;
      assert calls[m].id != calls[n].id;
    }
  }

  lemma NoneSeen()
    ensures CallsSeen({}, [])
  {
  }

  lemma Gathered(calls: seq<ToolCall>, ds: seq<ToolCallDelta>, order: seq<int>, seen: set<string>)
    requires Increasing(order) && |order| == |calls| && (forall i :: i in order <==> i in IndexesOf(ds)) && CallsSeen(seen, calls)
    requires forall k :: 0 <= k < |order| ==> calls[k] == Assembled(ds, order[k])
    ensures Assembles(calls, ds)
  {
    hide Increasing, IndexesOf, Assembled;
  }

  /**
   DrainStream over this adapter, for every sequence of chunks: the validator never objects, a stream that ends has
   delivered exactly the text, fragments, completed calls and usage of the chunks read, and one that breaks exactly what the
   chunks before the break came to.
   */
  method Drain(env: Env, frames: seq<Input>) returns (events: seq<ModelEvent>, read: nat, end: Ending)
    ensures end != Violated
    ensures WellFormed(env, events) && AcceptAll(env, events).Some?
    ensures end == Ended ==> Complete(AcceptAll(env, events).value)
    ensures read <= |frames| && (end == Ended ==> Carries(events, frames[..read]) && Settled(events, UsageIn(frames[..read])))
    ensures end == Broken ==> Partial(env, events, frames, read)
    ensures end == Ended <==> exists n :: Finishes(env, frames, n)
    ensures end == Ended ==> Finishes(env, frames, read) && Concluded(events, frames[..read])
  {
    hide Viable, Terminated, Fit, Stuck, Concluded, FinishIn, Partial, Carries, ValidModelEvent, Framed, UsageIn, Settled, Accumulates, WellFormed, CallsOf, UsageOf, DeltasOf,
         AcceptAll;
    var stream := new ChatStream(env, frames);
    var validator := new ModelStreamValidator();
    events := [];
    AcceptNone(env);
    while true
      invariant stream.Valid() && stream.env == env && stream.consumed + stream.pending == frames
      invariant events == stream.sent[..|stream.sent| - |stream.queue|]
      invariant AcceptAll(env, events) == Some(validator.State()) && WellFormed(env, events)
      decreases |stream.pending|, |stream.queue|
    {
      ghost var sent, taken := stream.sent, |events|;
      var r := stream.Recv(false);
      read := |frames| - |stream.pending|;
      match r {
        case Failed =>
          ghost var n :| Stuck(env, frames, n);
          forall m: nat ensures !Finishes(env, frames, m) { StuckNeverFinishes(env, frames, n, m); }
          return events, read, Broken;
        case EOF =>
          FramedPrefix(env, stream.sent, true, stream.done, |stream.sent|);
          assert stream.sent[..|stream.sent|] == stream.sent && events == stream.sent;
          assert frames[..read] == stream.consumed;
          assert Finishes(env, frames, read);
          return events, read, if Complete(validator.State()) then Ended else Violated;
        case Next(e) =>
          assert stream.sent[..taken] == sent[..taken];
          FramedPrefix(env, stream.sent, true, stream.done, taken + 1);
          assert stream.sent[..taken + 1] == events + [e];
          AcceptSnoc(env, events, e);
          var ok := validator.Accept(env, e);
          if !ok { return events, read, Violated; }
          events := events + [e];
      }
    }
  }
}
