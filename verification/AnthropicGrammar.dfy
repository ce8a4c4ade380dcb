/**
 The grammar of a Messages stream: what a reply consists of, the frames that write it,
 and the proof that the reader ends exactly on such frames (provider/anthropic/stream.go).
 */
module AnthropicGrammar {
  import opened Types
  import opened Anthropic

  // ---- Frames as tokens --------------------------------------------------------------------

  datatype Token =
    | Opened(usage: WireUsage)
    | ProseBegun(index: int, text: string) | ProseMore(index: int, text: string)
    | ToolBegun(index: int, id: string, name: string, input: string) | ToolMore(index: int, json: string)
    | PieceEnded(index: int)
    | Announced(reason: string, report: Option<WireUsage>)
    | Finished | Failed

  /** What a frame means, if it is complete. */
  function TokenOf(e: Envelope): Option<Token> {
    match e.kind
    case MessageStart => if e.message.Some? then Some(Opened(e.message.value)) else None
    case BlockStart =>
      if e.block.None? || e.block.value.kind == OtherBlock then None
      else if e.block.value.kind == TextBlock then Some(ProseBegun(e.index, e.block.value.text))
      else Some(ToolBegun(e.index, e.block.value.id, e.block.value.name, InitialInput(e.block.value)))
    case BlockDelta =>
      if e.delta.None? || e.delta.value.kind == OtherDelta then None
      else if e.delta.value.kind == TextDelta then Some(ProseMore(e.index, e.delta.value.text))
      else Some(ToolMore(e.index, e.delta.value.partialJSON))
    case BlockStop => Some(PieceEnded(e.index))
    case MessageDelta =>
      if e.delta.None? || e.delta.value.stopReason.None? then None else Some(Announced(e.delta.value.stopReason.value, e.usage))
    case MessageStop => Some(Finished)
    case ErrorFrame => Some(Failed)
    case _ => None
  }

  /** The event name and the payload agree. */
  predicate Proper(f: Input) {
    f.Frame? && f.envelope.Some? && f.envelope.value.kind != NoKind && f.name == f.envelope.value.kind
  }

  predicate Mute(f: Input) {
    f == NoData || (Proper(f) && f.envelope.value.kind == Ping)
  }

  predicate Means(f: Input, t: Token) {
    Proper(f) && TokenOf(f.envelope.value) == Some(t)
  }

  function Lex(h: seq<Input>): Option<seq<Token>> {
    if h == [] then Some([])
    else
      var before, f := Lex(h[..|h| - 1]), h[|h| - 1];
      if before.None? || Mute(f) then before
      else if Proper(f) && TokenOf(f.envelope.value).Some? then Some(before.value + [TokenOf(f.envelope.value).value])
      else None
  }

  lemma LexSnoc(h: seq<Input>, f: Input)
    ensures Lex(h + [f]) ==
            if Lex(h).None? || Mute(f) then Lex(h)
            else if Proper(f) && TokenOf(f.envelope.value).Some? then Some(Lex(h).value + [TokenOf(f.envelope.value).value]) else None
  {
    assert (h + [f])[..|h|] == h;
  }

  // ---- Replies -------------------------------------------------------------------------------

  /** A piece of a reply, written in one go or in several: prose, or a call of a tool. */
  datatype Piece = Prose(first: string, more: seq<string>) | Tool(id: string, name: string, first: string, more: seq<string>)
  datatype Closing = Closing(reason: string, usage: Option<WireUsage>)

  /** A reply so far: its finished pieces, perhaps one being written, and after the last of them its closing reports. */
  datatype Reply = Reply(usage: WireUsage, pieces: seq<Piece>, open: Option<Piece>, closings: seq<Closing>)

  function Joined(parts: seq<string>): string {
    if parts == [] then "" else Joined(parts[..|parts| - 1]) + parts[|parts| - 1]
  }

  function Written(p: Piece): string {
    p.first + Joined(p.more)
  }

  function CallOf(p: Piece): ToolCall
    requires p.Tool?
  {
    ToolCall(p.id, p.name, CompletedInput(Written(p)))
  }

  /** The calls the pieces make, in order. */
  function Calls(ps: seq<Piece>): seq<ToolCall> {
    if ps == [] then []
    else
      var last := ps[|ps| - 1];
      if last.Tool? then Calls(ps[..|ps| - 1]) + [CallOf(last)] else Calls(ps[..|ps| - 1])
  }

  function Words(ps: seq<Piece>): string {
    if ps == [] then ""
    else
      var last := ps[|ps| - 1];
      Words(ps[..|ps| - 1]) + if last.Prose? then Written(last) else ""
  }

  function Text(r: Reply): string {
    Words(r.pieces) + if r.open.Some? && r.open.value.Prose? then Written(r.open.value) else ""
  }

  function Totals(first: WireUsage, cs: seq<Closing>): Usage {
    if cs == [] then Reported(NO_USAGE, first)
    else
      var before, last := Totals(first, cs[..|cs| - 1]), cs[|cs| - 1];
      if last.usage.Some? then Reported(before, last.usage.value) else before
  }

  function Reason(cs: seq<Closing>): string {
    if cs == [] then "" else cs[|cs| - 1].reason
  }

  /** A piece that can be written: no empty fragment, and clean names. */
  predicate Writable(p: Piece) {
    && (forall i :: 0 <= i < |p.more| ==> p.more[i] != "")
    && (p.Tool? ==> Clean(p.id) && Clean(p.name))
  }

  /** Usage totals never fall. */
  predicate Rising(first: WireUsage, cs: seq<Closing>) {
    && Grows(NO_USAGE, first)
    && forall i :: 0 <= i < |cs| && cs[i].usage.Some? ==> Grows(Totals(first, cs[..i]), cs[i].usage.value)
  }

  /** A reason once announced does not change. */
  predicate Constant(cs: seq<Closing>) {
    forall i, j :: 0 <= i < j < |cs| ==> cs[i].reason == "" || cs[i].reason == cs[j].reason
  }

  /** A reply that may be written so far. */
  predicate Valid(env: Env, r: Reply) {
    && (forall i :: 0 <= i < |r.pieces| ==> Writable(r.pieces[i]))
    && (forall i :: 0 <= i < |r.pieces| && r.pieces[i].Tool? ==> ValidCall(env, CallOf(r.pieces[i])))
    && (forall i, j :: 0 <= i < j < |r.pieces| && r.pieces[i].Tool? && r.pieces[j].Tool? ==> r.pieces[i].id != r.pieces[j].id)
    && (r.open.Some? ==> Writable(r.open.value) && r.closings == [])
    && Rising(r.usage, r.closings) && Constant(r.closings)
  }

  /** A reply that may end. */
  predicate Complete(env: Env, r: Reply) {
    Valid(env, r) && r.open.None? && Reason(r.closings) != ""
  }

  // ---- How a reply is written -----------------------------------------------------------------

  function Beginning(p: Piece, k: int): Token {
    if p.Prose? then ProseBegun(k, p.first) else ToolBegun(k, p.id, p.name, p.first)
  }

  function More(p: Piece, k: int): seq<Token> {
    seq(|p.more|, i requires 0 <= i < |p.more| => if p.Prose? then ProseMore(k, p.more[i]) else ToolMore(k, p.more[i]))
  }

  function Writing(p: Piece, k: int): seq<Token> {
    [Beginning(p, k)] + More(p, k)
  }

  function PieceTokens(ps: seq<Piece>): seq<Token> {
    if ps == [] then [] else PieceTokens(ps[..|ps| - 1]) + Writing(ps[|ps| - 1], |ps| - 1) + [PieceEnded(|ps| - 1)]
  }

  function ClosingTokens(cs: seq<Closing>): seq<Token> {
    seq(|cs|, i requires 0 <= i < |cs| => Announced(cs[i].reason, cs[i].usage))
  }

  function TokensOf(r: Reply): seq<Token> {
    [Opened(r.usage)] + PieceTokens(r.pieces) + (if r.open.Some? then Writing(r.open.value, |r.pieces|) else []) + ClosingTokens(r.closings)
  }

  // ---- One token back ---------------------------------------------------------------------------

  /** The reply before its last token, if that was not its first. */
  function Before(r: Reply): Option<Reply> {
    if r.closings != [] then Some(r.(closings := r.closings[..|r.closings| - 1]))
    else if r.open.Some? then
      var p := r.open.value;
      Some(r.(open := if p.more != [] then Some(p.(more := p.more[..|p.more| - 1])) else None))
    else if r.pieces != [] then Some(r.(pieces := r.pieces[..|r.pieces| - 1], open := Some(r.pieces[|r.pieces| - 1])))
    else None
  }

  function Last(r: Reply): Token {
    if r.closings != [] then Announced(r.closings[|r.closings| - 1].reason, r.closings[|r.closings| - 1].usage)
    else if r.open.Some? then
      var p, k := r.open.value, |r.pieces|;
      if p.more == [] then Beginning(p, k)
      else if p.Prose? then ProseMore(k, p.more[|p.more| - 1])
      else ToolMore(k, p.more[|p.more| - 1])
    else if r.pieces != [] then PieceEnded(|r.pieces| - 1)
    else Opened(r.usage)
  }

  lemma LastClosing(r: Reply)
    requires r.closings != [] && r.open.None?
    ensures TokensOf(r) == TokensOf(Before(r).value) + [Last(r)]
  {
    hide PieceTokens;
    assert ClosingTokens(r.closings) == ClosingTokens(r.closings[..|r.closings| - 1]) + [Last(r)];
  }

  lemma LastFragment(r: Reply)
    requires r.closings == [] && r.open.Some?
    ensures TokensOf(r) == TokensOf(Before(r).value) + [Last(r)]
  {
    hide PieceTokens;
    var p, k := r.open.value, |r.pieces|;
    if p.more != [] {
      assert More(p, k) == More(p.(more := p.more[..|p.more| - 1]), k) + [Last(r)];
    }
  }

  lemma LastPiece(r: Reply)
    requires r.closings == [] && r.open.None? && r.pieces != []
    ensures TokensOf(r) == TokensOf(Before(r).value) + [Last(r)]
  {
    hide Writing;
    assert ClosingTokens([]) == [];
  }

  lemma LastToken(r: Reply)
    requires r.open.Some? ==> r.closings == []
    ensures TokensOf(r) == (if Before(r).Some? then TokensOf(Before(r).value) else []) + [Last(r)]
  {
    hide TokensOf, Last;
    if r.closings != [] { LastClosing(r); }
    else if r.open.Some? { LastFragment(r); }
    else if r.pieces != [] { LastPiece(r); }
    else { OnlyOpened(r); }
  }

  lemma OnlyOpened(r: Reply)
    requires r.closings == [] && r.open.None? && r.pieces == []
    ensures TokensOf(r) == [Last(r)]
  {
    assert ClosingTokens([]) == [];
  }

  lemma BeforeValid(env: Env, r: Reply)
    requires Valid(env, r) && Before(r).Some?
    ensures Valid(env, Before(r).value)
  {
    hide ValidCall, Clean, Grows, CallOf;
    if r.closings != [] {
      var cs := r.closings[..|r.closings| - 1];
      forall i | 0 <= i < |cs| && cs[i].usage.Some? ensures Grows(Totals(r.usage, cs[..i]), cs[i].usage.value) {
        assert cs[..i] == r.closings[..i] && cs[i] == r.closings[i];
      }
    }
  }

  // ---- What the frames of a reply say ---------------------------------------------------------

  /** The open block of the frames is the piece being written. */
  predicate OpenAs(open: Option<OpenBlock>, r: Reply) {
    match r.open
    case None => open.None?
    case Some(p) =>
      && open.Some? && open.value.index == |r.pieces|
      && if p.Prose? then open.value.kind == TextBlock
         else open.value == OpenBlock(|r.pieces|, ToolUseBlock, p.id, p.name, Written(p))
  }

  /** Everything the frames say is what the reply has. */
  predicate Says(h: seq<Input>, r: Reply) {
    && StartedIn(h) && (ClosingIn(h) <==> r.closings != []) && ReasonIn(h) == Reason(r.closings)
    && OpenAs(OpenIn(h), r) && BlocksIn(h) == |r.pieces| + (if r.open.Some? then 1 else 0)
    && TotalsIn(h) == Totals(r.usage, r.closings) && CallsIn(h) == Calls(r.pieces) && TextIn(h) == Text(r)
  }

  /** Nothing has been said. */
  predicate Silent(h: seq<Input>) {
    && !StartedIn(h) && !ClosingIn(h) && ReasonIn(h) == "" && OpenIn(h).None? && BlocksIn(h) == 0
    && TotalsIn(h) == NO_USAGE && CallsIn(h) == [] && TextIn(h) == ""
  }

  lemma Snoc(h: seq<Input>, f: Input)
    ensures StartedIn(h + [f]) == (StartedIn(h) || Is(f, MessageStart)) && ClosingIn(h + [f]) == (ClosingIn(h) || Is(f, MessageDelta))
    ensures ReasonIn(h + [f]) ==
      if Is(f, MessageDelta) && f.envelope.value.delta.Some? && f.envelope.value.delta.value.stopReason.Some? then
        f.envelope.value.delta.value.stopReason.value
      else ReasonIn(h)
    ensures OpenIn(h + [f]) == FrameOpen(OpenIn(h), f) && BlocksIn(h + [f]) == BlocksIn(h) + (if Is(f, BlockStart) then 1 else 0)
    ensures TotalsIn(h + [f]) == FrameTotals(TotalsIn(h), f) && CallsIn(h + [f]) == CallsIn(h) + FrameCalls(OpenIn(h), f)
    ensures TextIn(h + [f]) == TextIn(h) + FrameText(f)
    ensures Terminated(h + [f]) <==> Terminal(f)
  {
    assert (h + [f])[..|h|] == h;
  }

  lemma MuteKeeps(h: seq<Input>, f: Input)
    requires Mute(f)
    ensures Silent(h) ==> Silent(h + [f])
    ensures forall r :: Says(h, r) ==> Says(h + [f], r)
    ensures !Terminated(h + [f])
  {
    Snoc(h, f);
  }

  lemma JoinedMore(p: Piece)
    requires p.more != []
    ensures Written(p) == Written(p.(more := p.more[..|p.more| - 1])) + p.more[|p.more| - 1]
  {
  }

  lemma SaysClosing(h: seq<Input>, f: Input, r: Reply)
    requires r.closings != [] && r.open.None? && Means(f, Last(r)) && Says(h, Before(r).value)
    ensures Says(h + [f], r) && !Terminated(h + [f])
  {
    hide StartedIn, ClosingIn, ReasonIn, OpenIn, BlocksIn, TotalsIn, CallsIn, TextIn, Reported, InitialInput, Calls, Words, Terminated;
    Snoc(h, f);
    var n := |r.closings| - 1;
    assert r.closings[..n] == Before(r).value.closings;
  }

  lemma SaysFragment(h: seq<Input>, f: Input, r: Reply)
    requires r.closings == [] && r.open.Some? && r.open.value.more != [] && Means(f, Last(r)) && Says(h, Before(r).value)
    ensures Says(h + [f], r) && !Terminated(h + [f])
  {
    hide StartedIn, ClosingIn, ReasonIn, OpenIn, BlocksIn, TotalsIn, CallsIn, TextIn, Reported, InitialInput, Calls, Words, Totals, Terminated,
         Written;
    Snoc(h, f);
    JoinedMore(r.open.value);
  }

  lemma WrittenOnce(p: Piece)
    requires p.more == []
    ensures Written(p) == p.first
  {
  }

  lemma SaysBeginning(h: seq<Input>, f: Input, r: Reply)
    requires r.closings == [] && r.open.Some? && r.open.value.more == [] && Means(f, Last(r)) && Says(h, Before(r).value)
    ensures Says(h + [f], r) && !Terminated(h + [f])
  {
    hide StartedIn, ClosingIn, ReasonIn, OpenIn, BlocksIn, TotalsIn, CallsIn, TextIn, Reported, Calls, Words, Totals, Terminated, Written;
    Snoc(h, f);
    WrittenOnce(r.open.value);
  }

  lemma SaysEnding(h: seq<Input>, f: Input, r: Reply)
    requires r.closings == [] && r.open.None? && r.pieces != [] && Means(f, Last(r)) && Says(h, Before(r).value)
    ensures Says(h + [f], r) && !Terminated(h + [f])
  {
    hide StartedIn, ClosingIn, ReasonIn, OpenIn, BlocksIn, TotalsIn, CallsIn, TextIn, Reported, InitialInput, Totals, Terminated, Written,
         CompletedInput;
    Snoc(h, f);
  }

  lemma SaysOpening(h: seq<Input>, f: Input, r: Reply)
    requires r.closings == [] && r.open.None? && r.pieces == [] && Means(f, Last(r)) && Silent(h)
    ensures Says(h + [f], r) && !Terminated(h + [f])
  {
    hide StartedIn, ClosingIn, ReasonIn, OpenIn, BlocksIn, TotalsIn, CallsIn, TextIn, Reported, InitialInput, Terminated, Written;
    Snoc(h, f);
  }

  /** The frame of a reply's last token says what the token adds. */
  lemma SaysMore(h: seq<Input>, f: Input, r: Reply)
    requires Means(f, Last(r)) && (r.open.Some? ==> r.closings == [])
    requires if Before(r).Some? then Says(h, Before(r).value) else Silent(h)
    ensures Says(h + [f], r) && !Terminated(h + [f])
  {
    hide Says, Silent, Means, Last, Terminated;
    if r.closings != [] { SaysClosing(h, f, r); }
    else if r.open.Some? {
      if r.open.value.more != [] { SaysFragment(h, f, r); } else { SaysBeginning(h, f, r); }
    } else if r.pieces != [] { SaysEnding(h, f, r); }
    else { SaysOpening(h, f, r); }
  }

  /** And it may come next exactly because the reply is valid. */
  lemma TakesNext(env: Env, h: seq<Input>, f: Input, r: Reply)
    requires Valid(env, r) && Means(f, Last(r))
    requires if Before(r).Some? then Says(h, Before(r).value) else Silent(h)
    ensures Takes(env, h, f) && Sound(f)
  {
    hide StartedIn, ClosingIn, ReasonIn, OpenIn, BlocksIn, TotalsIn, CallsIn, TextIn, Reported, Grows, Clean, ValidCall, InitialInput,
         CompletedInput, Totals, Joined;
    if r.closings != [] {
      var n := |r.closings| - 1;
      assert r.closings[..n] == Before(r).value.closings;
      if n > 0 { assert r.closings[n - 1].reason == "" || r.closings[n - 1].reason == r.closings[n].reason; }
    } else if r.open.Some? {
      var p := r.open.value;
      if p.more != [] { assert p.more[|p.more| - 1] != ""; }
      if p.Tool? { CleanSome(p.id); CleanSome(p.name); }
    } else if r.pieces != [] && r.pieces[|r.pieces| - 1].Tool? {
      var n := |r.pieces| - 1;
      CallsDistinct(r.pieces, n);
    }
  }

  lemma CleanSome(s: string)
    requires Clean(s)
    ensures s != ""
  {
  }

  /** The calls of the pieces before the n-th do not have its identifier. */
  lemma {:induction false} CallsDistinct(ps: seq<Piece>, n: nat)
    requires n < |ps| && ps[n].Tool?
    requires forall i, j :: 0 <= i < j < |ps| && ps[i].Tool? && ps[j].Tool? ==> ps[i].id != ps[j].id
    ensures forall k :: 0 <= k < |Calls(ps[..n])| ==> Calls(ps[..n])[k].id != ps[n].id
  {
    CallsFrom(ps[..n]);
    forall k | 0 <= k < |Calls(ps[..n])| ensures Calls(ps[..n])[k].id != ps[n].id {
      var i :| 0 <= i < n && ps[..n][i].Tool? && Calls(ps[..n])[k] == CallOf(ps[..n][i]);
      assert ps[i].Tool?;
    }
  }

  /** One of the pieces makes this call. */
  predicate Made(ps: seq<Piece>, c: ToolCall) {
    exists i :: 0 <= i < |ps| && ps[i].Tool? && c == CallOf(ps[i])
  }

  lemma {:induction false} CallsFrom(ps: seq<Piece>)
    ensures forall k :: 0 <= k < |Calls(ps)| ==> Made(ps, Calls(ps)[k])
  {
    hide CallOf;
    if ps != [] {
      var init, last := ps[..|ps| - 1], ps[|ps| - 1];
      CallsFrom(init);
      forall k | 0 <= k < |Calls(ps)| ensures Made(ps, Calls(ps)[k]) {
        if k < |Calls(init)| {
          var i :| 0 <= i < |init| && init[i].Tool? && Calls(init)[k] == CallOf(init[i]);
          assert ps[i] == init[i];
        } else {
          assert last == ps[|ps| - 1];
        }
      }
    }
  }

  // ---- Written frames are read -------------------------------------------------------------------

  lemma {:induction false} BlankViable(env: Env, h: seq<Input>)
    requires Lex(h) == Some([])
    ensures Viable(env, h) && Silent(h) && !Terminated(h)
  {
    hide Takes, Mute, Proper;
    if h != [] {
      var init, f := h[..|h| - 1], h[|h| - 1];
      assert h == init + [f];
      BlankViable(env, init);
      ViableMore(env, init, f);
      MuteFollows(env, init, f);
      MuteKeeps(init, f);
    }
  }

  lemma MuteFollows(env: Env, h: seq<Input>, f: Input)
    requires Mute(f) && !Terminated(h)
    ensures Follows(env, h, f)
  {
  }

  /** The frames that write a valid reply so far are all read, and say what the reply has. */
  lemma {:induction false} WrittenViable(env: Env, h: seq<Input>, r: Reply)
    requires Lex(h) == Some(TokensOf(r)) && Valid(env, r)
    ensures Viable(env, h) && Says(h, r) && !Terminated(h)
    decreases |h|
  {
    hide Takes, Mute, Valid, Says, Silent, Follows, Viable, Sound, Terminated, TokensOf, Last, Before, TokenOf;
    OpenMeansUnclosed(env, r);
    LastToken(r);
    SomeToken(r);
    var init, f := h[..|h| - 1], h[|h| - 1];
    assert h == init + [f];
    ViableMore(env, init, f);
    LexSnoc(init, f);
    if Mute(f) {
      WrittenViable(env, init, r);
      MuteFollows(env, init, f);
      MuteKeeps(init, f);
    } else {
      Unsnoc(Lex(init).value, TokenOf(f.envelope.value).value, if Before(r).Some? then TokensOf(Before(r).value) else [], Last(r));
      if Before(r).Some? {
        BeforeValid(env, r);
        WrittenViable(env, init, Before(r).value);
      } else {
        BlankViable(env, init);
      }
      MeansLast(f, r);
      TakesNext(env, init, f, r);
      TakenFollows(env, init, f);
      SaysMore(init, f, r);
    }
  }

  lemma Unsnoc(a: seq<Token>, x: Token, b: seq<Token>, y: Token)
    requires a + [x] == b + [y]
    ensures a == b && x == y
  {
    assert (a + [x])[|a|] == (b + [y])[|b|] && a == (a + [x])[..|a|] && b == (b + [y])[..|b|];
  }

  lemma SomeToken(r: Reply)
    ensures TokensOf(r) != []
  {
  }

  lemma OpenMeansUnclosed(env: Env, r: Reply)
    requires Valid(env, r)
    ensures r.open.Some? ==> r.closings == []
  {
  }

  lemma MeansLast(f: Input, r: Reply)
    requires Proper(f) && TokenOf(f.envelope.value) == Some(Last(r))
    ensures Means(f, Last(r))
  {
  }

  lemma TakenFollows(env: Env, h: seq<Input>, f: Input)
    requires Takes(env, h, f) && Sound(f) && !Terminated(h)
    ensures Follows(env, h, f)
  {
  }

  // ---- Read frames were written -----------------------------------------------------------------

  lemma {:induction false} CallsAll(ps: seq<Piece>, i: nat)
    requires i < |ps| && ps[i].Tool?
    ensures exists k :: 0 <= k < |Calls(ps)| && Calls(ps)[k] == CallOf(ps[i])
    decreases |ps|
  {
    hide CallOf;
    var init := ps[..|ps| - 1];
    if i == |ps| - 1 {
      assert Calls(ps)[|Calls(ps)| - 1] == CallOf(ps[i]);
    } else {
      CallsAll(init, i);
      var k :| 0 <= k < |Calls(init)| && Calls(init)[k] == CallOf(init[i]);
      assert Calls(ps)[k] == CallOf(ps[i]);
    }
  }

  lemma ExtendsOpening(env: Env, h: seq<Input>, f: Input) returns (r: Reply)
    requires Silent(h) && Takes(env, h, f) && !Mute(f) && !Terminal(f)
    ensures Valid(env, r) && Before(r).None? && Means(f, Last(r))
  {
    hide StartedIn, ClosingIn, ReasonIn, OpenIn, BlocksIn, TotalsIn, CallsIn, TextIn, Grows, ValidCall, InitialInput;
    r := Reply(f.envelope.value.message.value, [], None, []);
  }

  lemma ExtendsBegin(env: Env, h: seq<Input>, f: Input, b: Reply) returns (r: Reply)
    requires Says(h, b) && Valid(env, b) && Takes(env, h, f) && Sound(f) && Is(f, BlockStart)
    ensures Valid(env, r) && Before(r) == Some(b) && Means(f, Last(r))
  {
    hide StartedIn, ClosingIn, ReasonIn, OpenIn, BlocksIn, TotalsIn, CallsIn, TextIn, Grows, ValidCall, InitialInput, CallOf, Clean, Text,
         Calls, Totals;
    var block := f.envelope.value.block.value;
    r := b.(open := Some(if block.kind == TextBlock then Prose(block.text, []) else Tool(block.id, block.name, InitialInput(block), [])));
  }

  lemma ExtendsFragment(env: Env, h: seq<Input>, f: Input, b: Reply) returns (r: Reply)
    requires Says(h, b) && Valid(env, b) && Takes(env, h, f) && Is(f, BlockDelta)
    ensures Valid(env, r) && Before(r) == Some(b) && Means(f, Last(r))
  {
    hide StartedIn, ClosingIn, ReasonIn, OpenIn, BlocksIn, TotalsIn, CallsIn, TextIn, Grows, ValidCall, InitialInput, CallOf, Clean, Text,
         Calls, Totals, Written;
    var d, p := f.envelope.value.delta.value, b.open.value;
    var part := if d.kind == TextDelta then d.text else d.partialJSON;
    r := b.(open := Some(p.(more := p.more + [part])));
    assert (p.more + [part])[..|p.more|] == p.more;
  }

  lemma ExtendsEnd(env: Env, h: seq<Input>, f: Input, b: Reply) returns (r: Reply)
    requires Says(h, b) && Valid(env, b) && Takes(env, h, f) && Is(f, BlockStop)
    ensures Valid(env, r) && Before(r) == Some(b) && Means(f, Last(r))
  {
    hide StartedIn, ClosingIn, ReasonIn, OpenIn, BlocksIn, TotalsIn, CallsIn, TextIn, Grows, ValidCall, InitialInput, Clean, Text,
         Calls, Totals, Written, CompletedInput;
    var p := b.open.value;
    r := b.(pieces := b.pieces + [p], open := None);
    assert r.pieces[..|r.pieces| - 1] == b.pieces;
    if p.Tool? {
      forall i | 0 <= i < |b.pieces| && b.pieces[i].Tool? ensures b.pieces[i].id != p.id { CallsAll(b.pieces, i); }
    }
  }

  lemma ExtendsClosing(env: Env, h: seq<Input>, f: Input, b: Reply) returns (r: Reply)
    requires Says(h, b) && Valid(env, b) && Takes(env, h, f) && Is(f, MessageDelta)
    ensures Valid(env, r) && Before(r) == Some(b) && Means(f, Last(r))
  {
    hide StartedIn, ClosingIn, ReasonIn, OpenIn, BlocksIn, TotalsIn, CallsIn, TextIn, Grows, ValidCall, InitialInput, CallOf, Clean, Text,
         Calls, Written, Totals, Writable;
    var e := f.envelope.value;
    var c := Closing(e.delta.value.stopReason.value, e.usage);
    var n := |b.closings|;
    r := b.(closings := b.closings + [c]);
    assert r.closings[..n] == b.closings;
    forall i | 0 <= i <= n && r.closings[i].usage.Some? ensures Grows(Totals(r.usage, r.closings[..i]), r.closings[i].usage.value) {
      if i < n { assert r.closings[..i] == b.closings[..i] && r.closings[i] == b.closings[i]; }
    }
    forall i | 0 <= i < n ensures r.closings[i].reason == "" || r.closings[i].reason == c.reason {
      assert b.closings[i].reason == "" || i == n - 1 || b.closings[i].reason == b.closings[n - 1].reason;
    }
  }

  /** A frame that is read next extends the reply by its token. */
  lemma Extends(env: Env, h: seq<Input>, f: Input, before: Option<Reply>) returns (r: Reply)
    requires Takes(env, h, f) && Sound(f) && !Mute(f) && !Terminal(f)
    requires if before.Some? then Says(h, before.value) && Valid(env, before.value) else Silent(h)
    ensures Valid(env, r) && Before(r) == before && Means(f, Last(r))
  {
    if before.None? {
      r := ExtendsOpening(env, h, f);
    } else if Is(f, BlockStart) {
      r := ExtendsBegin(env, h, f, before.value);
    } else if Is(f, BlockDelta) {
      r := ExtendsFragment(env, h, f, before.value);
    } else if Is(f, BlockStop) {
      r := ExtendsEnd(env, h, f, before.value);
    } else {
      hide StartedIn, ClosingIn, ReasonIn, OpenIn, BlocksIn, TotalsIn, CallsIn, TextIn, Valid, Last, Before;
      r := ExtendsClosing(env, h, f, before.value);
    }
  }

  /** Frames that have been read so far were written from a valid reply so far, or say nothing yet. */
  lemma {:induction false} ViableWritten(env: Env, h: seq<Input>) returns (r: Option<Reply>)
    requires Viable(env, h) && !Terminated(h)
    ensures Lex(h) == Some(if r.Some? then TokensOf(r.value) else [])
    ensures r.Some? ==> Valid(env, r.value)
  {
    hide Takes, Mute, Valid, Says, Silent, Viable, Sound, TokensOf, Last, Before, TokenOf;
    if h == [] {
      r := None;
    } else {
      var init, f := h[..|h| - 1], h[|h| - 1];
      assert h == init + [f];
      ViableMore(env, init, f);
      LexSnoc(init, f);
      var before := ViableWritten(env, init);
      if Mute(f) {
        r := before;
      } else {
        if before.Some? { WrittenViable(env, init, before.value); } else { BlankViable(env, init); }
        assert Takes(env, init, f) && Sound(f) by { NoDataIsMute(f); }
        var next := Extends(env, init, f, before);
        OpenMeansUnclosed(env, next);
        LastToken(next);
        r := Some(next);
      }
    }
  }

  lemma NoDataIsMute(f: Input)
    ensures f == NoData ==> Mute(f)
  {
  }

  // ---- Exactly the written streams end ------------------------------------------------------------

  /** The frames write a whole reply, and the last of them ends it. */
  ghost predicate WritesReply(env: Env, h: seq<Input>, r: Reply) {
    h != [] && !Mute(h[|h| - 1]) && Complete(env, r) && Lex(h) == Some(TokensOf(r) + [Finished])
  }

  /** The frames write a reply so far, or nothing, and the last of them reports a failure. */
  ghost predicate WritesFailure(env: Env, h: seq<Input>, r: Option<Reply>) {
    && h != [] && !Mute(h[|h| - 1]) && (r.Some? ==> Valid(env, r.value))
    && Lex(h) == Some((if r.Some? then TokensOf(r.value) else []) + [Failed])
  }

  lemma EndTaken(env: Env, h: seq<Input>, f: Input, r: Option<Reply>)
    requires if r.Some? then Says(h, r.value) && Valid(env, r.value) else Silent(h)
    ensures Means(f, Finished) ==> (Takes(env, h, f) <==> r.Some? && Complete(env, r.value))
    ensures Means(f, Failed) ==> Takes(env, h, f)
    ensures Means(f, Finished) || Means(f, Failed) ==> Sound(f) && Terminal(f)
    ensures Terminal(f) && Takes(env, h, f) ==> Means(f, Finished) || Means(f, Failed)
  {
    hide StartedIn, ClosingIn, ReasonIn, OpenIn, BlocksIn, TotalsIn, CallsIn, TextIn, Grows, ValidCall, InitialInput, Clean, Totals, Calls,
         Text, Written, CallOf, Writable, Rising, Constant;
  }

  /** A stream ends on exactly the frames that write a whole reply, or a valid one so far and then a failure. */
  lemma FinishesIff(env: Env, frames: seq<Input>, n: nat)
    requires n <= |frames|
    ensures Finishes(env, frames, n) <==>
            (exists r :: WritesReply(env, frames[..n], r)) || exists r :: WritesFailure(env, frames[..n], r)
  {
    hide Viable, Takes, Sound, Valid, Says, Silent, TokensOf, Mute, Complete, TokenOf;
    var h := frames[..n];
    if h != [] {
      var init, f := h[..n - 1], h[n - 1];
      assert h == init + [f];
      ViableMore(env, init, f);
      LexSnoc(init, f);
      if Finishes(env, frames, n) {
        var r := ViableWritten(env, init);
        if r.Some? { WrittenViable(env, init, r.value); } else { BlankViable(env, init); }
        NoDataIsMute(f);
        TerminalSpeaks(f);
        EndTaken(env, init, f, r);
        if Means(f, Finished) { assert WritesReply(env, h, r.value); } else { assert WritesFailure(env, h, r); }
      }
      if exists r :: WritesReply(env, h, r) {
        var r :| WritesReply(env, h, r);
        Unsnoc(Lex(init).value, TokenOf(f.envelope.value).value, TokensOf(r), Finished);
        assert Valid(env, r) by { CompleteValid(env, r); }
        WrittenViable(env, init, r);
        EndTaken(env, init, f, Some(r));
      } else if exists r :: WritesFailure(env, h, r) {
        var r :| WritesFailure(env, h, r);
        Unsnoc(Lex(init).value, TokenOf(f.envelope.value).value, if r.Some? then TokensOf(r.value) else [], Failed);
        if r.Some? { WrittenViable(env, init, r.value); } else { BlankViable(env, init); }
        EndTaken(env, init, f, r);
      }
    }
  }

  lemma CompleteValid(env: Env, r: Reply)
    requires Complete(env, r)
    ensures Valid(env, r)
  {
  }

  lemma TerminalSpeaks(f: Input)
    requires Terminal(f)
    ensures !Mute(f)
  {
  }

  // ---- Writing and reading ------------------------------------------------------------------------

  const NO_ENVELOPE := Envelope(NoKind, 0, None, None, None, None)
  const NO_DELTA := Delta(OtherDelta, "", "", None)

  /** A frame for each token. */
  function FrameOf(t: Token): Input {
    match t
    case Opened(u) => Frame(MessageStart, Some(NO_ENVELOPE.(kind := MessageStart, message := Some(u))))
    case ProseBegun(k, text) =>
      Frame(BlockStart, Some(NO_ENVELOPE.(kind := BlockStart, index := k, block := Some(Block(TextBlock, text, "", "", "")))))
    case ToolBegun(k, id, name, input) =>
      Frame(BlockStart, Some(NO_ENVELOPE.(kind := BlockStart, index := k, block := Some(Block(ToolUseBlock, "", id, name, input)))))
    case ProseMore(k, text) =>
      Frame(BlockDelta, Some(NO_ENVELOPE.(kind := BlockDelta, index := k, delta := Some(NO_DELTA.(kind := TextDelta, text := text)))))
    case ToolMore(k, json) =>
      Frame(BlockDelta, Some(NO_ENVELOPE.(kind := BlockDelta, index := k, delta := Some(NO_DELTA.(kind := InputJSONDelta, partialJSON := json)))))
    case PieceEnded(k) => Frame(BlockStop, Some(NO_ENVELOPE.(kind := BlockStop, index := k)))
    case Announced(reason, u) =>
      Frame(MessageDelta, Some(NO_ENVELOPE.(kind := MessageDelta, delta := Some(NO_DELTA.(stopReason := Some(reason))), usage := u)))
    case Finished => Frame(MessageStop, Some(NO_ENVELOPE.(kind := MessageStop)))
    case Failed => Frame(ErrorFrame, Some(NO_ENVELOPE.(kind := ErrorFrame)))
  }

  /** An empty object is what a tool's input starts as, and stands for no input. */
  predicate Plain(t: Token) {
    t.ToolBegun? ==> t.input != "{}"
  }

  lemma FrameMeans(t: Token)
    requires Plain(t)
    ensures Means(FrameOf(t), t) && !Mute(FrameOf(t))
  {
  }

  function FramesOf(ts: seq<Token>): (h: seq<Input>)
    ensures |h| == |ts|
  {
    if ts == [] then [] else FramesOf(ts[..|ts| - 1]) + [FrameOf(ts[|ts| - 1])]
  }

  lemma {:induction false} FramesLex(ts: seq<Token>)
    requires forall i :: 0 <= i < |ts| ==> Plain(ts[i])
    ensures Lex(FramesOf(ts)) == Some(ts)
  {
    if ts != [] {
      var init := ts[..|ts| - 1];
      FramesLex(init);
      FrameMeans(ts[|ts| - 1]);
      LexSnoc(FramesOf(init), FrameOf(ts[|ts| - 1]));
      assert ts == init + [ts[|ts| - 1]];
    }
  }

  /** A whole reply, written as frames and read again, ends after its last frame with its text, calls, usage and stop reason. */
  lemma WrittenIsRead(env: Env, r: Reply)
    requires Complete(env, r) && forall i :: 0 <= i < |TokensOf(r)| ==> Plain(TokensOf(r)[i])
    ensures var h := FramesOf(TokensOf(r) + [Finished]);
      && Finishes(env, h, |h|) && TextIn(h) == Words(r.pieces) && CallsIn(h) == Calls(r.pieces)
      && TotalsIn(h) == Totals(r.usage, r.closings) && ReasonIn(h) == Reason(r.closings)
  {
    hide TextIn, CallsIn, TotalsIn, ReasonIn, TokensOf, Lex, Viable, Finishes, Calls, Words, Totals, FrameOf, TokenOf, StartedIn, ClosingIn,
         OpenIn, BlocksIn, Mute, Plain;
    var ts := TokensOf(r) + [Finished];
    var h := FramesOf(ts);
    assert Plain(Finished) by { FinishedPlain(); }
    FramesLex(ts);
    FrameMeans(Finished);
    assert ts[..|ts| - 1] == TokensOf(r);
    var init := FramesOf(TokensOf(r));
    assert h == init + [FrameOf(Finished)];
    assert h[..|h|] == h;
    assert WritesReply(env, h, r);
    FinishesIff(env, h, |h|);
    FramesLex(TokensOf(r));
    WrittenViable(env, init, r);
    FinishedSilent(init);
  }

  lemma FinishedPlain()
    ensures Plain(Finished)
  {
  }

  lemma FinishedSilent(h: seq<Input>)
    ensures var g := h + [FrameOf(Finished)];
      TextIn(g) == TextIn(h) && CallsIn(g) == CallsIn(h) && TotalsIn(g) == TotalsIn(h) && ReasonIn(g) == ReasonIn(h)
  {
    Snoc(h, FrameOf(Finished));
  }
}
