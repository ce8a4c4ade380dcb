/**
 The context window: how a request is sized against every candidate, when it is admitted
 as it stands, and what a summary is made of when it is not (context.go).
 */
module Context {
  import opened Types
  import opened Protocol

  /** Integer division truncated toward zero, as the program's. */
  function Quotient(a: int, b: int): int
    requires b > 0
  {
    if a >= 0 then a / b else -((-a) / b)
  }

  /** What prepareContext runs against. The counter, the summarizing call and its encoding are arbitrary; no value is a failure. */
  datatype Setting = Setting(
    counter: Option<(seq<Message>, Descriptor) -> Option<int>>, models: seq<Descriptor>, maxOutput: int, automatic: bool,
    level: Class, outputLevel: Class, maxModelCalls: int, summarize: seq<Message> -> Option<string>,
    encode: seq<Message> -> string)

  predicate Declared(s: Setting, i: int) {
    0 <= i < |s.models| && s.models[i].capabilities.contextTokens != 0
  }

  /** The count for one candidate; nothing when there is no counter, it fails, or it is negative. */
  function Counted(s: Setting, ms: seq<Message>, i: nat): Option<int>
    requires i < |s.models|
  {
    if s.counter.None? then None
    else
      var n := s.counter.value(ms, s.models[i]);
      if n.Some? && n.value < 0 then None else n
  }

  function Room(s: Setting, i: nat): int
    requires i < |s.models|
  {
    s.models[i].capabilities.contextTokens - s.maxOutput
  }

  predicate Overflows(n: int, room: int) {
    n > room
  }

  predicate Crosses(n: int, room: int) {
    n > Quotient(room * 80, 100)
  }

  datatype Size = Size(count: int, threshold: bool, overflow: bool)

  ghost predicate Countable(s: Setting, ms: seq<Message>) {
    forall i :: Declared(s, i) ==> Counted(s, ms, i).Some?
  }

  ghost predicate Overflowing(s: Setting, ms: seq<Message>)
    requires Countable(s, ms)
  {
    exists i :: Declared(s, i) && Overflows(Counted(s, ms, i).value, Room(s, i))
  }

  ghost predicate Crossing(s: Setting, ms: seq<Message>)
    requires Countable(s, ms)
  {
    exists i :: Declared(s, i) && Crosses(Counted(s, ms, i).value, Room(s, i))
  }

  /** n is the largest count over the declared windows, and zero when none counts more. */
  ghost predicate Largest(s: Setting, ms: seq<Message>, n: int)
    requires Countable(s, ms)
  {
    && n >= 0 && (forall i :: Declared(s, i) ==> Counted(s, ms, i).value <= n)
    && (n == 0 || exists i :: Declared(s, i) && Counted(s, ms, i).value == n)
  }

  /** contextSize: the largest count, and whether any declared window is passed or nearly filled. */
  method ContextSize(s: Setting, ms: seq<Message>) returns (size: Option<Size>)
    ensures size.Some? <==> Countable(s, ms)
    ensures size.Some? ==>
      && Largest(s, ms, size.value.count)
      && size.value.overflow == Overflowing(s, ms) && size.value.threshold == Crossing(s, ms)
  {
    hide Overflows, Crosses;
    var count, threshold, overflow := 0, false, false;
    for k := 0 to |s.models|
      invariant forall i :: Declared(s, i) && i < k ==> Counted(s, ms, i).Some? && Counted(s, ms, i).value <= count
      invariant count >= 0 && (count == 0 || exists i :: Declared(s, i) && i < k && Counted(s, ms, i).value == count)
      invariant overflow == exists i :: Declared(s, i) && i < k && Overflows(Counted(s, ms, i).value, Room(s, i))
      invariant threshold == exists i :: Declared(s, i) && i < k && Crosses(Counted(s, ms, i).value, Room(s, i))
    {
      if s.models[k].capabilities.contextTokens != 0 {
        assert Declared(s, k);
        if s.counter.None? { return None; }
        var n := s.counter.value(ms, s.models[k]);
        if n.None? || n.value < 0 { return None; }
        if n.value > count { count := n.value; }
        overflow := overflow || Overflows(n.value, Room(s, k));
        threshold := threshold || Crosses(n.value, Room(s, k));
      }
    }
    return Some(Size(count, threshold, overflow));
  }

  /** A count crosses the threshold when it is over 80 percent of the room, but for a zero count one token short of room. */
  lemma CrossesIff(n: int, room: int)
    requires n >= 0
    ensures Crosses(n, room) <==> 100 * n > 80 * room && !(n == 0 && room == -1)
  {
    if room < 0 {
      var q := (-(room * 80)) / 100;
      assert Quotient(room * 80, 100) == -q && q >= 0;
      assert room <= -2 ==> q >= 1;
      assert room == -1 ==> q == 0;
    }
  }

  /** Overflow normally crosses the threshold too. It fails exactly for an empty count one token short of room. */
  lemma OverflowCrosses(n: int, room: int)
    requires n >= 0 && Overflows(n, room)
    ensures Crosses(n, room) <==> !(n == 0 && room == -1)
  {
    if room >= 0 {
      assert room * 80 / 100 <= room;
    } else if room == -1 {
      assert Quotient(room * 80, 100) == 0;
    } else {
      assert (-room) * 80 >= 160;
      assert (-(room * 80)) / 100 >= 1;
    }
  }

  // ---- What a summary is made of ---------------------------------------------------------

  /** No part of the message is above the workload's classification. */
  predicate Permitted(level: Class, m: Message) {
    Rank(RaisedBy(Public, m.content)) <= Rank(level)
  }

  /** RaisedBy is the highest classification: at most the level exactly when every part is. */
  lemma {:induction false} RaisedByBound(a: Class, parts: seq<ContentPart>, level: Class)
    ensures Rank(RaisedBy(a, parts)) <= Rank(level) <==>
            Rank(a) <= Rank(level) && forall i :: 0 <= i < |parts| ==> Rank(Labelled(parts[i].level)) <= Rank(level)
  {
    if parts != [] {
      var init, last := parts[..|parts| - 1], parts[|parts| - 1];
      RaisedByBound(a, init, level);
      assert forall i :: 0 <= i < |init| ==> init[i] == parts[i];
      assert RaisedBy(a, parts) == Raised(RaisedBy(a, init), last.level);
      if forall i :: 0 <= i < |parts| ==> Rank(Labelled(parts[i].level)) <= Rank(level) {
        assert Rank(Labelled(last.level)) <= Rank(level);
      }
    }
  }

  function Labelled(c: Class): Class {
    if c == Unlabelled then Confidential else c
  }

  function Kept(level: Class, ms: seq<Message>): seq<Message> {
    if ms == [] then []
    else
      var rest, last := Kept(level, ms[..|ms| - 1]), ms[|ms| - 1];
      if Permitted(level, last) then rest + [last] else rest
  }

  function Dropped(level: Class, ms: seq<Message>): seq<nat> {
    if ms == [] then []
    else
      var rest := Dropped(level, ms[..|ms| - 1]);
      if Permitted(level, ms[|ms| - 1]) then rest else rest + [|ms| - 1]
  }

  /** The inputs of a summary are exactly the permitted messages: nothing above the workload's level is among them. */
  lemma {:induction false} KeptPermitted(level: Class, ms: seq<Message>)
    ensures forall m :: m in Kept(level, ms) <==> m in ms && Permitted(level, m)
  {
    hide Permitted;
    if ms != [] {
      KeptPermitted(level, ms[..|ms| - 1]);
      assert ms == ms[..|ms| - 1] + [ms[|ms| - 1]];
    }
  }

  /** The excluded positions are exactly those of the other messages, in order. */
  lemma {:induction false} DroppedForbidden(level: Class, ms: seq<Message>)
    ensures forall i: nat :: i in Dropped(level, ms) <==> i < |ms| && !Permitted(level, ms[i])
    ensures forall i, j :: 0 <= i < j < |Dropped(level, ms)| ==> Dropped(level, ms)[i] < Dropped(level, ms)[j]
  {
    hide Permitted;
    if ms != [] {
      var init := ms[..|ms| - 1];
      DroppedForbidden(level, init);
      forall i: nat ensures i in Dropped(level, ms) <==> i < |ms| && !Permitted(level, ms[i]) {
        if i < |init| { assert init[i] == ms[i]; }
      }
      forall i | 0 <= i < |Dropped(level, init)| ensures Dropped(level, init)[i] < |init| {
        assert Dropped(level, init)[i] in Dropped(level, init);
      }
    }
  }

  /** Together they are the whole conversation. */
  lemma {:induction false} SummaryPartition(level: Class, ms: seq<Message>)
    ensures |Kept(level, ms)| + |Dropped(level, ms)| == |ms|
  {
    hide Permitted;
    if ms != [] { SummaryPartition(level, ms[..|ms| - 1]); }
  }

  /** The loop of prepareContext that splits the conversation. */
  method Split(level: Class, ms: seq<Message>) returns (inputs: seq<Message>, excluded: seq<nat>)
    ensures inputs == Kept(level, ms) && excluded == Dropped(level, ms)
  {
    hide Permitted;
    inputs, excluded := [], [];
    for k := 0 to |ms|
      invariant inputs == Kept(level, ms[..k]) && excluded == Dropped(level, ms[..k])
    {
      assert ms[..k + 1][..k] == ms[..k];
      if Permitted(level, ms[k]) { inputs := inputs + [ms[k]]; } else { excluded := excluded + [k]; }
    }
    assert ms[..|ms|] == ms;
  }

  // ---- Preparing a turn -----------------------------------------------------------------------

  datatype Problem = CounterFailed | Overflow | CallsExhausted | NothingPermitted | SummaryTooLarge | SummaryFailed | SummaryEmpty | AboveLevel
  datatype Outcome = Keep | Replaced(record: CompactionRecord) | Stopped(problem: Problem)

  /** The summarizer's request: a fixed instruction followed by the encoded inputs, at the workload's classification. */
  function Prompt(s: Setting, inputs: seq<Message>): Message {
    Message(User, [ContentPart(TextContent, s.level, s.encode(inputs), ZERO_ID, "", "", "", false)])
  }

  function SummaryOf(s: Setting, text: string): Message {
    Message(User, [ContentPart(TextContent, Raised(s.level, s.outputLevel), text, ZERO_ID, "", "", "", false)])
  }

  ghost predicate Fits(s: Setting, ms: seq<Message>) {
    Countable(s, ms) && !Overflowing(s, ms)
  }

  /** Exactly when a turn asks for a summary. */
  ghost predicate Asks(s: Setting, ms: seq<Message>, calls: int) {
    && Countable(s, ms) && s.automatic && Crossing(s, ms) && calls < s.maxModelCalls
    && (exists i :: 0 <= i < |ms| && Permitted(s.level, ms[i]))
    && Fits(s, [Prompt(s, Kept(s.level, ms))])
  }

  /** Exactly when the conversation goes on as it stands. */
  ghost predicate Keeps(s: Setting, ms: seq<Message>) {
    Countable(s, ms) && if s.automatic then !Crossing(s, ms) else !Overflowing(s, ms)
  }

  /** Exactly when a summary takes the conversation's place. */
  ghost predicate Replaces(s: Setting, ms: seq<Message>, calls: int) {
    && Asks(s, ms, calls) && Rank(Raised(s.level, s.outputLevel)) <= Rank(s.level)
    && var text := s.summarize([Prompt(s, Kept(s.level, ms))]);
       text.Some? && text.value != "" && Fits(s, [SummaryOf(s, text.value)])
  }

  /** The one way past an overflowing window: automatic compaction on, no window nearly filled, and one empty count. */
  ghost predicate SlipsThrough(s: Setting, ms: seq<Message>) {
    s.automatic && Countable(s, ms) && !Crossing(s, ms) &&
    exists i :: Declared(s, i) && Counted(s, ms, i) == Some(0) && Room(s, i) == -1
  }

  /**
   prepareContext, with the summarizing call as a parameter. calls is the turn number plus the extra calls so far;
   asked says whether the summary was requested.
   */
  method PrepareContext(s: Setting, ms: seq<Message>, calls: int, sequence: nat) returns (out: Outcome, asked: bool)
    ensures asked <==> Asks(s, ms, calls)
    ensures out.Keep? <==> Keeps(s, ms)
    ensures out.Keep? ==> Fits(s, ms) || SlipsThrough(s, ms)
    ensures out.Replaced? <==> Replaces(s, ms, calls)
    ensures out.Replaced? ==>
      var text := s.summarize([Prompt(s, Kept(s.level, ms))]);
      && asked && text.Some? && text.value != "" && out.record.summary == SummaryOf(s, text.value)
      && Fits(s, [out.record.summary]) && Raised(s.level, s.outputLevel) == s.level
      && out.record.inputs == Kept(s.level, ms) != [] && out.record.excluded == Dropped(s.level, ms)
      && out.record.firstEvent == 1 && out.record.lastEvent == sequence
      && Largest(s, ms, out.record.beforeTokens) && Largest(s, [out.record.summary], out.record.afterTokens)
    ensures out.Stopped? && out.problem == CallsExhausted ==> s.automatic && calls >= s.maxModelCalls
  {
    hide Permitted, Overflowing, Crossing, Countable, Largest, SlipsThrough, Kept, Dropped, Raised, Prompt, SummaryOf;
    asked := false;
    var size := ContextSize(s, ms);
    if size.None? { return Stopped(CounterFailed), false; }
    if !s.automatic {
      if size.value.overflow { return Stopped(Overflow), false; }
      return Keep, false;
    }
    if !size.value.threshold {
      if Overflowing(s, ms) { SlipsUnseen(s, ms); }
      return Keep, false;
    }
    if calls >= s.maxModelCalls { return Stopped(CallsExhausted), false; }
    var inputs, excluded := Split(s.level, ms);
    KeptSome(s.level, ms);
    if inputs == [] { return Stopped(NothingPermitted), false; }
    var prompt := ContextSize(s, [Prompt(s, inputs)]);
    if prompt.None? { return Stopped(CounterFailed), false; }
    if prompt.value.overflow { return Stopped(SummaryTooLarge), false; }
    asked := true;
    var text := s.summarize([Prompt(s, inputs)]);
    if text.None? { return Stopped(SummaryFailed), asked; }
    if text.value == "" { return Stopped(SummaryEmpty), asked; }
    var level := Raised(s.level, s.outputLevel);
    if Rank(level) > Rank(s.level) { return Stopped(AboveLevel), asked; }
    var summary := SummaryOf(s, text.value);
    var after := ContextSize(s, [summary]);
    if after.None? { return Stopped(CounterFailed), asked; }
    if after.value.overflow { return Stopped(Overflow), asked; }
    var record := CompactionRecord(inputs, summary, excluded, NO_MODEL, NO_USAGE, size.value.count, after.value.count, 1, sequence);
    return Replaced(record), asked;
  }

  lemma SlipsUnseen(s: Setting, ms: seq<Message>)
    requires s.automatic && Countable(s, ms) && Overflowing(s, ms) && !Crossing(s, ms)
    ensures SlipsThrough(s, ms)
  {
    hide Overflows, Crosses;
    var i :| Declared(s, i) && Overflows(Counted(s, ms, i).value, Room(s, i));
    OverflowCrosses(Counted(s, ms, i).value, Room(s, i));
  }

  lemma KeptSome(level: Class, ms: seq<Message>)
    ensures Kept(level, ms) != [] <==> exists i :: 0 <= i < |ms| && Permitted(level, ms[i])
  {
    hide Permitted;
    KeptPermitted(level, ms);
    if Kept(level, ms) != [] {
      assert Kept(level, ms)[0] in Kept(level, ms);
      assert Kept(level, ms)[0] in ms;
    }
    if exists i :: 0 <= i < |ms| && Permitted(level, ms[i]) {
      var i :| 0 <= i < |ms| && Permitted(level, ms[i]);
      assert ms[i] in Kept(level, ms);
    }
  }

  /** An overflowing request is admitted as it stands in exactly that one case. */
  lemma OverflowAdmittedIff(s: Setting, ms: seq<Message>)
    requires s.automatic && Countable(s, ms)
    ensures (Overflowing(s, ms) && !Crossing(s, ms)) <==> SlipsThrough(s, ms)
  {
    hide Crosses;
    if Overflowing(s, ms) && !Crossing(s, ms) { SlipsUnseen(s, ms); }
  }

  /** Such a case: a window of 99 tokens, an output cap of 100, and a counter that returns zero. */
  lemma OverflowAdmitted() returns (s: Setting, ms: seq<Message>)
    ensures s.automatic && Countable(s, ms) && Overflowing(s, ms) && !Crossing(s, ms)
  {
    var model := Descriptor(ModelRef("p", "m"), Capabilities(99, 99, [], NoToolUse, false));
    s := Setting(Some((m, d) => Some(0)), [model], 100, true, Internal, Internal, 5, m => None, m => "");
    ms := [];
    assert forall i :: Declared(s, i) ==> i == 0;
    assert Declared(s, 0) && Counted(s, ms, 0) == Some(0) && Room(s, 0) == -1;
    assert Overflows(0, -1) && !Crosses(0, -1);
  }
}
