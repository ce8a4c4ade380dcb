/**
 One batch of tool calls: sequential and parallel execution, result middleware, and
 the tool message assembled from the results (loop/engine.go).
 */
module ToolBatch {
  import opened Types

  datatype HandlerResult = HandlerPanicked | HandlerFailed(code: string, message: string) | HandlerReturned(output: ToolOutput)
  datatype MiddlewareResult = MiddlewarePanicked | MiddlewareFailed | MiddlewareReturned(output: ToolOutput)

  /** One call to one result middleware. */
  datatype MiddlewareCall = MiddlewareCall(index: nat, call: ToolCall, output: ToolOutput)

  datatype Tool = Tool(parallelSafe: bool, hasOutputSchema: bool)

  /**
   What the batch runs against. Handlers are independent: a result depends on the call alone. Middleware may keep
   state: its answer may depend on every middleware call made before. Schema checks are arbitrary.
   */
  datatype Setting = Setting(
    env: Env, tools: map<string, Tool>, handler: ToolCall -> HandlerResult, middlewares: nat,
    process: (seq<MiddlewareCall>, MiddlewareCall) -> MiddlewareResult,
    inputMatches: ToolCall -> bool, outputMatches: (string, string) -> bool, errorLevel: Class)

  datatype Execution = Execution(output: ToolOutput, failure: Option<ToolFailure>)

  predicate OutputPart(env: Env, p: ContentPart) {
    ValidPart(env, p) && (p.kind == TextContent || p.kind == ImageContent || p.kind == DocumentContent || p.kind == ArtifactContent)
  }

  predicate ValidOutput(env: Env, o: ToolOutput) {
    && ValidClass(o.level) && (o.json != "" || o.content != []) && (o.json != "" ==> env.validJSON(o.json))
    && forall i :: 0 <= i < |o.content| ==> OutputPart(env, o.content[i])
  }

  function ErrorPayload(code: string, message: string): string {
    "{\"error\":{\"code\":\"" + code + "\",\"message\":\"" + message + "\"}}"
  }

  function FailedExecution(s: Setting, c: ToolCall, code: string, message: string): Execution {
    Execution(ToolOutput(ErrorPayload(code, message), [], s.errorLevel, true), Some(ToolFailure(c.id, c.name, code, message)))
  }

  /** executeTool: declared, input valid, then the handler; every failure becomes a result of its own. */
  function ExecuteTool(s: Setting, c: ToolCall): Execution {
    if c.name !in s.tools then FailedExecution(s, c, "tool_not_found", "requested tool is not declared")
    else if !s.inputMatches(c) then FailedExecution(s, c, "tool_input_invalid", "tool input failed schema validation")
    else
      match s.handler(c)
      case HandlerPanicked => FailedExecution(s, c, "tool_panicked", "tool execution panicked")
      case HandlerFailed(code, message) => FailedExecution(s, c, code, message)
      case HandlerReturned(output) => Execution(output, None)
  }

  /** The middleware chain from index i on: the calls made, and the output or the failure it ends with. */
  function Chain(s: Setting, log: seq<MiddlewareCall>, c: ToolCall, o: ToolOutput, i: nat): (seq<MiddlewareCall>, Execution)
    requires i <= s.middlewares
    decreases s.middlewares - i
  {
    if i == s.middlewares then (log, Checked(s, c, o))
    else
      var m := MiddlewareCall(i, c, o);
      var log' := log + [m];
      match s.process(log, m)
      case MiddlewarePanicked => (log', FailedExecution(s, c, "tool_result_middleware_panicked", "tool result processing panicked"))
      case MiddlewareFailed => (log', FailedExecution(s, c, "tool_result_middleware_failed", "tool result processing failed"))
      case MiddlewareReturned(o') => Chain(s, log', c, o', i + 1)
  }

  function Checked(s: Setting, c: ToolCall, o: ToolOutput): Execution {
    if !ValidOutput(s.env, o) then FailedExecution(s, c, "tool_output_invalid", "tool output is invalid")
    else if c.name in s.tools && s.tools[c.name].hasOutputSchema && o.json == "" then
      FailedExecution(s, c, "tool_output_invalid", "tool output JSON is required")
    else if c.name in s.tools && s.tools[c.name].hasOutputSchema && !s.outputMatches(c.name, o.json) then
      FailedExecution(s, c, "tool_output_invalid", "tool output failed schema validation")
    else Execution(o, None)
  }

  /** A result that did not fail goes through the middleware; a failed one is final. */
  function Finalized(s: Setting, log: seq<MiddlewareCall>, c: ToolCall, e: Execution): (seq<MiddlewareCall>, Execution) {
    if e.failure.Some? then (log, e) else Chain(s, log, c, e.output, 0)
  }

  /** The meaning of a batch: call by call, execute and finalize, in call order. */
  function InOrder(s: Setting, calls: seq<ToolCall>): (r: (seq<MiddlewareCall>, seq<Execution>))
    ensures |r.1| == |calls|
  {
    if calls == [] then ([], [])
    else
      var (log, done) := InOrder(s, calls[..|calls| - 1]);
      var c := calls[|calls| - 1];
      var (log', e) := Finalized(s, log, c, ExecuteTool(s, c));
      (log', done + [e])
  }

  // ---- What an execution means ---------------------------------------------------------

  /** The execution is this failure of this call, and its output says so. */
  predicate FailedAs(s: Setting, c: ToolCall, e: Execution, code: string, message: string) {
    && e.failure == Some(ToolFailure(c.id, c.name, code, message))
    && e.output.isError && e.output.content == [] && e.output.level == s.errorLevel && e.output.json == ErrorPayload(code, message)
  }

  /** The first n middleware calls about outputs os: one per index, each with what the one before left. */
  function CallsOn(c: ToolCall, os: seq<ToolOutput>, n: nat): (calls: seq<MiddlewareCall>)
    requires n <= |os|
    ensures |calls| == n
  {
    seq(n, i requires 0 <= i < n => MiddlewareCall(i, c, os[i]))
  }

  /** The middleware turned os[0] into os[1], os[1] into os[2], and so on, one after the other. */
  ghost predicate Passes(s: Setting, log: seq<MiddlewareCall>, c: ToolCall, os: seq<ToolOutput>) {
    forall i :: 0 <= i < |os| - 1 ==>
      s.process(log + CallsOn(c, os, i), MiddlewareCall(i, c, os[i])) == MiddlewareReturned(os[i + 1])
  }

  /** An output that may be handed on: valid, and matching the tool's output schema if it declares one. */
  predicate Deliverable(s: Setting, c: ToolCall, o: ToolOutput) {
    && ValidOutput(s.env, o)
    && (c.name in s.tools && s.tools[c.name].hasOutputSchema ==> o.json != "" && s.outputMatches(c.name, o.json))
  }

  /** The end of the middleware chain over os: a delivered output, a rejected one, or the middleware that failed. */
  ghost predicate Concludes(s: Setting, log: seq<MiddlewareCall>, c: ToolCall, os: seq<ToolOutput>, log': seq<MiddlewareCall>, e: Execution) {
    os != [] && |os| <= s.middlewares + 1 && Passes(s, log, c, os) &&
    var last := os[|os| - 1];
    if |os| == s.middlewares + 1 then
      && log' == log + CallsOn(c, os, s.middlewares)
      && (if Deliverable(s, c, last) then e == Execution(last, None)
          else exists message :: FailedAs(s, c, e, "tool_output_invalid", message))
    else
      var m := MiddlewareCall(|os| - 1, c, last);
      && log' == log + CallsOn(c, os, |os|)
      && match s.process(log + CallsOn(c, os, |os| - 1), m)
         case MiddlewarePanicked => FailedAs(s, c, e, "tool_result_middleware_panicked", "tool result processing panicked")
         case MiddlewareFailed => FailedAs(s, c, e, "tool_result_middleware_failed", "tool result processing failed")
         case MiddlewareReturned(_) => false
  }

  /** What one call of a batch comes to, from the middleware calls before it to those after it. */
  ghost predicate Means(s: Setting, log: seq<MiddlewareCall>, c: ToolCall, log': seq<MiddlewareCall>, e: Execution) {
    if c.name !in s.tools then log' == log && FailedAs(s, c, e, "tool_not_found", "requested tool is not declared")
    else if !s.inputMatches(c) then log' == log && FailedAs(s, c, e, "tool_input_invalid", "tool input failed schema validation")
    else
      match s.handler(c)
      case HandlerPanicked => log' == log && FailedAs(s, c, e, "tool_panicked", "tool execution panicked")
      case HandlerFailed(code, message) => log' == log && FailedAs(s, c, e, code, message)
      case HandlerReturned(o) => exists os :: os != [] && os[0] == o && Concludes(s, log, c, os, log', e)
  }

  lemma CallsMore(c: ToolCall, os: seq<ToolOutput>, o: ToolOutput, n: nat)
    requires n <= |os|
    ensures CallsOn(c, os + [o], n) == CallsOn(c, os, n)
    ensures n < |os| ==> CallsOn(c, os, n + 1) == CallsOn(c, os, n) + [MiddlewareCall(n, c, os[n])]
  {
  }

  /** The chain from its i-th middleware on continues the outputs so far. */
  lemma {:induction false} ChainConcludes(s: Setting, log: seq<MiddlewareCall>, c: ToolCall, os: seq<ToolOutput>) returns (all: seq<ToolOutput>)
    requires os != [] && |os| <= s.middlewares + 1 && Passes(s, log, c, os)
    ensures all != [] && all[0] == os[0]
    ensures var (log', e) := Chain(s, log + CallsOn(c, os, |os| - 1), c, os[|os| - 1], |os| - 1); Concludes(s, log, c, all, log', e)
    decreases s.middlewares + 1 - |os|
  {
    var i := |os| - 1;
    var m := MiddlewareCall(i, c, os[i]);
    all := os;
    if i < s.middlewares {
      CallsMore(c, os, os[i], i);
      assert (log + CallsOn(c, os, i)) + [m] == log + CallsOn(c, os, i + 1);
      var r := s.process(log + CallsOn(c, os, i), m);
      if r.MiddlewareReturned? {
        var more := os + [r.output];
        forall k | 0 <= k < |more| - 1
          ensures s.process(log + CallsOn(c, more, k), MiddlewareCall(k, c, more[k])) == MiddlewareReturned(more[k + 1])
        {
          CallsMore(c, os, r.output, k);
        }
        CallsMore(c, os, r.output, i + 1);
        all := ChainConcludes(s, log, c, more);
      }
    } else {
      CheckedMeans(s, c, os[i]);
    }
  }

  lemma CheckedMeans(s: Setting, c: ToolCall, o: ToolOutput)
    ensures var e := Checked(s, c, o);
      if Deliverable(s, c, o) then e == Execution(o, None) else exists message :: FailedAs(s, c, e, "tool_output_invalid", message)
  {
    hide ValidOutput;
    var e := Checked(s, c, o);
    if e.failure.Some? { assert FailedAs(s, c, e, "tool_output_invalid", e.failure.value.message); }
  }

  lemma CallMeans(s: Setting, log: seq<MiddlewareCall>, c: ToolCall)
    ensures var (log', e) := Finalized(s, log, c, ExecuteTool(s, c)); Means(s, log, c, log', e)
  {
    hide Chain, Checked, Concludes;
    if c.name in s.tools && s.inputMatches(c) && s.handler(c).HandlerReturned? {
      var o := s.handler(c).output;
      assert log + CallsOn(c, [o], 0) == log;
      var os := ChainConcludes(s, log, c, [o]);
    }
  }

  /** In a batch each call means what it would after the calls before it: the k-th result and the middleware calls up to it. */
  lemma {:induction false} BatchMeans(s: Setting, calls: seq<ToolCall>, k: nat)
    requires k < |calls|
    ensures Means(s, InOrder(s, calls[..k]).0, calls[k], InOrder(s, calls[..k + 1]).0, InOrder(s, calls).1[k])
    decreases |calls|
  {
    hide Means, Finalized, ExecuteTool;
    InOrderSnoc(s, calls, k);
    CallMeans(s, InOrder(s, calls[..k]).0, calls[k]);
    var n := |calls| - 1;
    InOrderSnoc(s, calls, n);
    assert calls[..n + 1] == calls;
    if k < n {
      assert calls[..n][..k] == calls[..k] && calls[..n][..k + 1] == calls[..k + 1];
      BatchMeans(s, calls[..n], k);
    } else {
      assert calls[..k + 1] == calls;
    }
  }

  /** Every result of a batch, and the middleware calls between them. */
  ghost predicate BatchOk(s: Setting, calls: seq<ToolCall>, log: seq<MiddlewareCall>, executions: seq<Execution>) {
    && |executions| == |calls|
    && exists logs: seq<seq<MiddlewareCall>> ::
         && |logs| == |calls| + 1 && logs[0] == [] && logs[|calls|] == log
         && forall k :: 0 <= k < |calls| ==> Means(s, logs[k], calls[k], logs[k + 1], executions[k])
  }

  lemma InOrderOk(s: Setting, calls: seq<ToolCall>)
    ensures BatchOk(s, calls, InOrder(s, calls).0, InOrder(s, calls).1)
  {
    hide Means, InOrder;
    var logs := seq(|calls| + 1, k requires 0 <= k <= |calls| => InOrder(s, calls[..k]).0);
    NothingToRun(s, calls);
    assert calls[..|calls|] == calls;
    assert logs[0] == [] && logs[|calls|] == InOrder(s, calls).0;
    var executions := InOrder(s, calls).1;
    forall k | 0 <= k < |calls| ensures Means(s, logs[k], calls[k], logs[k + 1], executions[k]) { BatchMeans(s, calls, k); }
  }

  /** The handler's answer and what each middleware made of it, through the whole chain and deliverable at its end. */
  ghost predicate Through(s: Setting, log: seq<MiddlewareCall>, c: ToolCall, os: seq<ToolOutput>)
    requires s.handler(c).HandlerReturned?
  {
    |os| == s.middlewares + 1 && os[0] == s.handler(c).output && Passes(s, log, c, os) && Deliverable(s, c, os[|os| - 1])
  }

  /** A result without failure: the tool is declared, its input matched, and its answer came through the whole chain deliverable. */
  lemma SuccessMeans(s: Setting, log: seq<MiddlewareCall>, c: ToolCall, log': seq<MiddlewareCall>, e: Execution)
    requires Means(s, log, c, log', e)
    ensures e.failure.None? <==>
      c.name in s.tools && s.inputMatches(c) && s.handler(c).HandlerReturned? && exists os :: Through(s, log, c, os)
    ensures e.failure.None? ==> Deliverable(s, c, e.output)
    ensures c.name !in s.tools || !s.inputMatches(c) || !s.handler(c).HandlerReturned? ==> log' == log
  {
    hide Deliverable, Passes, Concludes, Through;
    if c.name in s.tools && s.inputMatches(c) && s.handler(c).HandlerReturned? {
      var os :| os != [] && os[0] == s.handler(c).output && Concludes(s, log, c, os, log', e);
      Concluded(s, log, c, os, log', e);
    }
  }

  lemma Concluded(s: Setting, log: seq<MiddlewareCall>, c: ToolCall, os: seq<ToolOutput>, log': seq<MiddlewareCall>, e: Execution)
    requires s.handler(c).HandlerReturned? && os != [] && os[0] == s.handler(c).output && Concludes(s, log, c, os, log', e)
    ensures e.failure.None? <==> exists all :: Through(s, log, c, all)
    ensures e.failure.None? ==> Deliverable(s, c, e.output)
  {
    hide Deliverable, Passes;
    if e.failure.None? {
      assert Through(s, log, c, os);
    } else if all :| Through(s, log, c, all) {
      PassesUnique(s, log, c, os, all, |os| - 1);
      if |os| < |all| { PassesOn(s, log, c, os, all); }
    }
  }

  /** The middleware decides the outputs: two chains from the same start agree as far as both go. */
  lemma {:induction false} PassesUnique(s: Setting, log: seq<MiddlewareCall>, c: ToolCall, a: seq<ToolOutput>, b: seq<ToolOutput>, n: nat)
    requires n < |a| && n < |b| && a[0] == b[0] && Passes(s, log, c, a) && Passes(s, log, c, b)
    ensures forall i :: 0 <= i <= n ==> a[i] == b[i]
  {
    if n > 0 {
      PassesUnique(s, log, c, a, b, n - 1);
      assert CallsOn(c, a, n - 1) == CallsOn(c, b, n - 1);
      assert s.process(log + CallsOn(c, a, n - 1), MiddlewareCall(n - 1, c, a[n - 1])) == MiddlewareReturned(a[n]);
      assert s.process(log + CallsOn(c, b, n - 1), MiddlewareCall(n - 1, c, b[n - 1])) == MiddlewareReturned(b[n]);
    }
  }

  /** Where a chain stopped, a longer one did not. */
  lemma PassesOn(s: Setting, log: seq<MiddlewareCall>, c: ToolCall, a: seq<ToolOutput>, b: seq<ToolOutput>)
    requires a != [] && |a| < |b| && Passes(s, log, c, b) && forall i :: 0 <= i < |a| ==> a[i] == b[i]
    ensures s.process(log + CallsOn(c, a, |a| - 1), MiddlewareCall(|a| - 1, c, a[|a| - 1])).MiddlewareReturned?
  {
    var i := |a| - 1;
    assert CallsOn(c, a, i) == CallsOn(c, b, i);
    assert s.process(log + CallsOn(c, b, i), MiddlewareCall(i, c, b[i])) == MiddlewareReturned(b[i + 1]);
  }

  /** finalizeToolResult: the middleware loop. */
  method FinalizeToolResult(s: Setting, log: seq<MiddlewareCall>, c: ToolCall, output: ToolOutput)
    returns (log': seq<MiddlewareCall>, e: Execution)
    ensures (log', e) == Chain(s, log, c, output, 0)
  {
    hide Checked, FailedExecution;
    log' := log;
    var o := output;
    for i := 0 to s.middlewares
      invariant Chain(s, log', c, o, i) == Chain(s, log, c, output, 0)
    {
      var m := MiddlewareCall(i, c, o);
      var r := s.process(log', m);
      log' := log' + [m];
      match r {
        case MiddlewarePanicked =>
          e := FailedExecution(s, c, "tool_result_middleware_panicked", "tool result processing panicked");
          return;
        case MiddlewareFailed =>
          e := FailedExecution(s, c, "tool_result_middleware_failed", "tool result processing failed");
          return;
        case MiddlewareReturned(o') => o := o';
      }
    }
    e := Checked(s, c, o);
  }

  lemma InOrderSnoc(s: Setting, calls: seq<ToolCall>, k: nat)
    requires k < |calls|
    ensures InOrder(s, calls[..k + 1]) ==
      (var (log, done) := InOrder(s, calls[..k]);
       var (log', e) := Finalized(s, log, calls[k], ExecuteTool(s, calls[k]));
       (log', done + [e]))
  {
    assert calls[..k + 1][..k] == calls[..k];
  }

  /** order lists completions: every call completes, and nothing else does. */
  predicate CompletionOrder(order: seq<nat>, n: nat) {
    (forall k :: 0 <= k < |order| ==> order[k] < n) && forall i: nat :: i < n ==> i in order
  }

  /** executeBatch: the parallel form writes result slots in completion order, then finalizes in call order. */
  method ExecuteBatch(s: Setting, parallelTools: bool, calls: seq<ToolCall>, order: seq<nat>)
    returns (log: seq<MiddlewareCall>, executions: seq<Execution>)
    requires CompletionOrder(order, |calls|)
    ensures (log, executions) == InOrder(s, calls) && BatchOk(s, calls, log, executions)
  {
    InOrderOk(s, calls);
    hide BatchOk, InOrder;
    var parallel := parallelTools;
    for k := 0 to |calls| {
      parallel := parallel && calls[k].name in s.tools && s.tools[calls[k].name].parallelSafe;
    }
    if parallel {
      log, executions := Parallel(s, calls, order);
    } else {
      log, executions := Sequential(s, calls);
    }
  }

  method Sequential(s: Setting, calls: seq<ToolCall>) returns (log: seq<MiddlewareCall>, executions: seq<Execution>)
    ensures (log, executions) == InOrder(s, calls)
  {
    hide ExecuteTool, Chain, InOrder;
    log, executions := [], [];
    NothingToRun(s, calls);
    for k := 0 to |calls|
      invariant (log, executions) == InOrder(s, calls[..k])
    {
      InOrderSnoc(s, calls, k);
      var e := ExecuteTool(s, calls[k]);
      if e.failure.None? { log, e := FinalizeToolResult(s, log, calls[k], e.output); }
      executions := executions + [e];
    }
    assert calls[..|calls|] == calls;
  }

  lemma NothingToRun(s: Setting, calls: seq<ToolCall>)
    ensures InOrder(s, calls[..0]) == ([], [])
  {
  }

  method Parallel(s: Setting, calls: seq<ToolCall>, order: seq<nat>) returns (log: seq<MiddlewareCall>, executions: seq<Execution>)
    requires CompletionOrder(order, |calls|)
    ensures (log, executions) == InOrder(s, calls)
  {
    hide ExecuteTool, Chain, InOrder;
    var results := new Option<Execution>[|calls|](_ => None);
    for k := 0 to |order|
      invariant forall j :: 0 <= j < k ==> results[order[j]] == Some(ExecuteTool(s, calls[order[j]]))
    {
      results[order[k]] := Some(ExecuteTool(s, calls[order[k]]));
    }
    forall i: nat | i < |calls| ensures results[i] == Some(ExecuteTool(s, calls[i])) {
      assert i in order;
    }
    log, executions := [], [];
    NothingToRun(s, calls);
    for k := 0 to |calls|
      invariant (log, executions) == InOrder(s, calls[..k])
      invariant forall i: nat :: i < |calls| ==> results[i] == Some(ExecuteTool(s, calls[i]))
    {
      InOrderSnoc(s, calls, k);
      var e := results[k].value;
      if e.failure.None? { log, e := FinalizeToolResult(s, log, calls[k], e.output); }
      executions := executions + [e];
    }
    assert calls[..|calls|] == calls;
  }

  // ---- The tool message -------------------------------------------------------------

  function Attributed(parts: seq<ContentPart>, c: ToolCall): (r: seq<ContentPart>)
    ensures |r| == |parts|
    ensures forall i :: 0 <= i < |r| ==> r[i] == parts[i].(toolCallID := c.id, toolName := c.name)
  {
    seq(|parts|, i requires 0 <= i < |parts| => parts[i].(toolCallID := c.id, toolName := c.name))
  }

  /** outputParts: a result part for the JSON, then the content parts, all attributed to the call. */
  function OutputParts(c: ToolCall, o: ToolOutput): seq<ContentPart> {
    (if o.json != "" then [ContentPart(ToolResultContent, o.level, "", ZERO_ID, c.id, c.name, o.json, o.isError)] else []) +
    Attributed(o.content, c)
  }

  /** The JSON comes first, as a result part of the output's level; then the content, in order, with only its attribution changed. */
  lemma OutputInOrder(c: ToolCall, o: ToolOutput)
    ensures var parts, n := OutputParts(c, o), if o.json == "" then 0 else 1;
      && |parts| == n + |o.content|
      && (o.json != "" ==>
            && parts[0].kind == ToolResultContent && parts[0].json == o.json && parts[0].level == o.level && parts[0].isError == o.isError
            && parts[0].toolCallID == c.id && parts[0].toolName == c.name)
      && forall k :: 0 <= k < |o.content| ==> Attributes(c, o.content[k], parts[n + k])
  {
    var parts, n := OutputParts(c, o), if o.json == "" then 0 else 1;
    var content := Attributed(o.content, c);
    assert |content| == |o.content| && |parts| == n + |content|;
    forall k | 0 <= k < |o.content| ensures Attributes(c, o.content[k], parts[n + k]) {
      assert parts[n + k] == content[k];
    }
  }

  /** The part is the given one, said by this call. */
  predicate Attributes(c: ToolCall, given: ContentPart, part: ContentPart) {
    part == given.(toolCallID := c.id, toolName := c.name)
  }

  /** The parts of one call: at least one, all attributed to it. */
  predicate Group(c: ToolCall, parts: seq<ContentPart>) {
    parts != [] && forall i :: 0 <= i < |parts| ==> parts[i].toolCallID == c.id && parts[i].toolName == c.name
  }

  function Flatten(groups: seq<seq<ContentPart>>): seq<ContentPart> {
    if groups == [] then [] else Flatten(groups[..|groups| - 1]) + groups[|groups| - 1]
  }

  /** A final result has something to say: a valid output, or an error payload. */
  predicate Speaks(e: Execution) {
    e.output.json != "" || e.output.content != []
  }

  lemma {:induction false} ChainSpeaks(s: Setting, log: seq<MiddlewareCall>, c: ToolCall, o: ToolOutput, i: nat)
    requires i <= s.middlewares
    ensures Speaks(Chain(s, log, c, o, i).1)
    decreases s.middlewares - i
  {
    if i < s.middlewares {
      var m := MiddlewareCall(i, c, o);
      if s.process(log, m).MiddlewareReturned? { ChainSpeaks(s, log + [m], c, s.process(log, m).output, i + 1); }
    }
  }

  lemma {:induction false} ResultsSpeak(s: Setting, calls: seq<ToolCall>)
    ensures forall k :: 0 <= k < |calls| ==> Speaks(InOrder(s, calls).1[k])
  {
    if calls != [] {
      var init, c := calls[..|calls| - 1], calls[|calls| - 1];
      ResultsSpeak(s, init);
      var e := ExecuteTool(s, c);
      if e.failure.None? { ChainSpeaks(s, InOrder(s, init).0, c, e.output, 0); }
      hide Chain;
    }
  }

  lemma SpeakingGroup(c: ToolCall, e: Execution)
    requires Speaks(e)
    ensures Group(c, OutputParts(c, e.output))
  {
  }

  lemma FlattenNone()
    ensures Flatten([]) == []
  {
  }

  lemma FlattenSnoc(groups: seq<seq<ContentPart>>, parts: seq<ContentPart>)
    ensures Flatten(groups + [parts]) == Flatten(groups) + parts
  {
    assert (groups + [parts])[..|groups|] == groups;
  }

  /** The failures among the results, in call order. */
  function FailuresOf(executions: seq<Execution>): seq<ToolFailure> {
    if executions == [] then []
    else
      var rest, last := FailuresOf(executions[..|executions| - 1]), executions[|executions| - 1];
      if last.failure.Some? then rest + [last.failure.value] else rest
  }

  lemma FailuresNone()
    ensures FailuresOf([]) == []
  {
  }

  lemma FailuresSnoc(executions: seq<Execution>, k: nat)
    requires k < |executions|
    ensures FailuresOf(executions[..k + 1]) ==
            if executions[k].failure.Some? then FailuresOf(executions[..k]) + [executions[k].failure.value] else FailuresOf(executions[..k])
  {
    assert executions[..k + 1][..k] == executions[..k];
  }

  /** Each failure is some call's, each failed call has one, and they come in call order: failures before the k-th result come first. */
  lemma {:induction false} FailuresInOrder(executions: seq<Execution>, k: nat)
    requires k <= |executions|
    ensures FailuresOf(executions[..k]) <= FailuresOf(executions)
    ensures forall f :: f in FailuresOf(executions) <==> exists i :: 0 <= i < |executions| && executions[i].failure == Some(f)
    decreases |executions|
  {
    if executions != [] {
      var n := |executions| - 1;
      var init := executions[..n];
      assert executions[..n + 1] == executions;
      FailuresSnoc(executions, n);
      FailuresInOrder(init, if k <= n then k else n);
      if k <= n { assert init[..k] == executions[..k]; } else { assert executions[..k] == executions; }
      assert forall i :: 0 <= i < n ==> init[i] == executions[i];
    }
  }

  /** The tool message and the failures: both in call order, with one nonempty group of parts for each call. */
  method AssembleMessage(s: Setting, calls: seq<ToolCall>, executions: seq<Execution>)
    returns (m: Message, failures: seq<ToolFailure>, ghost groups: seq<seq<ContentPart>>)
    requires executions == InOrder(s, calls).1
    ensures m.role == ToolRole && m.content == Flatten(groups) && |groups| == |calls|
    ensures forall k :: 0 <= k < |calls| ==> Group(calls[k], groups[k]) && groups[k] == OutputParts(calls[k], executions[k].output)
    ensures failures == FailuresOf(executions)
    ensures forall f :: f in failures ==> exists k :: 0 <= k < |calls| && executions[k].failure == Some(f)
    ensures forall k :: 0 <= k < |calls| && executions[k].failure.Some? ==> executions[k].failure.value in failures
  {
    ResultsSpeak(s, calls);
    hide InOrder, OutputParts, Group, Flatten, Speaks, FailuresOf;
    FailuresNone();
    FlattenNone();
    var content: seq<ContentPart> := [];
    failures, groups := [], [];
    for k := 0 to |executions|
      invariant |groups| == k && content == Flatten(groups)
      invariant forall i :: 0 <= i < k ==> Group(calls[i], groups[i]) && groups[i] == OutputParts(calls[i], executions[i].output)
      invariant failures == FailuresOf(executions[..k])
    {
      var e := executions[k];
      FailuresSnoc(executions, k);
      if e.failure.Some? { failures := failures + [e.failure.value]; }
      var parts := OutputParts(calls[k], e.output);
      SpeakingGroup(calls[k], e);
      FlattenSnoc(groups, parts);
      content := content + parts;
      groups := groups + [parts];
    }
    assert executions[..|executions|] == executions;
    FailuresInOrder(executions, 0);
    m := Message(ToolRole, content);
  }
}
