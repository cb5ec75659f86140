/**
 * The tool-calling orchestration of DeepSeek/IO.py: normalising tool output,
 * resolving and dispatching tool calls, and the completion loop that
 * accumulates token usage, answers tool calls and retries on rate limits.
 *
 * The chat endpoint is a sequence of canned replies, one consumed per call;
 * the handlers are a `Runner`. `Infer` is the reference definition of one
 * `infer_with_tools` call, and the class methods are proved against it.
 */
module DeepSeekIO {

  import opened Messages
  import opened Strings
  import opened ToolSchema

  const NoOutputWarning := "Warning: There was no output from stdout. Did you forget to print?"
  const TrimNotice := "\n\nWarning: Output was trimmed because it was too long (more than 1000 characters)."
  const OutputLimit := 1000

  /** The output of a tool as it is shown to the model. */
  function Normalise(output: string): (r: string)
    ensures r != []
    ensures |r| <= OutputLimit + |TrimNotice|
    ensures output == [] ==> r == NoOutputWarning
    ensures 0 < |output| <= OutputLimit ==> r == output
    ensures |output| > OutputLimit ==>
              |r| == OutputLimit + |TrimNotice| && r[..OutputLimit] == output[..OutputLimit] && r[OutputLimit..] == TrimNotice
  {
    if |output| == 0 then NoOutputWarning
    else if |output| > OutputLimit then output[..OutputLimit] + TrimNotice
    else output
  }

  /** Normalising twice changes nothing: the sentinel and the trimmed text are fixed points. */
  lemma NormaliseIdempotent(output: string)
    ensures Normalise(Normalise(output)) == Normalise(output)
  {
    if |output| > OutputLimit {
      var r := Normalise(output);
      assert r[..OutputLimit] + TrimNotice == r;
    }
  }

  /** `k` is the first handler named `name` (`function_names.index(name)`). */
  predicate FirstMatch(handlers: seq<Handler>, name: string, k: nat)
  {
    k < |handlers| && handlers[k].name == name && forall j :: 0 <= j < k ==> handlers[j].name != name
  }

  function Resolve(handlers: seq<Handler>, name: string): (r: Option<nat>)
    ensures r.Some? ==> FirstMatch(handlers, name, r.value)
    ensures r.None? <==> forall j :: 0 <= j < |handlers| ==> handlers[j].name != name
    decreases |handlers|
  {
    if handlers == [] then None
    else if handlers[0].name == name then Some(0)
    else match Resolve(handlers[1..], name)
      case None => None
      case Some(k) => Some(k + 1)
  }

  /** Resolvable by name: some handler is called `name`. */
  predicate Known(handlers: seq<Handler>, name: string)
  {
    Resolve(handlers, name).Some?
  }

  function UnknownTool(name: string): Error
  {
    ValueError("Unknown tool call: " + name)
  }

  /**
   * The message `__handle_tool_call` appends for `call`, or the error it
   * raises. The first handler with the requested name is invoked.
   */
  function ToolResult(handlers: seq<Handler>, call: ToolCall, history: seq<Message>, run: Runner): (r: Result<Message>)
    ensures r.Ok? <==> Known(handlers, call.name)
    ensures r.Err? ==> r.error == UnknownTool(call.name)
    ensures r.Ok? ==> exists k :: FirstMatch(handlers, call.name, k)
                                 && r.value == ToolTurn(call.id, Normalise(run(k, call.arguments, history)))
  {
    match Resolve(handlers, call.name)
    case None => Err(UnknownTool(call.name))
    case Some(k) => Ok(ToolTurn(call.id, Normalise(run(k, call.arguments, history))))
  }

  /** `m` is the tool message answering `call`. */
  predicate Answers(m: Message, call: ToolCall)
  {
    m.role == Tool && m.toolCallId == Some(call.id)
  }

  /** From position `base` on, `s` holds one answer per call, in the order of `calls`. */
  predicate AnswersFrom(s: seq<Message>, base: nat, calls: seq<ToolCall>)
  {
    base + |calls| <= |s| && forall i :: 0 <= i < |calls| ==> Answers(s[base + i], calls[i])
  }

  datatype Dispatched = Dispatched(status: Result<()>, messages: seq<Message>)

  /** Answering the tool calls of one assistant message, in the order they were issued. */
  function DispatchAll(handlers: seq<Handler>, calls: seq<ToolCall>, msgs: seq<Message>, run: Runner): (d: Dispatched)
    ensures msgs <= d.messages && |d.messages| <= |msgs| + |calls|
    decreases |calls|
  {
    if calls == [] then Dispatched(Ok(()), msgs)
    else match ToolResult(handlers, calls[0], msgs, run)
      case Err(e) => Dispatched(Err(e), msgs)
      case Ok(m) => DispatchAll(handlers, calls[1..], msgs + [m], run)
  }

  /**
   * Dispatching only appends, and each appended message is the tool result
   * of the call in the same position, carrying its identifier.
   */
  lemma {:induction false} DispatchAllAppends(handlers: seq<Handler>, calls: seq<ToolCall>, msgs: seq<Message>, run: Runner)
    ensures var d := DispatchAll(handlers, calls, msgs, run);
      forall i :: |msgs| <= i < |d.messages| ==>
           && Answers(d.messages[i], calls[i - |msgs|]) && d.messages[i].content.Some? && d.messages[i].content.value != []
           && ToolResult(handlers, calls[i - |msgs|], d.messages[..i], run) == Ok(d.messages[i])
    decreases |calls|
  {
    if calls != [] {
      var t := ToolResult(handlers, calls[0], msgs, run);
      if t.Ok? {
        DispatchAllAppends(handlers, calls[1..], msgs + [t.value], run);
        var d := DispatchAll(handlers, calls, msgs, run);
        assert d == DispatchAll(handlers, calls[1..], msgs + [t.value], run);
        assert msgs + [t.value] <= d.messages;
        forall i | |msgs| <= i < |d.messages|
          ensures Answers(d.messages[i], calls[i - |msgs|])
          ensures d.messages[i].content.Some? && d.messages[i].content.value != []
          ensures ToolResult(handlers, calls[i - |msgs|], d.messages[..i], run) == Ok(d.messages[i])
        {
          if i == |msgs| {
            assert d.messages[i] == (msgs + [t.value])[i];
            assert d.messages[..i] == msgs;
          } else {
            assert calls[1..][i - |msgs + [t.value]|] == calls[i - |msgs|];
          }
        }
      }
    }
  }

  /** Dispatch succeeds exactly when every requested tool is known, and then answers every call. */
  lemma {:induction false} DispatchAllSucceeds(handlers: seq<Handler>, calls: seq<ToolCall>, msgs: seq<Message>, run: Runner)
    ensures var d := DispatchAll(handlers, calls, msgs, run);
      && (d.status.Ok? <==> forall i :: 0 <= i < |calls| ==> Known(handlers, calls[i].name))
      && (d.status.Ok? ==> |d.messages| == |msgs| + |calls|)
    decreases |calls|
  {
    if calls != [] {
      var t := ToolResult(handlers, calls[0], msgs, run);
      if t.Ok? {
        DispatchAllSucceeds(handlers, calls[1..], msgs + [t.value], run);
        assert forall i :: 0 < i < |calls| ==> calls[i] == calls[1..][i - 1];
      } else {
        assert !Known(handlers, calls[0].name);
      }
    }
  }

  /** `j` is the first call whose tool is not known. */
  predicate FirstUnknown(handlers: seq<Handler>, calls: seq<ToolCall>, j: nat)
  {
    j < |calls| && !Known(handlers, calls[j].name) && forall i :: 0 <= i < j ==> Known(handlers, calls[i].name)
  }

  /**
   * A failed dispatch stops at the first unknown name, raising its error,
   * with the calls before it answered and nothing for that one.
   */
  lemma {:induction false} DispatchAllStops(handlers: seq<Handler>, calls: seq<ToolCall>, msgs: seq<Message>, run: Runner)
    ensures var d := DispatchAll(handlers, calls, msgs, run);
      d.status.Err? ==>
        exists j: nat :: FirstUnknown(handlers, calls, j) && d.status.error == UnknownTool(calls[j].name) && |d.messages| == |msgs| + j
    decreases |calls|
  {
    if calls != [] {
      var t := ToolResult(handlers, calls[0], msgs, run);
      var d := DispatchAll(handlers, calls, msgs, run);
      if t.Ok? {
        var m := msgs + [t.value];
        assert d == DispatchAll(handlers, calls[1..], m, run);
        DispatchAllStops(handlers, calls[1..], m, run);
        if d.status.Err? {
          var j: nat :| FirstUnknown(handlers, calls[1..], j) && d.status.error == UnknownTool(calls[1..][j].name) && |d.messages| == |m| + j;
          assert calls[1..][j] == calls[j + 1];
          assert forall i :: 0 < i < j + 1 ==> calls[i] == calls[1..][i - 1];
          assert FirstUnknown(handlers, calls, j + 1);
        }
      } else {
        assert FirstUnknown(handlers, calls, 0);
      }
    }
  }

  /** When every tool is known, one message per call is appended, in issue order. */
  lemma DispatchAllAnswers(handlers: seq<Handler>, calls: seq<ToolCall>, msgs: seq<Message>, run: Runner)
    requires forall i :: 0 <= i < |calls| ==> Known(handlers, calls[i].name)
    ensures var d := DispatchAll(handlers, calls, msgs, run);
      && d.status.Ok? && msgs <= d.messages && |d.messages| == |msgs| + |calls|
      && AnswersFrom(d.messages, |msgs|, calls)
  {
    DispatchAllSucceeds(handlers, calls, msgs, run);
    DispatchAllAppends(handlers, calls, msgs, run);
    var d := DispatchAll(handlers, calls, msgs, run);
    forall i | 0 <= i < |calls|
      ensures Answers(d.messages[|msgs| + i], calls[i])
    {
      assert |msgs| + i - |msgs| == i;
    }
  }

  /** The text and accumulated usage `infer_with_tools` returns. */
  datatype Answer = Answer(content: string, usage: Usage)

  /** One `infer_with_tools` call: its outcome, the message list afterwards and the replies left. */
  datatype Inferred = Inferred(result: Result<Answer>, messages: seq<Message>, rest: seq<Reply>)

  function Accumulate(current: Usage, prev: Option<Usage>): Usage
  {
    match prev
    case None => current
    case Some(p) => Plus(current, p)
  }

  function UsageOf(prev: Option<Usage>): Usage
  {
    match prev
    case None => Usage(0, 0)
    case Some(p) => p
  }

  /** Index of the first choice that carries tool calls, or |choices| when none does. */
  function FirstWithToolCalls(choices: seq<Message>): (k: nat)
    ensures k <= |choices|
    ensures k < |choices| ==> choices[k].toolCalls != []
    ensures forall j :: 0 <= j < k ==> choices[j].toolCalls == []
    decreases |choices|
  {
    if choices == [] then 0
    else if choices[0].toolCalls != [] then 0
    else 1 + FirstWithToolCalls(choices[1..])
  }

  /** What `str.join` raises when item `k` is `None`. */
  function MissingContent(k: nat): (e: Error)
    ensures e.TypeError? && "sequence item " <= e.message
  {
    TypeError("sequence item " + Decimal(k) + ": expected str instance, NoneType found")
  }

  /** Reference definition of `infer_with_tools(messages, prev_usage)`. */
  function Infer(handlers: seq<Handler>, msgs: seq<Message>, prev: Option<Usage>, replies: seq<Reply>, run: Runner): (s: Inferred)
    ensures |s.rest| <= |replies|
    ensures replies != [] ==> |s.rest| < |replies|
    decreases |replies|, 0
  {
    if replies == [] then Inferred(Err(RepliesExhausted), msgs, [])
    else match replies[0]
      case RateLimited => Infer(handlers, msgs, prev, replies[1..], run)
      case Completion(pt, ct, choices) => Respond(handlers, msgs, Accumulate(Usage(pt, ct), prev), choices, replies[1..], run)
  }

  /**
   * What `infer_with_tools` does with a response whose accumulated usage is
   * `usage`: answer the tool calls of the first choice that has any and ask
   * again, or else join the contents of all choices into the answer.
   */
  function Respond(handlers: seq<Handler>, msgs: seq<Message>, usage: Usage, choices: seq<Message>, rest: seq<Reply>, run: Runner): (s: Inferred)
    ensures |s.rest| <= |rest|
    decreases |rest|, 1
  {
    var k := FirstWithToolCalls(choices);
    if k < |choices| then
      var d := DispatchAll(handlers, choices[k].toolCalls, msgs + [choices[k]], run);
      if d.status.Err? then Inferred(Err(d.status.error), d.messages, rest)
      else Infer(handlers, d.messages, Some(usage), rest, run)
    else match JoinContents(choices)
      case None => Inferred(Err(MissingContent(MissingAt(choices))), msgs, rest)
      case Some(text) => Inferred(Ok(Answer(text, usage)), msgs + [AssistantTurn(text)], rest)
  }

  /**
   * The message list only grows, and a call consumes a non-empty prefix of
   * the replies.
   */
  lemma {:induction false} InferExtends(handlers: seq<Handler>, msgs: seq<Message>, prev: Option<Usage>, replies: seq<Reply>, run: Runner)
    ensures var s := Infer(handlers, msgs, prev, replies, run);
      && msgs <= s.messages
      && |s.rest| <= |replies| && s.rest == replies[|replies| - |s.rest|..]
      && (replies != [] ==> |s.rest| < |replies|)
    decreases |replies|, 0
  {
    if replies != [] {
      var s := Infer(handlers, msgs, prev, replies, run);
      match replies[0]
      case RateLimited =>
        InferExtends(handlers, msgs, prev, replies[1..], run);
      case Completion(pt, ct, choices) =>
        RespondExtends(handlers, msgs, Accumulate(Usage(pt, ct), prev), choices, replies[1..], run);
      assert replies[1..][|replies[1..]| - |s.rest|..] == replies[|replies| - |s.rest|..];
    }
  }

  lemma {:induction false} RespondExtends(handlers: seq<Handler>, msgs: seq<Message>, usage: Usage, choices: seq<Message>, rest: seq<Reply>, run: Runner)
    ensures var s := Respond(handlers, msgs, usage, choices, rest, run);
      && msgs <= s.messages
      && |s.rest| <= |rest| && s.rest == rest[|rest| - |s.rest|..]
    decreases |rest|, 1
  {
    var k := FirstWithToolCalls(choices);
    if k < |choices| {
      var d := DispatchAll(handlers, choices[k].toolCalls, msgs + [choices[k]], run);
      if d.status.Ok? {
        InferExtends(handlers, d.messages, Some(usage), rest, run);
      }
    }
  }

  /**
   * Usage is threaded through the recursion: the usage returned, together
   * with that of the replies left unconsumed, is `prev_usage` plus the usage
   * of all replies.
   */
  lemma {:induction false} InferUsage(handlers: seq<Handler>, msgs: seq<Message>, prev: Option<Usage>, replies: seq<Reply>, run: Runner)
    ensures var s := Infer(handlers, msgs, prev, replies, run);
      s.result.Ok? ==> Plus(s.result.value.usage, TotalUsage(s.rest)) == Plus(TotalUsage(replies), UsageOf(prev))
    decreases |replies|, 0
  {
    if replies != [] {
      var s := Infer(handlers, msgs, prev, replies, run);
      var tail := replies[1..];
      match replies[0]
      case RateLimited =>
        assert s == Infer(handlers, msgs, prev, tail, run);
        InferUsage(handlers, msgs, prev, tail, run);
      case Completion(pt, ct, choices) =>
        var u := Accumulate(Usage(pt, ct), prev);
        assert s == Respond(handlers, msgs, u, choices, tail, run);
        RespondUsage(handlers, msgs, u, choices, tail, run);
    }
  }

  lemma {:induction false} RespondUsage(handlers: seq<Handler>, msgs: seq<Message>, usage: Usage, choices: seq<Message>, rest: seq<Reply>, run: Runner)
    ensures var s := Respond(handlers, msgs, usage, choices, rest, run);
      s.result.Ok? ==> Plus(s.result.value.usage, TotalUsage(s.rest)) == Plus(TotalUsage(rest), usage)
    decreases |rest|, 1
  {
    var k := FirstWithToolCalls(choices);
    if k < |choices| {
      var d := DispatchAll(handlers, choices[k].toolCalls, msgs + [choices[k]], run);
      if d.status.Ok? {
        InferUsage(handlers, d.messages, Some(usage), rest, run);
      }
    }
  }

  /**
   * The usage returned is `prev_usage` plus the prompt and completion tokens
   * of exactly the completions this call consumed, so counts never decrease.
   */
  lemma InferUsageConsumed(handlers: seq<Handler>, msgs: seq<Message>, prev: Option<Usage>, replies: seq<Reply>, run: Runner)
    ensures var s := Infer(handlers, msgs, prev, replies, run);
      s.result.Ok? ==>
        && |s.rest| <= |replies|
        && s.result.value.usage == Plus(TotalUsage(replies[..|replies| - |s.rest|]), UsageOf(prev))
        && s.result.value.usage.input >= UsageOf(prev).input
        && s.result.value.usage.output >= UsageOf(prev).output
  {
    var s := Infer(handlers, msgs, prev, replies, run);
    InferExtends(handlers, msgs, prev, replies, run);
    InferUsage(handlers, msgs, prev, replies, run);
    if s.result.Ok? {
      ConsumedUsage(replies, s.rest, s.result.value.usage, UsageOf(prev));
    }
  }

  lemma ConsumedUsage(replies: seq<Reply>, rest: seq<Reply>, u: Usage, p: Usage)
    requires |rest| <= |replies| && rest == replies[|replies| - |rest|..]
    requires Plus(u, TotalUsage(rest)) == Plus(TotalUsage(replies), p)
    ensures u == Plus(TotalUsage(replies[..|replies| - |rest|]), p)
    ensures u.input >= p.input && u.output >= p.output
  {
    var consumed := replies[..|replies| - |rest|];
    assert replies == consumed + rest;
    TotalUsageAppend(consumed, rest);
  }

  /**
   * A successful call ends with an assistant message holding the returned
   * text, appended after every message the call was given.
   */
  lemma {:induction false} InferAnswerAppended(handlers: seq<Handler>, msgs: seq<Message>, prev: Option<Usage>, replies: seq<Reply>, run: Runner)
    ensures var s := Infer(handlers, msgs, prev, replies, run);
      s.result.Ok? ==>
        && |s.messages| > |msgs| && s.messages[|s.messages| - 1] == AssistantTurn(s.result.value.content)
        && msgs <= s.messages[..|s.messages| - 1]
    decreases |replies|, 0
  {
    if replies != [] {
      match replies[0]
      case RateLimited =>
        InferAnswerAppended(handlers, msgs, prev, replies[1..], run);
      case Completion(pt, ct, choices) =>
        RespondAnswerAppended(handlers, msgs, Accumulate(Usage(pt, ct), prev), choices, replies[1..], run);
    }
  }

  lemma {:induction false} RespondAnswerAppended(handlers: seq<Handler>, msgs: seq<Message>, usage: Usage, choices: seq<Message>, rest: seq<Reply>, run: Runner)
    ensures var s := Respond(handlers, msgs, usage, choices, rest, run);
      s.result.Ok? ==>
        && |s.messages| > |msgs| && s.messages[|s.messages| - 1] == AssistantTurn(s.result.value.content)
        && msgs <= s.messages[..|s.messages| - 1]
    decreases |rest|, 1
  {
    var s := Respond(handlers, msgs, usage, choices, rest, run);
    var k := FirstWithToolCalls(choices);
    if k < |choices| {
      var d := DispatchAll(handlers, choices[k].toolCalls, msgs + [choices[k]], run);
      if d.status.Ok? {
        assert s == Infer(handlers, d.messages, Some(usage), rest, run);
        InferAnswerAppended(handlers, d.messages, Some(usage), rest, run);
        assert |d.messages| >= |msgs + [choices[k]]|;
        assert msgs <= d.messages[..|d.messages| - 1];
      }
    } else if s.result.Ok? {
      var text := JoinContents(choices).value;
      assert s.messages == msgs + [AssistantTurn(text)] && s.result.value.content == text;
      assert s.messages[|msgs|] == AssistantTurn(text);
      assert s.messages[..|s.messages| - 1] == msgs;
    }
  }

  /**
   * A response whose choices carry no tool calls ends the call: the contents
   * of all choices, joined by line breaks, are the answer and are appended as
   * one assistant message; a choice without content raises the TypeError of
   * `str.join` naming it, with the list unchanged.
   */
  lemma RespondAnswer(handlers: seq<Handler>, msgs: seq<Message>, usage: Usage, choices: seq<Message>, rest: seq<Reply>, run: Runner)
    requires FirstWithToolCalls(choices) == |choices|
    ensures var s := Respond(handlers, msgs, usage, choices, rest, run);
      match JoinContents(choices)
      case Some(t) => s == Inferred(Ok(Answer(t, usage)), msgs + [AssistantTurn(t)], rest)
      case None => MissingAt(choices) < |choices| && s == Inferred(Err(MissingContent(MissingAt(choices))), msgs, rest)
  {
  }

  /**
   * The reply just before `rest` in `replies` is a completion none of whose
   * choices calls a tool, and its joined contents are `content`.
   */
  predicate AnsweredBy(replies: seq<Reply>, rest: seq<Reply>, content: string)
  {
    && |rest| < |replies|
    && var r := replies[|replies| - |rest| - 1];
      r.Completion? && FirstWithToolCalls(r.choices) == |r.choices| && JoinContents(r.choices) == Some(content)
  }

  /**
   * The text a successful call returns is the line-break join of the contents
   * of the last completion it consumed, which carries no tool calls.
   */
  lemma {:induction false} InferAnswerJoined(handlers: seq<Handler>, msgs: seq<Message>, prev: Option<Usage>, replies: seq<Reply>, run: Runner)
    ensures var s := Infer(handlers, msgs, prev, replies, run);
      s.result.Ok? ==> AnsweredBy(replies, s.rest, s.result.value.content)
    decreases |replies|, 0
  {
    if replies != [] {
      var s := Infer(handlers, msgs, prev, replies, run);
      assert replies == [replies[0]] + replies[1..];
      match replies[0]
      case RateLimited =>
        InferAnswerJoined(handlers, msgs, prev, replies[1..], run);
        if s.result.Ok? {
          AnsweredByLater(replies[0], replies[1..], s.rest, s.result.value.content);
        }
      case Completion(pt, ct, choices) =>
        var usage := Accumulate(Usage(pt, ct), prev);
        RespondAnswerJoined(handlers, msgs, usage, choices, replies[1..], run);
        assert s == Respond(handlers, msgs, usage, choices, replies[1..], run);
        if s.result.Ok? {
          if AnsweredBy(replies[1..], s.rest, s.result.value.content) {
            AnsweredByLater(replies[0], replies[1..], s.rest, s.result.value.content);
          }
        }
    }
  }

  /** Putting one more reply in front keeps the same answering completion. */
  lemma AnsweredByLater(x: Reply, replies: seq<Reply>, rest: seq<Reply>, content: string)
    requires AnsweredBy(replies, rest, content)
    ensures AnsweredBy([x] + replies, rest, content)
  {
    assert ([x] + replies)[|[x] + replies| - |rest| - 1] == replies[|replies| - |rest| - 1];
  }

  /**
   * For one response: either its own choices carry no tool calls and give
   * the answer, or the answer comes from a later completion.
   */
  lemma {:induction false} RespondAnswerJoined(handlers: seq<Handler>, msgs: seq<Message>, usage: Usage, choices: seq<Message>, rest: seq<Reply>, run: Runner)
    ensures var s := Respond(handlers, msgs, usage, choices, rest, run);
      s.result.Ok? ==>
        || (s.rest == rest && FirstWithToolCalls(choices) == |choices| && JoinContents(choices) == Some(s.result.value.content))
        || AnsweredBy(rest, s.rest, s.result.value.content)
    decreases |rest|, 1
  {
    var k := FirstWithToolCalls(choices);
    if k < |choices| {
      var d := DispatchAll(handlers, choices[k].toolCalls, msgs + [choices[k]], run);
      if d.status.Ok? {
        InferAnswerJoined(handlers, d.messages, Some(usage), rest, run);
      }
    }
  }

  /** Answers below the length of a prefix stay in place in the longer list. */
  lemma AnswersKept(d: seq<Message>, s: seq<Message>, base: nat, calls: seq<ToolCall>)
    requires d <= s && AnswersFrom(d, base, calls)
    ensures AnswersFrom(s, base, calls)
  {
    forall i | 0 <= i < |calls|
      ensures Answers(s[base + i], calls[i])
    {
      assert s[base + i] == d[base + i];
    }
  }

  /** The next call keeps a round's assistant message and its answers in place. */
  lemma RoundKept(handlers: seq<Handler>, m: seq<Message>, d: seq<Message>, usage: Usage, rest: seq<Reply>, run: Runner, calls: seq<ToolCall>)
    requires m <= d && AnswersFrom(d, |m|, calls)
    ensures var s := Infer(handlers, d, Some(usage), rest, run);
      m <= s.messages && AnswersFrom(s.messages, |m|, calls)
  {
    InferExtends(handlers, d, Some(usage), rest, run);
    AnswersKept(d, Infer(handlers, d, Some(usage), rest, run).messages, |m|, calls);
  }

  /** A response whose first tool-calling choice is dispatched in full continues with another call. */
  lemma RespondToolRound(handlers: seq<Handler>, msgs: seq<Message>, usage: Usage, choices: seq<Message>, rest: seq<Reply>, run: Runner)
    requires FirstWithToolCalls(choices) < |choices|
    requires var k := FirstWithToolCalls(choices);
      DispatchAll(handlers, choices[k].toolCalls, msgs + [choices[k]], run).status.Ok?
    ensures var k := FirstWithToolCalls(choices);
      Respond(handlers, msgs, usage, choices, rest, run)
        == Infer(handlers, DispatchAll(handlers, choices[k].toolCalls, msgs + [choices[k]], run).messages, Some(usage), rest, run)
  {
  }

  /**
   * When a response carries tool calls, the message list continues with the
   * assistant message of the first such choice followed by one tool message
   * per call, in issue order, each carrying that call's identifier.
   */
  lemma ToolRoundOrder(handlers: seq<Handler>, msgs: seq<Message>, usage: Usage, choices: seq<Message>, rest: seq<Reply>, run: Runner)
    requires FirstWithToolCalls(choices) < |choices|
    requires var calls := choices[FirstWithToolCalls(choices)].toolCalls;
      forall i :: 0 <= i < |calls| ==> Known(handlers, calls[i].name)
    ensures var choice := choices[FirstWithToolCalls(choices)];
      var s := Respond(handlers, msgs, usage, choices, rest, run);
      && msgs + [choice] <= s.messages
      && AnswersFrom(s.messages, |msgs| + 1, choice.toolCalls)
  {
    var k := FirstWithToolCalls(choices);
    var calls := choices[k].toolCalls;
    var m := msgs + [choices[k]];
    DispatchAllAnswers(handlers, calls, m, run);
    RespondToolRound(handlers, msgs, usage, choices, rest, run);
    RoundKept(handlers, m, DispatchAll(handlers, calls, m, run).messages, usage, rest, run, calls);
  }

  /** A rate-limited call is retried with the same messages and the same `prev_usage`. */
  lemma RateLimitRetries(handlers: seq<Handler>, msgs: seq<Message>, prev: Option<Usage>, replies: seq<Reply>, run: Runner)
    ensures Infer(handlers, msgs, prev, [RateLimited] + replies, run) == Infer(handlers, msgs, prev, replies, run)
  {
    assert ([RateLimited] + replies)[1..] == replies;
  }

  /** A conversation: the Python list of messages that the loop appends to in place. */
  class Conversation {
    var messages: seq<Message>

    constructor (initial: seq<Message>)
      ensures messages == initial
    {
      messages := initial;
    }
  }

  /** The client object: the callable handlers and the descriptors sent with every request. */
  class DeepSeek {
    var functions: seq<Handler>
    var tools: seq<ToolDescriptor>

    /** The descriptors sent with every request describe the handlers that answer the calls. */
    ghost predicate Valid()
      reads this
    {
      |tools| == |functions| && forall i :: 0 <= i < |functions| ==> Describes(functions[i], tools[i])
    }

    /** The tool list is a parameter; the API key, the HTTP client and the socket are not modelled. */
    constructor (functions: seq<Handler>)
      ensures Valid() && this.functions == functions
    {
      var t := MakeTools(functions);
      this.functions := functions;
      this.tools := t;
    }

    method InitModelTools(functions: seq<Handler>)
      modifies this
      ensures Valid() && this.functions == functions
    {
      this.functions := functions;
      this.tools := MakeTools(functions);
    }

    method HandleToolCall(call: ToolCall, conv: Conversation, run: Runner) returns (r: Result<()>)
      requires Valid()
      modifies conv
      ensures var t := ToolResult(functions, call, old(conv.messages), run);
        && (t.Ok? ==> r == Ok(()) && conv.messages == old(conv.messages) + [t.value])
        && (t.Err? ==> r == Err(t.error) && conv.messages == old(conv.messages))
    {
      var k := Resolve(functions, call.name);
      if k.None? {
        return Err(UnknownTool(call.name));
      }
      var output := run(k.value, call.arguments, conv.messages);
      output := Normalise(output);
      conv.messages := conv.messages + [ToolTurn(call.id, output)];
      r := Ok(());
    }

    /** The loop over `choice.message.tool_calls` inside `infer_with_tools`. */
    method AnswerToolCalls(calls: seq<ToolCall>, conv: Conversation, run: Runner) returns (r: Result<()>)
      requires Valid()
      modifies conv
      ensures var d := DispatchAll(functions, calls, old(conv.messages), run);
        r == d.status && conv.messages == d.messages
    {
      for j := 0 to |calls|
        invariant DispatchAll(functions, calls[j..], conv.messages, run) == DispatchAll(functions, calls, old(conv.messages), run)
      {
        var status := HandleToolCall(calls[j], conv, run);
        if status.Err? {
          return status;
        }
        assert calls[j..][1..] == calls[j + 1..];
      }
      r := Ok(());
    }

    method InferWithTools(conv: Conversation, prev: Option<Usage>, replies: seq<Reply>, run: Runner)
      returns (r: Result<Answer>, rest: seq<Reply>)
      requires Valid()
      modifies conv
      ensures var s := Infer(functions, old(conv.messages), prev, replies, run);
        r == s.result && rest == s.rest && conv.messages == s.messages
      decreases |replies|, 0
    {
      if replies == [] {
        return Err(RepliesExhausted), [];
      }
      match replies[0] {
        case RateLimited =>
          r, rest := InferWithTools(conv, prev, replies[1..], run);
        case Completion(pt, ct, choices) =>
          var usage := Usage(pt, ct);
          if prev.Some? {
            usage := Usage(usage.input + prev.value.input, usage.output + prev.value.output);
          }
          assert usage == Accumulate(Usage(pt, ct), prev);
          r, rest := RespondWithTools(conv, usage, choices, replies[1..], run);
      }
    }

    /**
     * The rest of `infer_with_tools` once a response with accumulated usage
     * `usage` has arrived: the loop over its choices.
     */
    method RespondWithTools(conv: Conversation, usage: Usage, choices: seq<Message>, replies: seq<Reply>, run: Runner)
      returns (r: Result<Answer>, rest: seq<Reply>)
      requires Valid()
      modifies conv
      ensures var s := Respond(functions, old(conv.messages), usage, choices, replies, run);
        r == s.result && rest == s.rest && conv.messages == s.messages
      decreases |replies|, 1
    {
      var i := 0;
      while i < |choices|
        invariant i <= |choices|
        invariant forall j :: 0 <= j < i ==> choices[j].toolCalls == []
        invariant conv.messages == old(conv.messages)
      {
        if choices[i].toolCalls != [] {
          assert i == FirstWithToolCalls(choices);
          conv.messages := conv.messages + [choices[i]];
          var status := AnswerToolCalls(choices[i].toolCalls, conv, run);
          if status.Err? {
            return Err(status.error), replies;
          }
          r, rest := InferWithTools(conv, Some(usage), replies, run);
          return;
        }
        i := i + 1;
      }
      assert i == FirstWithToolCalls(choices);
      var content := JoinContents(choices);
      if content.None? {
        return Err(MissingContent(MissingAt(choices))), replies;
      }
      conv.messages := conv.messages + [AssistantTurn(content.value)];
      r, rest := Ok(Answer(content.value, usage)), replies;
    }
  }
}
