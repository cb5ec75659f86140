/**
 * The generator/verifier policy of DeepSeek/misc.py: seed a conversation,
 * then at most five times ask the model whether the task is solved, stop at
 * the first reply containing the marker "SOLVED:", and otherwise ask again.
 * The two variants differ in their prompts, in what they return as the
 * answer and in the turn they add after a failed check.
 */
module Agents {

  import opened Messages
  import opened Strings
  import opened DeepSeekIO

  const Attempts := 5
  const Marker := "SOLVED:"
  const Unsolved := "Unable to solve the problem"

  const SystemV01 := "You must solve the problem. Think step by step"
  const VerifyV01 := "Is the task complete? If yes, write 'SOLVED:' flowed by the full answer. If no, briefly describe the issue and suggest improvements."
  const RetryV01 := "give it another try"

  const SystemV02 := "1. **Solve the problem.**\n2. **Rephrase the question.**\n3. **Make high-level observations.**\n4. **Create an initial plan.**\n5. **Break the plan into smaller steps.**\n6. **Verify each step.**\n7. **Think step by step and stay calm.**"
  /** The line continuations drop the newlines but keep the indentation of the following lines. */
  const VerifyV02 := "If the task is solved, please type \"SOLVED:\" and the answer.             Make sure to be very critical if the task is solved in full.             Task is consider solved only if the answer contains ALL requirements to the original question.             Otherwise, type \"NO\". And suggest improvements, or different approaches."

  /**
   * What tells the two agent functions apart: the system prompt, the
   * question asked after every answer, the user turn sent after a failed
   * check (none for v02, which sends the check's conversation as it is), and
   * whether the marker is cut out of the final answer and the rest stripped.
   */
  datatype Policy = Policy(system: string, verify: string, retry: Option<string>, trim: bool)

  /** `simple_agent_v01`. */
  const V01 := Policy(SystemV01, VerifyV01, Some(RetryV01), true)
  /** `simple_agent_v02`. */
  const V02 := Policy(SystemV02, VerifyV02, None, false)

  /** The conversation seeded before the loop: the system message, then the question. */
  function Seed(p: Policy, question: string): seq<Message>
  {
    [SystemTurn(p.system), UserTurn(question)]
  }

  /** What is sent after a failed check. */
  function FollowUp(p: Policy, trace: seq<Message>): seq<Message>
  {
    if p.retry.Some? then trace + [UserTurn(p.retry.value)] else trace
  }

  /** The answer returned for a verifier reply containing the marker. */
  function Finish(p: Policy, out: string): (r: string)
    ensures |r| <= |out|
    ensures !p.trim ==> r == out
    ensures p.trim && r != [] ==> !IsSpace(r[0]) && !IsSpace(r[|r| - 1])
  {
    if p.trim then Strip(RemoveAll(out, Marker)) else out
  }

  /** A string shorter than the pattern does not contain it. */
  lemma {:induction false} TooShort(s: string, p: string)
    requires |s| < |p|
    ensures !Contains(s, p)
    decreases |s|
  {
    if |s| > 0 {
      TooShort(s[1..], p);
    }
  }

  /** v02 answers with the verifier reply as it is, marker included. */
  lemma FinishUnchanged(out: string)
    ensures Finish(V02, out) == out
  {
    assert V02.trim == false;
  }

  lemma RemoveBare()
    ensures RemoveAll("SOLVED: 42", Marker) == " 42"
  {
    var s := "SOLVED: 42";
    assert s[..7] == Marker && s[7..] == " 42";
    TooShort(" 42", Marker);
  }

  lemma StripBare()
    ensures Strip(" 42") == "42"
  {
    assert " 42"[1..] == "42" && "42"[1..] == "2";
    assert LeadingSpace(" 42") == 1;
    assert TrailingStart(" 42") == 3;
    assert " 42"[1..3] == "42";
  }

  /** v01 cuts the marker and the blank after it out of a bare verdict. */
  lemma FinishBare()
    ensures Finish(V01, "SOLVED: 42") == "42"
  {
    RemoveBare();
    StripBare();
  }

  lemma RemoveInside()
    ensures RemoveAll("Done. SOLVED: 4 ", Marker) == "Done.  4 "
  {
    var s := "Done. SOLVED: 4 ";
    var u := "SOLVED: 4 ";
    assert s == "Done. " + u;
    assert u[..7] == Marker && u[7..] == " 4 ";
    TooShort(" 4 ", Marker);
    assert RemoveAll(u, Marker) == " 4 ";
    RemovePlain("Done. ", u, Marker);
  }

  lemma StripInside()
    ensures Strip("Done.  4 ") == "Done.  4"
  {
    var r := "Done.  4 ";
    assert LeadingSpace(r) == 0;
    assert r[..|r| - 1] == "Done.  4";
    assert TrailingStart(r) == 8;
    assert r[0..8] == "Done.  4";
  }

  /** v01 keeps the text before the marker: only the marker itself and the outer blanks go. */
  lemma FinishKeepsPrefix()
    ensures Finish(V01, "Done. SOLVED: 4 ") == "Done.  4"
  {
    RemoveInside();
    StripInside();
  }

  /** What the agent function returns: answer, usage and trace. */
  datatype Solution = Solution(answer: string, usage: Usage, trace: seq<Message>)

  /** One `infer_with_tools` call of the agent: the messages sent and the trace returned. */
  datatype Call = Call(request: seq<Message>, trace: seq<Message>)

  /**
   * A run of the agent: its outcome, the verifier replies seen, every
   * completion-loop call made, and the chat replies left over.
   */
  datatype Run = Run(result: Result<Solution>, verdicts: seq<string>, calls: seq<Call>, rest: seq<Reply>)

  /**
   * `client.infer_with_tools(messages, prev_usage)` as the agents use it: the
   * messages, the usage so far and the replies still to come, to the outcome.
   */
  type Completer = (seq<Message>, Option<Usage>, seq<Reply>) -> Inferred

  /** The completion loop of the shared client, with its handlers and their runner. */
  function Chat(handlers: seq<ToolSchema.Handler>, run: Runner): Completer
  {
    (msgs: seq<Message>, prev: Option<Usage>, replies: seq<Reply>) => Infer(handlers, msgs, prev, replies, run)
  }

  /** What the agents rely on of the completion loop: the message list only grows, ... */
  ghost predicate Grows(infer: Completer)
  {
    forall msgs, prev, replies :: GrowsAt(infer, msgs, prev, replies)
  }

  ghost predicate GrowsAt(infer: Completer, msgs: seq<Message>, prev: Option<Usage>, replies: seq<Reply>)
  {
    msgs <= infer(msgs, prev, replies).messages
  }

  /** ... the replies left over are a suffix of those given, ... */
  ghost predicate Consumes(infer: Completer)
  {
    forall msgs, prev, replies :: ConsumesAt(infer, msgs, prev, replies)
  }

  ghost predicate ConsumesAt(infer: Completer, msgs: seq<Message>, prev: Option<Usage>, replies: seq<Reply>)
  {
    Suffix(infer(msgs, prev, replies).rest, replies)
  }

  /**
   * ... and the usage returned, plus that of the replies left over, is
   * `prev_usage` plus that of all replies given.
   */
  ghost predicate Bills(infer: Completer)
  {
    forall msgs, prev, replies :: BillsAt(infer, msgs, prev, replies)
  }

  ghost predicate BillsAt(infer: Completer, msgs: seq<Message>, prev: Option<Usage>, replies: seq<Reply>)
  {
    Billed(infer(msgs, prev, replies), replies, UsageOf(prev))
  }

  ghost predicate Suffix<T>(rest: seq<T>, xs: seq<T>)
  {
    |rest| <= |xs| && rest == xs[|xs| - |rest|..]
  }

  predicate Billed(s: Inferred, replies: seq<Reply>, usage: Usage)
  {
    s.result.Ok? ==> Plus(s.result.value.usage, TotalUsage(s.rest)) == Plus(TotalUsage(replies), usage)
  }

  lemma ChatBehaves(handlers: seq<ToolSchema.Handler>, run: Runner)
    ensures var infer := Chat(handlers, run);
      Grows(infer) && Consumes(infer) && Bills(infer)
  {
    var infer := Chat(handlers, run);
    forall msgs, prev, replies
      ensures GrowsAt(infer, msgs, prev, replies)
      ensures ConsumesAt(infer, msgs, prev, replies)
      ensures BillsAt(infer, msgs, prev, replies)
    {
      InferExtends(handlers, msgs, prev, replies, run);
      InferUsage(handlers, msgs, prev, replies, run);
    }
  }

  /**
   * Attempts `i`, `i + 1`, ... of the loop, starting from `trace` and
   * `usage`; each attempt records at most one verifier reply.
   */
  function Rounds(p: Policy, infer: Completer, i: nat, trace: seq<Message>, usage: Usage,
                  replies: seq<Reply>, verdicts: seq<string>, calls: seq<Call>): (r: Run)
    requires i <= Attempts
    ensures verdicts <= r.verdicts && |r.verdicts| <= |verdicts| + (Attempts - i)
    decreases Attempts - i
  {
    if i == Attempts then Run(Ok(Solution(Unsolved, usage, trace)), verdicts, calls, replies)
    else
      var request := trace + [UserTurn(p.verify)];
      var check := infer(request, Some(usage), replies);
      if check.result.Err? then Run(Err(check.result.error), verdicts, calls, check.rest)
      else
        var out := check.result.value.content;
        var verdicts', calls' := verdicts + [out], calls + [Call(request, check.messages)];
        if Contains(out, Marker) then
          Run(Ok(Solution(Finish(p, out), check.result.value.usage, check.messages)), verdicts', calls', check.rest)
        else
          var again := FollowUp(p, check.messages);
          var retry := infer(again, Some(check.result.value.usage), check.rest);
          if retry.result.Err? then Run(Err(retry.result.error), verdicts', calls', retry.rest)
          else Rounds(p, infer, i + 1, retry.messages, retry.result.value.usage, retry.rest,
                      verdicts', calls' + [Call(again, retry.messages)])
  }

  /**
   * Reference definition of `simple_agent_v01(question)` /
   * `simple_agent_v02(question)`: at most five verifier replies are checked.
   */
  function Solve(p: Policy, infer: Completer, question: string, replies: seq<Reply>): (r: Run)
    ensures |r.verdicts| <= Attempts
  {
    var seed := Seed(p, question);
    var first := infer(seed, None, replies);
    if first.result.Err? then Run(Err(first.result.error), [], [], first.rest)
    else Rounds(p, infer, 0, first.messages, first.result.value.usage, first.rest, [], [Call(seed, first.messages)])
  }

  function Last<T>(xs: seq<T>): T
    requires xs != []
  {
    xs[|xs| - 1]
  }

  /**
   * Every verifier reply but the last lacks the marker; a successful run
   * either finishes the last reply, which has the marker, or used up all
   * attempts and answers `"Unable to solve the problem"`.
   */
  ghost predicate Concluded(p: Policy, r: Run)
  {
    && |r.verdicts| <= Attempts
    && (forall k :: 0 <= k < |r.verdicts| - 1 ==> !Contains(r.verdicts[k], Marker))
    && (r.result.Ok? ==>
          if r.verdicts != [] && Contains(Last(r.verdicts), Marker)
          then r.result.value.answer == Finish(p, Last(r.verdicts))
          else |r.verdicts| == Attempts && r.result.value.answer == Unsolved)
  }

  lemma {:induction false} RoundsConcluded(p: Policy, infer: Completer, i: nat, trace: seq<Message>, usage: Usage,
                                           replies: seq<Reply>, verdicts: seq<string>, calls: seq<Call>)
    requires i <= Attempts && |verdicts| == i
    requires forall k :: 0 <= k < i ==> !Contains(verdicts[k], Marker)
    ensures Concluded(p, Rounds(p, infer, i, trace, usage, replies, verdicts, calls))
    decreases Attempts - i
  {
    var r := Rounds(p, infer, i, trace, usage, replies, verdicts, calls);
    if i == Attempts {
      assert r.verdicts == verdicts;
    } else {
      var request := trace + [UserTurn(p.verify)];
      var check := infer(request, Some(usage), replies);
      if check.result.Err? {
        assert r.verdicts == verdicts;
      } else {
        var out := check.result.value.content;
        var verdicts' := verdicts + [out];
        assert forall k :: 0 <= k < i ==> verdicts'[k] == verdicts[k];
        if Contains(out, Marker) {
          assert r.verdicts == verdicts' && Last(verdicts') == out;
        } else {
          var again := FollowUp(p, check.messages);
          var retry := infer(again, Some(check.result.value.usage), check.rest);
          if retry.result.Err? {
            assert r.verdicts == verdicts';
          } else {
            var calls' := calls + [Call(request, check.messages)] + [Call(again, retry.messages)];
            RoundsConcluded(p, infer, i + 1, retry.messages, retry.result.value.usage, retry.rest, verdicts', calls');
            assert r == Rounds(p, infer, i + 1, retry.messages, retry.result.value.usage, retry.rest, verdicts', calls');
          }
        }
      }
    }
  }

  /** The outcome of `simple_agent_v01` / `simple_agent_v02`. */
  lemma SolveConcluded(p: Policy, infer: Completer, question: string, replies: seq<Reply>)
    ensures Concluded(p, Solve(p, infer, question, replies))
  {
    var first := infer(Seed(p, question), None, replies);
    if first.result.Ok? {
      RoundsConcluded(p, infer, 0, first.messages, first.result.value.usage, first.rest, [], [Call(Seed(p, question), first.messages)]);
    }
  }

  /** Call `k + 1` of a run sends this, given the trace returned by call `k`. */
  function NextRequest(p: Policy, k: nat, trace: seq<Message>): seq<Message>
  {
    if k % 2 == 0 then trace + [UserTurn(p.verify)] else FollowUp(p, trace)
  }

  /**
   * Each call's trace extends what it was sent, and each call after the
   * first sends the trace of the one before it, with the verify prompt
   * after the seed or a retry, and the follow-up after a check.
   */
  ghost predicate Chained(p: Policy, calls: seq<Call>)
  {
    && (forall k :: 0 <= k < |calls| ==> calls[k].request <= calls[k].trace)
    && (forall k :: 0 <= k < |calls| - 1 ==> calls[k + 1].request == NextRequest(p, k, calls[k].trace))
  }

  lemma ChainedAppend(p: Policy, calls: seq<Call>, c: Call)
    requires Chained(p, calls) && calls != []
    requires c.request == NextRequest(p, |calls| - 1, Last(calls).trace) && c.request <= c.trace
    ensures Chained(p, calls + [c])
  {
    var calls' := calls + [c];
    assert calls'[|calls|] == c;
    forall k | 0 <= k < |calls'| - 1
      ensures calls'[k + 1].request == NextRequest(p, k, calls'[k].trace)
    {
      if k < |calls| - 1 {
        assert calls'[k + 1] == calls[k + 1];
      }
    }
  }

  /**
   * The loop only appends calls, and a successful run returns the trace of
   * its last call, which extends the trace the loop started from.
   */
  lemma {:induction false} RoundsCalls(p: Policy, infer: Completer, i: nat, trace: seq<Message>, usage: Usage,
                                       replies: seq<Reply>, verdicts: seq<string>, calls: seq<Call>)
    requires Grows(infer)
    requires i <= Attempts && calls != [] && Last(calls).trace == trace
    ensures var r := Rounds(p, infer, i, trace, usage, replies, verdicts, calls);
      && calls <= r.calls
      && (r.result.Ok? ==> trace <= r.result.value.trace && r.result.value.trace == Last(r.calls).trace)
    decreases Attempts - i
  {
    if i < Attempts {
      var r := Rounds(p, infer, i, trace, usage, replies, verdicts, calls);
      var request := trace + [UserTurn(p.verify)];
      var check := infer(request, Some(usage), replies);
      assert GrowsAt(infer, request, Some(usage), replies);
      if check.result.Ok? {
        var calls' := calls + [Call(request, check.messages)];
        if Contains(check.result.value.content, Marker) {
          assert r.calls == calls' && r.result.value.trace == check.messages;
        } else {
          var again := FollowUp(p, check.messages);
          var retry := infer(again, Some(check.result.value.usage), check.rest);
          assert GrowsAt(infer, again, Some(check.result.value.usage), check.rest);
          if retry.result.Ok? {
            var calls'' := calls' + [Call(again, retry.messages)];
            var next := Rounds(p, infer, i + 1, retry.messages, retry.result.value.usage, retry.rest,
                               verdicts + [check.result.value.content], calls'');
            RoundsCalls(p, infer, i + 1, retry.messages, retry.result.value.usage, retry.rest,
                        verdicts + [check.result.value.content], calls'');
            assert r == next;
          } else {
            assert r.calls == calls';
          }
        }
      } else {
        assert r.calls == calls;
      }
    }
  }

  /** The calls of one attempt extend a chain that ends with a seed or a retry. */
  lemma ChainedRound(p: Policy, calls: seq<Call>, request: seq<Message>, checked: seq<Message>,
                     again: seq<Message>, retried: seq<Message>)
    requires Chained(p, calls) && calls != [] && (|calls| - 1) % 2 == 0
    requires request == Last(calls).trace + [UserTurn(p.verify)] && request <= checked
    requires again == FollowUp(p, checked) && again <= retried
    ensures Chained(p, calls + [Call(request, checked)])
    ensures Chained(p, calls + [Call(request, checked)] + [Call(again, retried)])
  {
    ChainedAppend(p, calls, Call(request, checked));
    var calls' := calls + [Call(request, checked)];
    assert Last(calls').trace == checked;
    ChainedAppend(p, calls', Call(again, retried));
  }

  /** Every call of the loop is chained to the one before it. */
  lemma {:induction false} RoundsChained(p: Policy, infer: Completer, i: nat, trace: seq<Message>, usage: Usage,
                                         replies: seq<Reply>, verdicts: seq<string>, calls: seq<Call>)
    requires Grows(infer)
    requires i <= Attempts && |calls| == 2 * i + 1 && Last(calls).trace == trace
    requires Chained(p, calls)
    ensures Chained(p, Rounds(p, infer, i, trace, usage, replies, verdicts, calls).calls)
    decreases Attempts - i
  {
    if i < Attempts {
      var r := Rounds(p, infer, i, trace, usage, replies, verdicts, calls);
      var request := trace + [UserTurn(p.verify)];
      var check := infer(request, Some(usage), replies);
      if check.result.Ok? {
        var calls' := calls + [Call(request, check.messages)];
        var again := FollowUp(p, check.messages);
        var retry := infer(again, Some(check.result.value.usage), check.rest);
        assert GrowsAt(infer, request, Some(usage), replies);
        assert GrowsAt(infer, again, Some(check.result.value.usage), check.rest);
        assert (|calls| - 1) % 2 == 0;
        ChainedRound(p, calls, request, check.messages, again, retry.messages);
        if Contains(check.result.value.content, Marker) || retry.result.Err? {
          assert r.calls == calls';
        } else {
          var calls'' := calls' + [Call(again, retry.messages)];
          var next := Rounds(p, infer, i + 1, retry.messages, retry.result.value.usage, retry.rest,
                             verdicts + [check.result.value.content], calls'');
          RoundsChained(p, infer, i + 1, retry.messages, retry.result.value.usage, retry.rest,
                        verdicts + [check.result.value.content], calls'');
          assert r == next;
        }
      } else {
        assert r.calls == calls;
      }
    }
  }

  /**
   * The calls of a run: the seed first, then verify and follow-up requests
   * alternating, each built from the trace of the call before it; a
   * successful run returns the trace of its last call, which extends the seed.
   */
  lemma SolveChained(p: Policy, infer: Completer, question: string, replies: seq<Reply>)
    requires Grows(infer)
    ensures var r := Solve(p, infer, question, replies);
      && Chained(p, r.calls)
      && (r.result.Ok? ==>
            && r.calls != [] && r.calls[0].request == Seed(p, question)
            && Seed(p, question) <= r.result.value.trace && r.result.value.trace == Last(r.calls).trace)
  {
    var seed := Seed(p, question);
    var first := infer(seed, None, replies);
    assert GrowsAt(infer, seed, None, replies);
    if first.result.Ok? {
      RoundsCalls(p, infer, 0, first.messages, first.result.value.usage, first.rest, [], [Call(seed, first.messages)]);
      RoundsChained(p, infer, 0, first.messages, first.result.value.usage, first.rest, [], [Call(seed, first.messages)]);
    }
  }

  lemma SuffixTrans<T>(a: seq<T>, b: seq<T>, c: seq<T>)
    requires Suffix(a, b) && Suffix(b, c)
    ensures Suffix(a, c)
  {
    assert c[|c| - |b|..][|b| - |a|..] == c[|c| - |a|..];
  }

  lemma {:induction false} RoundsRest(p: Policy, infer: Completer, i: nat, trace: seq<Message>, usage: Usage,
                                      replies: seq<Reply>, verdicts: seq<string>, calls: seq<Call>)
    requires Consumes(infer)
    requires i <= Attempts
    ensures Suffix(Rounds(p, infer, i, trace, usage, replies, verdicts, calls).rest, replies)
    decreases Attempts - i
  {
    if i == Attempts {
      assert replies[0..] == replies;
    } else {
      var request := trace + [UserTurn(p.verify)];
      var check := infer(request, Some(usage), replies);
      assert ConsumesAt(infer, request, Some(usage), replies);
      if check.result.Ok? && !Contains(check.result.value.content, Marker) {
        var again := FollowUp(p, check.messages);
        var retry := infer(again, Some(check.result.value.usage), check.rest);
        assert ConsumesAt(infer, again, Some(check.result.value.usage), check.rest);
        SuffixTrans(retry.rest, check.rest, replies);
        if retry.result.Ok? {
          var verdicts' := verdicts + [check.result.value.content];
          var calls' := calls + [Call(request, check.messages)] + [Call(again, retry.messages)];
          var next := Rounds(p, infer, i + 1, retry.messages, retry.result.value.usage, retry.rest, verdicts', calls');
          RoundsRest(p, infer, i + 1, retry.messages, retry.result.value.usage, retry.rest, verdicts', calls');
          SuffixTrans(next.rest, retry.rest, replies);
        }
      }
    }
  }

  lemma {:induction false} RoundsUsage(p: Policy, infer: Completer, i: nat, trace: seq<Message>, usage: Usage,
                                       replies: seq<Reply>, verdicts: seq<string>, calls: seq<Call>)
    requires Bills(infer)
    requires i <= Attempts
    ensures var r := Rounds(p, infer, i, trace, usage, replies, verdicts, calls);
      r.result.Ok? ==> Plus(r.result.value.usage, TotalUsage(r.rest)) == Plus(TotalUsage(replies), usage)
    decreases Attempts - i
  {
    if i < Attempts {
      var request := trace + [UserTurn(p.verify)];
      var check := infer(request, Some(usage), replies);
      assert BillsAt(infer, request, Some(usage), replies);
      if check.result.Ok? && !Contains(check.result.value.content, Marker) {
        var again := FollowUp(p, check.messages);
        var retry := infer(again, Some(check.result.value.usage), check.rest);
        assert BillsAt(infer, again, Some(check.result.value.usage), check.rest);
        if retry.result.Ok? {
          var verdicts' := verdicts + [check.result.value.content];
          var calls' := calls + [Call(request, check.messages)] + [Call(again, retry.messages)];
          RoundsUsage(p, infer, i + 1, retry.messages, retry.result.value.usage, retry.rest, verdicts', calls');
        }
      }
    }
  }

  /**
   * The usage a run returns is the sum of the prompt and completion tokens
   * of exactly the completions it consumed, threaded through every call.
   */
  lemma SolveUsage(p: Policy, infer: Completer, question: string, replies: seq<Reply>)
    requires Consumes(infer) && Bills(infer)
    ensures var r := Solve(p, infer, question, replies);
      r.result.Ok? ==> |r.rest| <= |replies| && r.result.value.usage == TotalUsage(replies[..|replies| - |r.rest|])
  {
    var seed := Seed(p, question);
    var first := infer(seed, None, replies);
    var r := Solve(p, infer, question, replies);
    if first.result.Ok? {
      var calls := [Call(seed, first.messages)];
      assert BillsAt(infer, seed, None, replies) && ConsumesAt(infer, seed, None, replies);
      RoundsUsage(p, infer, 0, first.messages, first.result.value.usage, first.rest, [], calls);
      RoundsRest(p, infer, 0, first.messages, first.result.value.usage, first.rest, [], calls);
      SuffixTrans(r.rest, first.rest, replies);
      if r.result.Ok? {
        var consumed := replies[..|replies| - |r.rest|];
        assert replies == consumed + r.rest;
        TotalUsageAppend(consumed, r.rest);
        var u, t, c := r.result.value.usage, TotalUsage(r.rest), TotalUsage(consumed);
        assert u.input + t.input == c.input + t.input;
        assert u.output + t.output == c.output + t.output;
      }
    }
  }

  /** `simple_agent_v01(question)` on the shared client. */
  method SimpleAgentV01(client: DeepSeek, question: string, replies: seq<Reply>, run: Runner) returns (r: Result<Solution>)
    requires client.Valid()
    ensures r == Solve(V01, Chat(client.functions, run), question, replies).result
  {
    ghost var infer := Chat(client.functions, run);
    ghost var goal := Solve(V01, infer, question, replies);
    var conv := new Conversation(Seed(V01, question));
    var res, rest := client.InferWithTools(conv, None, replies, run);
    if res.Err? {
      return Err(res.error);
    }
    var out, usage, trace := res.value.content, res.value.usage, conv;
    ghost var verdicts: seq<string> := [];
    ghost var calls := [Call(Seed(V01, question), conv.messages)];
    for i := 0 to Attempts
      invariant Rounds(V01, infer, i, trace.messages, usage, rest, verdicts, calls) == goal
    {
      var check := new Conversation(trace.messages + [UserTurn(VerifyV01)]);
      ghost var request := check.messages;
      res, rest := client.InferWithTools(check, Some(usage), rest, run);
      if res.Err? {
        return Err(res.error);
      }
      out, usage, trace := res.value.content, res.value.usage, check;
      verdicts, calls := verdicts + [out], calls + [Call(request, check.messages)];
      if Contains(out, Marker) {
        out := Strip(RemoveAll(out, Marker));
        return Ok(Solution(out, usage, trace.messages));
      }
      var retry := new Conversation(trace.messages + [UserTurn(RetryV01)]);
      ghost var again := retry.messages;
      res, rest := client.InferWithTools(retry, Some(usage), rest, run);
      if res.Err? {
        return Err(res.error);
      }
      out, usage, trace := res.value.content, res.value.usage, retry;
      calls := calls + [Call(again, retry.messages)];
    }
    r := Ok(Solution(Unsolved, usage, trace.messages));
  }

  /** `simple_agent_v02(question)`: the check's conversation is sent again as it is. */
  method SimpleAgentV02(client: DeepSeek, question: string, replies: seq<Reply>, run: Runner) returns (r: Result<Solution>)
    requires client.Valid()
    ensures r == Solve(V02, Chat(client.functions, run), question, replies).result
  {
    ghost var infer := Chat(client.functions, run);
    ghost var goal := Solve(V02, infer, question, replies);
    var conv := new Conversation(Seed(V02, question));
    var res, rest := client.InferWithTools(conv, None, replies, run);
    if res.Err? {
      return Err(res.error);
    }
    var out, usage, trace := res.value.content, res.value.usage, conv;
    ghost var verdicts: seq<string> := [];
    ghost var calls := [Call(Seed(V02, question), conv.messages)];
    for i := 0 to Attempts
      invariant Rounds(V02, infer, i, trace.messages, usage, rest, verdicts, calls) == goal
    {
      var check := new Conversation(trace.messages + [UserTurn(VerifyV02)]);
      ghost var request := check.messages;
      res, rest := client.InferWithTools(check, Some(usage), rest, run);
      if res.Err? {
        return Err(res.error);
      }
      out, usage, trace := res.value.content, res.value.usage, check;
      verdicts, calls := verdicts + [out], calls + [Call(request, check.messages)];
      if Contains(out, Marker) {
        return Ok(Solution(out, usage, trace.messages));
      }
      ghost var again := trace.messages;
      res, rest := client.InferWithTools(trace, Some(usage), rest, run);
      if res.Err? {
        return Err(res.error);
      }
      out, usage := res.value.content, res.value.usage;
      calls := calls + [Call(again, trace.messages)];
    }
    r := Ok(Solution(Unsolved, usage, trace.messages));
  }
}
