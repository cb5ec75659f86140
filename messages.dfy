/**
 * Values shared by the orchestration loop and the sandbox channel: chat
 * messages, tool-call requests, token usage, the replies of the completion
 * endpoint and the errors the system raises.
 */
module Messages {

  datatype Option<T> = None | Some(value: T)

  /** The exceptions of the system that the model keeps apart. */
  datatype Error =
    | ValueError(message: string)
    | TypeError(message: string)
    | AttributeError(message: string)
    /** Bytes that are not well-formed UTF-8 were decoded. */
    | UnicodeDecodeError
    /** The canned replies of the completion endpoint ran out before the loop ended. */
    | RepliesExhausted

  datatype Result<T> = Ok(value: T) | Err(error: Error)

  datatype Role = System | User | Assistant | Tool

  /** A tool invocation the model asks for; the JSON arguments are already parsed. */
  datatype ToolCall = ToolCall(id: string, name: string, arguments: map<string, string>)

  /**
   * A chat message. `content` is absent for an assistant message that only
   * carries tool calls; `toolCallId` is present on tool messages.
   */
  datatype Message = Message(role: Role, content: Option<string>, toolCalls: seq<ToolCall>, toolCallId: Option<string>)

  function SystemTurn(text: string): Message { Message(System, Some(text), [], None) }
  function UserTurn(text: string): Message { Message(User, Some(text), [], None) }
  function AssistantTurn(text: string): Message { Message(Assistant, Some(text), [], None) }
  function ToolTurn(id: string, text: string): Message { Message(Tool, Some(text), [], Some(id)) }

  /** Token counts: prompt (input) and completion (output). */
  datatype Usage = Usage(input: nat, output: nat)

  function Plus(a: Usage, b: Usage): Usage { Usage(a.input + b.input, a.output + b.output) }

  /** What one call of the completion endpoint gives back. */
  datatype Reply =
    | RateLimited
    | Completion(promptTokens: nat, completionTokens: nat, choices: seq<Message>)

  /** Usage of one reply; a rate-limited call bills nothing. */
  function ReplyUsage(r: Reply): Usage
  {
    match r
    case RateLimited => Usage(0, 0)
    case Completion(p, c, _) => Usage(p, c)
  }

  /** Total usage of a run of replies, in order. */
  function TotalUsage(rs: seq<Reply>): Usage
    decreases |rs|
  {
    if rs == [] then Usage(0, 0) else Plus(ReplyUsage(rs[0]), TotalUsage(rs[1..]))
  }

  lemma {:induction false} TotalUsageAppend(a: seq<Reply>, b: seq<Reply>)
    ensures TotalUsage(a + b) == Plus(TotalUsage(a), TotalUsage(b))
    decreases |a|
  {
    if a == [] {
      assert a + b == b;
    } else {
      assert (a + b)[0] == a[0];
      assert (a + b)[1..] == a[1..] + b;
      TotalUsageAppend(a[1..], b);
    }
  }

  /**
   * A tool handler as seen from the dispatcher: given the index of the
   * resolved handler, the arguments and the conversation so far, the text it
   * returns. The history grows before every invocation, so this stands for a
   * handler whose sandbox keeps state between calls.
   */
  type Runner = (nat, map<string, string>, seq<Message>) -> string
}
