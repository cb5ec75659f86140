# DeepSeekAPI tool-calling core, modelled in Dafny

DeepSeekAPI lets a chat-completion model solve a task by calling tools that
run shell commands and Python code in a sandbox container over SSH. This
project models the logic between the chat endpoint and the sandbox and
proves properties of it:

- **Orchestration** (`DeepSeek/IO.py`), in `io.dfy` and `tools.dfy`:
  - the tool descriptors built from the handlers;
  - the dispatch of a tool call by name, with the tool's output normalised;
  - the recursive completion loop `infer_with_tools`, which sums token usage,
    answers tool calls, retries on rate limits and appends the final
    assistant message.

  The client is a class `DeepSeek` and the message list a class
  `Conversation`. Each method is proved equal to a reference function
  (`DispatchAll`, `Infer`), and the lemmas state what that function promises.
- **Generator/verifier agents** (`DeepSeek/misc.py`), in `agents.dfy`: both
  `simple_agent_v01` and `simple_agent_v02` are written with their loop. They
  are proved equal to `Solve`, one function parameterised by a `Policy` that
  holds what tells the variants apart:
  - the prompts;
  - the retry turn;
  - whether the answer is trimmed.

  The lemmas cover these properties of a run:
  - how it ends: the marker, or the sentinel after five attempts;
  - the order of the requests;
  - the threading of token usage.
- **Sandbox sockets** (`DeepSeek/remote/network.py`, `DeepSeek/network.py`),
  in `sandbox.dfy`, `remote.dfy`, `local.dfy`, `shell.dfy`, `base64.dfy` and
  `utf8.dfy`:
  - the default-credential rule and the translation of a refused connection;
  - the rule that picks between the error channel and standard output;
  - the exact command lines each socket sends;
  - the `search` serialisation.

  The command lines are read back through a model of `shlex.quote` and of
  POSIX shell word splitting and quote removal (IEEE Std 1003.1, Shell Command
  Language, sections 2.2 and 2.3). This shows that the code reaches the
  interpreter unchanged. For the base 64 socket, the model proves the
  encoding's alphabet, length and round trip (section 4 of RFC 4648), and the
  UTF-8 round trip (section 3 of RFC 3629).
- **Wiring** (`wiring.dfy`): the constructor of `DeepSeek` looks up the
  socket's methods by attribute name, as the code writes them. One of them,
  `run_python_shell`, does not exist (see Findings).

The modelled collaborators:

| collaborator | modelled as |
|---|---|
| chat endpoint | a sequence of canned replies (`Reply`), one consumed per request |
| tool handlers | a `Runner` function of the handler index, the arguments and the message history |
| `exec_command` | a function from the command line to the bytes of standard output and of the error channel |
| SSH connect | a function from the parameters to an outcome |
| web search | a function from the query and the result limit to the results |

Three behaviours of the code are easy to misread; the model follows the code:

- `simple_agent_v01` removes every occurrence of `SOLVED:` and strips the
  whitespace around the rest. It does not drop the text before the marker
  (`Agents.FinishKeepsPrefix`). `simple_agent_v02` returns the verifier reply
  unchanged.
- `run_bash_shell` of the remote socket always uses the default timeout of
  3 seconds, and the watchdog kills `$!`, not a process group.
- The remote socket quotes the code with `shlex.quote`, while the other
  socket sends it as a base 64 payload.

## Model

| member | source | states |
|---|---|---|
| ToolSchema.RequiredNames | DeepSeek/IO.py:76-82 | a name is required exactly when some parameter of that name has no default; no more names than parameters |
| ToolSchema.RequiredNamesAppend | DeepSeek/IO.py:76-82 | the required names of a joined parameter list are those of each part in turn, so signature order is kept |
| ToolSchema.MakeTools | DeepSeek/IO.py:57-86 | one descriptor per handler, in order: type "function", the handler's name and doc, type "object", one string property "Parameter: name" per parameter in order, and the required names |
| DeepSeekIO.Normalise | DeepSeek/IO.py:106-113 | never empty; empty output becomes the no-output warning; 1..1000 characters pass unchanged; longer output becomes its first 1000 characters followed by the trim notice, 1000 plus the notice's length in all |
| DeepSeekIO.NormaliseIdempotent | DeepSeek/IO.py:106-113 | normalising a normalised output changes nothing |
| DeepSeekIO.Resolve | DeepSeek/IO.py:93-103 | the index found is that of the first handler with the name; none is found exactly when no handler has it |
| DeepSeekIO.ToolResult | DeepSeek/IO.py:88-124 | a known name yields the tool message with the call's id and the normalised output of the first matching handler; an unknown name yields ValueError "Unknown tool call: name" |
| DeepSeekIO.DispatchAll | DeepSeek/IO.py:156-157 | answering a choice's calls only appends to the message list, at most once per call |
| DeepSeekIO.DispatchAllAppends | DeepSeek/IO.py:156-157 | every appended message is a non-empty tool message answering the call in the same position, and is exactly that call's tool result on the list as it stood before it |
| DeepSeekIO.DispatchAllSucceeds | DeepSeek/IO.py:156-157 | dispatch succeeds exactly when every name is known, and then appends exactly one message per call |
| DeepSeekIO.DispatchAllStops | DeepSeek/IO.py:121-122 | a failed dispatch raises ValueError for the first unknown call, after appending one answer for each call before it |
| DeepSeekIO.DispatchAllAnswers | DeepSeek/IO.py:156-157 | with every name known, the list is extended by one answer per call, in issue order |
| DeepSeekIO.FirstWithToolCalls | DeepSeek/IO.py:153-155 | the index of the first choice carrying tool calls: every choice before it carries none |
| DeepSeekIO.Infer | DeepSeek/IO.py:126-162 | reference definition of `infer_with_tools`: a rate limit retries, a completion adds its usage to prev_usage and is answered by Respond; every call consumes at least one reply |
| DeepSeekIO.Respond | DeepSeek/IO.py:150-162 | reference definition of the rest of the call: the first choice with tool calls is appended and dispatched, then the loop asks again; otherwise the contents are joined into the answer; the replies left never grow |
| DeepSeekIO.InferExtends | DeepSeek/IO.py:126-162 | a call only appends to the messages, consumes a non-empty prefix of the replies, and leaves the rest as a suffix |
| DeepSeekIO.RespondExtends | DeepSeek/IO.py:153-162 | answering a response only appends to the messages and leaves a suffix of the replies |
| DeepSeekIO.InferUsage | DeepSeek/IO.py:140-148 | the usage returned plus that of the unconsumed replies is prev_usage plus that of all replies |
| DeepSeekIO.RespondUsage | DeepSeek/IO.py:140-158 | the same balance for one response, its usage already added, across the tool-call recursion |
| DeepSeekIO.InferUsageConsumed | DeepSeek/IO.py:140-148 | the usage returned is prev_usage plus the tokens of exactly the completions consumed, so neither count decreases |
| DeepSeekIO.InferAnswerAppended | DeepSeek/IO.py:160-162 | a successful call ends the list with an assistant message holding the returned text, after every message it was given |
| DeepSeekIO.RespondAnswerAppended | DeepSeek/IO.py:153-162 | the same for one response, whether it answers with text or recurses after tool calls |
| DeepSeekIO.RespondAnswer | DeepSeek/IO.py:160-162 | a response without tool calls answers the "\n"-join of its choices' contents and appends exactly that one assistant message; a choice without content raises the TypeError naming its index, the list unchanged |
| DeepSeekIO.InferAnswerJoined | DeepSeek/IO.py:153-162 | the text a successful call returns is the "\n"-join of the contents of the last completion it consumed, which carries no tool calls |
| DeepSeekIO.RespondAnswerJoined | DeepSeek/IO.py:153-162 | for one response, the answer comes from its own tool-free choices or from a later completion |
| DeepSeekIO.RespondToolRound | DeepSeek/IO.py:153-158 | a response whose first tool-calling choice is dispatched continues with a new request on the extended list and the accumulated usage |
| DeepSeekIO.ToolRoundOrder | DeepSeek/IO.py:153-158 | the list continues with that choice's assistant message, then one tool answer per call, in issue order |
| DeepSeekIO.RateLimitRetries | DeepSeek/IO.py:134-138 | a rate-limited request is repeated with the same messages and prev_usage |
| DeepSeekIO.DeepSeek.constructor | DeepSeek/IO.py:53-55 | the client holds the given handlers and one descriptor describing each |
| DeepSeekIO.DeepSeek.InitModelTools | DeepSeek/IO.py:53-55 | the handlers are replaced and the descriptors rebuilt to describe them |
| DeepSeekIO.DeepSeek.HandleToolCall | DeepSeek/IO.py:88-124 | a known call appends exactly its tool result and leaves earlier messages; an unknown one raises and leaves the list unchanged |
| DeepSeekIO.DeepSeek.AnswerToolCalls | DeepSeek/IO.py:156-157 | the loop over the tool calls leaves the list and the status of DispatchAll |
| DeepSeekIO.DeepSeek.InferWithTools | DeepSeek/IO.py:126-162 | on a client whose descriptors describe its handlers, the result, the replies left and the new message list are those of Infer on the old list |
| DeepSeekIO.DeepSeek.RespondWithTools | DeepSeek/IO.py:150-162 | the loop over the choices leaves the result, the replies left and the message list of Respond on the old list |
| Strings.ContainsAt | DeepSeek/misc.py:29 | the substring test holds exactly when the marker starts at some position |
| Strings.RemoveAll | DeepSeek/misc.py:31 | replacing the marker by "" never lengthens the text, leaves text without the marker unchanged and shortens text with it by at least the marker's length |
| Strings.RemoveAllStep | DeepSeek/misc.py:31 | the first occurrence is cut out, the text before it kept, and the search resumes after it, so every occurrence is removed left to right |
| Strings.Strip | DeepSeek/misc.py:31 | the result is a slice with only whitespace cut from both sides, and neither begins nor ends with whitespace |
| Strings.JoinContents | DeepSeek/IO.py:160 | joining succeeds exactly when every choice has content; no choices give "", one gives its content |
| Strings.JoinContentsAppend | DeepSeek/IO.py:160 | the join of two non-empty lists with content is the two joins with one "\n" between them |
| Strings.MissingAt | DeepSeek/IO.py:160 | the index `str.join` names in its TypeError: the first choice without content, every one before it having content |
| Strings.Decimal | DeepSeek/remote/network.py:40 | the digits of the timeout read back as its value, without leading zeros |
| Agents.Finish | DeepSeek/misc.py:29-31 | the answer is never longer than the verifier reply; v02 returns the reply as it is; a trimmed v01 answer neither begins nor ends with whitespace |
| Agents.Rounds | DeepSeek/misc.py:16-40 | reference definition of the attempt loop from attempt `i` on; it only appends verifier replies, at most one per remaining attempt |
| Agents.Solve | DeepSeek/misc.py:8-40 | reference definition of a whole run: the seed request, then the attempt loop; at most five verifier replies are checked |
| Agents.ChatBehaves | DeepSeek/IO.py:126-162 | the completion loop the agents call only extends the messages, leaves a suffix of the replies and balances the usage |
| Agents.FinishUnchanged | DeepSeek/misc.py:79-82 | v02 answers with the verifier reply as it is |
| Agents.FinishBare | DeepSeek/misc.py:29-31 | v01 answers "42" for "SOLVED: 42" |
| Agents.FinishKeepsPrefix | DeepSeek/misc.py:29-31 | v01 keeps the text before the marker: "Done. SOLVED: 4 " gives "Done.  4" |
| Agents.RoundsConcluded | DeepSeek/misc.py:16-40 | from any attempt on, at most five verdicts are seen, none but the last has the marker, and a success finishes the marked verdict or answers the sentinel after five |
| Agents.SolveConcluded | DeepSeek/misc.py:8-40 | a run stops at the first verdict with "SOLVED:" and answers it as its policy finishes it, or answers "Unable to solve the problem" after exactly five verdicts |
| Agents.RoundsCalls | DeepSeek/misc.py:17-38 | the loop only appends calls, and a success returns the trace of its last call, which extends the starting trace |
| Agents.RoundsChained | DeepSeek/misc.py:17-38 | every call of the loop sends the trace of the one before it plus the verify prompt or the follow-up, and its trace extends what it sent |
| Agents.SolveChained | DeepSeek/misc.py:8-40 | the first request is exactly [system, question], the later ones are chained, and a success returns the last trace, which extends the seed |
| Agents.RoundsRest | DeepSeek/misc.py:17-38 | the loop leaves a suffix of the replies |
| Agents.RoundsUsage | DeepSeek/misc.py:22-38 | usage is threaded through prev_usage: the returned usage plus that of the replies left is the start usage plus that of all replies |
| Agents.SolveUsage | DeepSeek/misc.py:12-38 | the usage a run returns is exactly the tokens of the completions it consumed |
| Agents.SimpleAgentV01 | DeepSeek/misc.py:8-40 | the loop with the v01 prompts, the "give it another try" turn and the trimmed answer gives the result of Solve with that policy |
| Agents.SimpleAgentV02 | DeepSeek/misc.py:43-90 | the loop with the v02 prompts, re-sending the checked conversation without a new turn, gives the result of Solve with that policy |
| Sandbox.WithDefaults | DeepSeek/remote/network.py:21-25 | nothing supplied gives port 2222 and python/python, host kept; anything supplied leaves all four as given |
| Sandbox.WithDefaultsIdempotent | DeepSeek/remote/network.py:21-25 | applying the rule twice is applying it once |
| Sandbox.Open | DeepSeek/remote/network.py:27-32 | connected exactly when connect accepts the defaulted parameters; a refused connection becomes ValueError with the docker hint, any other error passes unchanged |
| Sandbox.OpenRefused | DeepSeek/remote/network.py:31-32 | a refused connection raises a ValueError whose message starts "Check if docker runs." |
| Sandbox.DecodeText | DeepSeek/remote/network.py:57 | decoding succeeds exactly on well-formed UTF-8 and the text encodes back to the bytes |
| Sandbox.Report | DeepSeek/remote/network.py:57-60 | a non-empty error channel gives "Error: " and its text whatever stdout holds; an empty one gives the decoded stdout; malformed error bytes raise |
| Sandbox.Entry | DeepSeek/remote/network.py:94 | one result is its title, link and snippet with four line breaks, ending in an empty line |
| Sandbox.Render | DeepSeek/remote/network.py:92-95 | the text is empty exactly when there are no results, and otherwise ends in an empty line |
| Sandbox.RenderAppend | DeepSeek/remote/network.py:93-94 | serialising joined result lists is the serialisations joined |
| Sandbox.Serialise | DeepSeek/remote/network.py:92-95 | the loop's text is title, link, body and an empty line per result, in order, "" for none |
| Sandbox.Search | DeepSeek/remote/network.py:82-95 | the text is the serialisation of the four results asked for |
| Sandbox.UnrenderRender | DeepSeek/remote/network.py:92-95 | with single-line fields, the text determines the results |
| Shell.Quote | DeepSeek/remote/network.py:72 | never empty; a string of safe characters only is left as it is |
| Shell.QuoteReadsBack | DeepSeek/remote/network.py:72 | after quote removal the quoted text is exactly the original, continuing the current word, whatever follows |
| Shell.PythonArgument | DeepSeek/remote/network.py:72 | the shell passes `python3`, `-c` and the code unchanged |
| RemoteSocket.Watchdog | DeepSeek/remote/network.py:40 | the line starts with `timeout`, the limit in decimal and `s`, and ends with the command followed by the tail that kills `$!` when the watched command fails |
| RemoteSocket.ChangeDir | DeepSeek/remote/network.py:41 | the first simple command of the line is `cd /mnt/tempfs`, and the line ends with `&&` and the command |
| RemoteSocket.PythonCommand | DeepSeek/remote/network.py:72 | the shell splits the command into `python3`, `-c` and the code, unchanged |
| RemoteSocket.Execute | DeepSeek/remote/network.py:37-44 | the line is "cd /mnt/tempfs && timeout ", the timeout in decimal, "s ", the command, then the watchdog tail that kills `$!` |
| RemoteSocket.UnwrapExecute | DeepSeek/remote/network.py:37-44 | the line determines the command and the timeout |
| RemoteSocket.ChangeDirWords | DeepSeek/remote/network.py:41-43 | the first command of the line is `cd /mnt/tempfs`, joined by `&&` to the watchdog |
| RemoteSocket.WatchdogPythonWords | DeepSeek/remote/network.py:40 | `timeout` receives the limit, the interpreter and the code as one argument, so no code can reach the `kill` |
| RemoteSocket.RunBashShell | DeepSeek/remote/network.py:46-60 | the command is sent wrapped with the default timeout of 3 seconds, and the error-or-stdout rule decides the result |
| RemoteSocket.RunPythonCode | DeepSeek/remote/network.py:62-79 | the code is run as `python3 -c` with the quoted code through the bash tool's wrapper and result rule |
| RemoteSocket.RunPythonSends | DeepSeek/remote/network.py:72-73 | the line sent unwraps to the interpreter command with timeout 3, and the interpreter receives the code unchanged |
| LocalSocket.RunBashShell | DeepSeek/network.py:33-49 | the command is sent unchanged, and the error-or-stdout rule decides the result |
| LocalSocket.RunPythonCode | DeepSeek/network.py:51-73 | the payload command is sent with the bash tool's result rule |
| LocalSocket.Encoded | DeepSeek/network.py:59 | the text has four characters per started group of three bytes of the code's UTF-8, and decodes back to those bytes |
| LocalSocket.Payload | DeepSeek/network.py:62 | the literal of the payload program is exactly the encoded text |
| LocalSocket.AlphabetSafe | DeepSeek/network.py:62 | a base 64 character is neither a quote nor a backslash nor a newline |
| LocalSocket.EncodedSafe | DeepSeek/network.py:59-62 | no character of the encoded code can end the single-quoted literal or the double-quoted shell word |
| LocalSocket.PayloadSafe | DeepSeek/network.py:62 | the payload program needs no escaping inside double quotes |
| LocalSocket.PythonCommand | DeepSeek/network.py:62 | the shell splits the command into `python3`, `-c` and the payload program, unchanged |
| LocalSocket.RunPythonDelivers | DeepSeek/network.py:59-65 | the interpreter receives the payload, whose literal is 4 characters per started 3 bytes and decodes to the code's UTF-8, which decodes to the code |
| Base64.ValueDigit | DeepSeek/network.py:59 | each sextet's character reads back as the sextet |
| Base64.Encode | DeepSeek/network.py:59 | the output has 4 * ceil(n / 3) characters for n bytes |
| Base64.Decode | DeepSeek/network.py:62 | accepted text has 4 * ceil(n / 3) characters for the n bytes it decodes to |
| Base64.EncodeAlphabet | DeepSeek/network.py:59 | the output uses only A-Z, a-z, 0-9, +, / and =, and = only in the last group |
| Base64.DecodeEncode | DeepSeek/network.py:59-62 | decoding the encoding gives back the bytes |
| Utf8.Encode | DeepSeek/network.py:59 | a string of n characters encodes to between n and 4n bytes |
| Utf8.Decode | DeepSeek/remote/network.py:57 | decoded text has at most one character per byte and at least one per four bytes |
| Utf8.DecodeEncode | DeepSeek/network.py:59 | decoding the UTF-8 encoding of a string gives back the string |
| Utf8.EncodeDecode | DeepSeek/remote/network.py:57 | decoding accepts only canonical UTF-8: what it returns encodes back to the input |
| Utf8.EncodeAscii | DeepSeek/network.py:59 | ASCII text encodes to the bytes of its code points |
| Wiring.SocketAttribute | DeepSeek/IO.py:41-42 | of the tool-method names the constructor looks up, only run_bash_shell and run_python_code are methods of the socket, each found under its own name; any other name raises AttributeError |
| Wiring.Lookup | DeepSeek/IO.py:40-44 | the list is built exactly when every name exists, and holds the methods in order |
| Wiring.WrittenToolsFail | DeepSeek/IO.py:39-45 | with the names as written, the constructor raises AttributeError for run_python_shell |
| Wiring.IntendedToolsResolve | DeepSeek/IO.py:39-45 | with the method names the socket defines, the tools are the bash and Python methods, requiring `command` and `code` |
| Wiring.SocketDefaults | DeepSeek/network.py:14-21 | `Socket()` connects on port 2222 as python/python |
| Wiring.NewDeepSeek | DeepSeek/IO.py:35-45 | a refused socket or a missing attribute raises; otherwise a valid client holds the looked-up handlers |

## Left out

- The HTTP client and rate-limit detection are not modelled. The chat endpoint is a sequence of replies, and a rate limit is one kind of reply.
- The sleep before a retry, the logging and the log file are not modelled. As long as the log file can be written, they do not affect the messages or the results.
- The cost field is left out: `round` of a float price product has no exact counterpart here. Usage is kept as integer token counts.
- `json.loads` of the tool arguments is not modelled: arguments arrive as a parsed map.
- `inspect.signature` is replaced by explicit parameter records: a name and a has-default flag.
- The API-key lookup and its error, the model table and the choice of endpoint in `DeepSeek.__init__` are not modelled. The constructor takes the handler list.
- Handler failures are not modelled, e.g. a `TypeError` for wrong arguments or a `UnicodeDecodeError` inside a handler. The `Runner` is total and returns text.
- The module-level global client of `DeepSeek/misc.py` is a parameter of the agent methods.
- `RepliesExhausted` stands for "no reply within the modelled horizon". It is an artefact of the finite reply sequence and has no counterpart in the source.
- The paramiko session, `exec_command` and the effect of `timeout` and `kill` are not modelled. Only the command lines and the result rule are.
- `Socket.__del__` (closing the connection) is left out.
- The lookup of DuckDuckGo results is not modelled, and neither is a missing `title`, `href` or `body` key, which raises `KeyError`.
- Timeouts are natural numbers, so a negative timeout is not modelled.
- Shell.ShellWords: the lexer reads only the first simple command. It covers blanks, both kinds of quotes, backslashes and control operators; an unquoted newline ends the command as `;` does. Redirections, expansions, globbing and comments, including `$!`, give `None`.
- Base64.Decode is strict and accepts only canonical padded input. Python's `b64decode` also discards characters outside the alphabet, which matters only for input that `b64encode` never produces.
- Utf8.Encode: a Dafny `char` is a scalar value, so lone surrogates, which Python's `str.encode` rejects, cannot be expressed.
- `DeepSeek/image.py`, `DeepSeek/actor/agent.py`, `DeepSeek/types.py` and `main.py` are not part of this model.
- The doc strings are copied as the interpreter of the source's era stores them, with their indentation. Newer interpreters strip that indentation, and the model does not cover that.

## Findings

| source | as written | input that shows it | evidently intended | confidence | as-written member | corrected member |
|---|---|---|---|---|---|---|
| DeepSeek/IO.py:42 | the tool list names `self.socket.run_python_shell` | constructing `DeepSeek()` with a reachable sandbox | `self.socket.run_python_code`, the method both `Socket` classes define | high, not executed | Wiring.WrittenToolsFail | Wiring.IntendedToolsResolve |
