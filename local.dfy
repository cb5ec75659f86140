/**
 * `DeepSeek/network.py`: the socket that runs commands as given and sends
 * Python code as a base 64 payload, so that no character of the code meets
 * the shell.
 */
module LocalSocket {

  import opened Messages
  import opened Shell
  import opened Sandbox
  import Utf8
  import Base64

  const PayloadHead := "import base64; exec(base64.b64decode('"
  const PayloadTail := "').decode())"

  /**
   * `base64.b64encode(code.encode()).decode()`: four characters per started
   * group of three bytes of the code's UTF-8, which `b64decode` gives back.
   */
  function Encoded(code: string): (r: string)
    ensures |r| == 4 * ((|Utf8.Encode(code)| + 2) / 3)
    ensures Base64.Decode(r) == Some(Utf8.Encode(code))
  {
    Base64.DecodeEncode(Utf8.Encode(code));
    Base64.Encode(Utf8.Encode(code))
  }

  /**
   * The Python program the interpreter receives: decode the payload and
   * execute it. Its string literal is exactly the encoded text.
   */
  function Payload(encoded: string): (r: string)
    ensures Embedded(r) == Some(encoded)
  {
    var p := PayloadHead + encoded + PayloadTail;
    assert p[..|PayloadHead|] == PayloadHead;
    assert p[|p| - |PayloadTail|..] == PayloadTail;
    assert p[|PayloadHead|..|p| - |PayloadTail|] == encoded;
    p
  }

  /**
   * `run_python_code`'s command line: the shell passes `python3`, `-c` and
   * the payload program to the interpreter unchanged.
   */
  function PythonCommand(code: string): (r: string)
    ensures ShellWords(r) == Some(["python3", "-c", Payload(Encoded(code))])
  {
    var p := Payload(Encoded(code));
    EncodedSafe(code);
    PayloadSafe(Encoded(code));
    CommandShape(p);
    PythonLiterals();
    DoubleQuotedLast(["python3", "-c"], p);
    assert ["python3", "-c"] + [p] == ["python3", "-c", p];
    "python3 -c \"" + p + "\""
  }

  /** `run_bash_shell(command)` with `exec_command` as `exec`: the command is sent unchanged. */
  function RunBashShell(exec: string -> ExecOutput, command: string): (r: Result<string>)
    ensures var o := exec(command);
      && (o.stderr != [] && DecodeText(o.stderr).Ok? ==> r == Ok(ErrorPrefix + DecodeText(o.stderr).value))
      && (o.stderr == [] ==> r == DecodeText(o.stdout))
      && (DecodeText(o.stderr).Err? ==> r == Err(UnicodeDecodeError))
  {
    Report(exec(command))
  }

  /** `run_python_code(code)` with `exec_command` as `exec`. */
  function RunPythonCode(exec: string -> ExecOutput, code: string): (r: Result<string>)
    ensures r == RunBashShell(exec, PythonCommand(code))
  {
    Report(exec(PythonCommand(code)))
  }

  /** The text of the string literal passed to `base64.b64decode` in a payload program. */
  function Embedded(program: string): Option<string>
  {
    if |program| < |PayloadHead| + |PayloadTail| || !(PayloadHead <= program)
       || program[|program| - |PayloadTail|..] != PayloadTail
    then None
    else Some(program[|PayloadHead|..|program| - |PayloadTail|])
  }

  /** A character that may stand in a Python single-quoted literal for itself. */
  predicate InSingleQuotedLiteral(c: char)
  {
    c != '\'' && c != '\\' && c != '\n'
  }

  lemma AlphabetSafe(c: char)
    requires Base64.InAlphabet(c)
    ensures IsDoubleLiteral(c) && InSingleQuotedLiteral(c)
  {
  }

  /**
   * The payload consists of base 64 digits and padding only, so it cannot
   * end the single-quoted Python literal or the double-quoted shell word.
   */
  lemma EncodedSafe(code: string)
    ensures forall k :: 0 <= k < |Encoded(code)| ==>
      IsDoubleLiteral(Encoded(code)[k]) && InSingleQuotedLiteral(Encoded(code)[k])
  {
    Base64.EncodeAlphabet(Utf8.Encode(code));
    forall k | 0 <= k < |Encoded(code)|
      ensures IsDoubleLiteral(Encoded(code)[k]) && InSingleQuotedLiteral(Encoded(code)[k])
    {
      AlphabetSafe(Encoded(code)[k]);
    }
  }

  lemma PayloadLiterals()
    ensures forall k :: 0 <= k < |PayloadHead| ==> IsDoubleLiteral(PayloadHead[k])
    ensures forall k :: 0 <= k < |PayloadTail| ==> IsDoubleLiteral(PayloadTail[k])
  {
  }

  lemma PayloadSafe(encoded: string)
    requires forall k :: 0 <= k < |encoded| ==> IsDoubleLiteral(encoded[k])
    ensures forall k :: 0 <= k < |Payload(encoded)| ==> IsDoubleLiteral(Payload(encoded)[k])
  {
    PayloadLiterals();
    var p := Payload(encoded);
    forall k | 0 <= k < |p|
      ensures IsDoubleLiteral(p[k])
    {
      if k < |PayloadHead| {
        assert p[k] == PayloadHead[k];
      } else if k < |PayloadHead| + |encoded| {
        assert p[k] == encoded[k - |PayloadHead|];
      } else {
        assert p[k] == PayloadTail[k - |PayloadHead| - |encoded|];
      }
    }
  }

  lemma CommandShape(program: string)
    ensures "python3 -c \"" + program + "\"" == Spaced(["python3", "-c"]) + ("\"" + program + "\"")
  {
    PythonLiterals();
    Spaced2("python3", "-c");
    assert "python3 -c \"" == "python3" + " " + ("-c" + " ") + "\"";
  }

  /**
   * What `run_python_code` sends makes the interpreter execute exactly the
   * given code: the shell passes the payload program unchanged, its literal
   * is the base 64 text, which is four characters per started group of three
   * bytes and decodes to the code's UTF-8 bytes, which decode to the code.
   */
  lemma RunPythonDelivers(code: string)
    ensures ShellWords(PythonCommand(code)) == Some(["python3", "-c", Payload(Encoded(code))])
    ensures Embedded(Payload(Encoded(code))) == Some(Encoded(code))
    ensures forall k :: 0 <= k < |Encoded(code)| ==> InSingleQuotedLiteral(Encoded(code)[k])
    ensures |Encoded(code)| == 4 * ((|Utf8.Encode(code)| + 2) / 3)
    ensures Base64.Decode(Encoded(code)) == Some(Utf8.Encode(code))
    ensures Utf8.Decode(Utf8.Encode(code)) == Some(code)
  {
    EncodedSafe(code);
    Utf8.DecodeEncode(code);
  }
}
