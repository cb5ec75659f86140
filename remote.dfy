/**
 * `DeepSeek/remote/network.py`: the socket that runs every command inside
 * the sandbox's scratch directory under a `timeout` watchdog.
 */
module RemoteSocket {

  import opened Messages
  import opened Strings
  import opened Shell
  import opened Sandbox

  /** `Socket.TEMPFS_DIR`. */
  const TempfsDir := "/mnt/tempfs"

  /** The default `timeout` of `__execute`, in seconds. */
  const DefaultTimeout: nat := 3

  const WatchdogTail := " || kill -9 $!"

  /**
   * The `watchdog` lambda: run the command for at most `timeout` seconds,
   * the limit in decimal seconds in front and the kill after it.
   */
  function Watchdog(command: string, timeout: nat): (r: string)
    ensures "timeout " + Decimal(timeout) + "s " <= r
    ensures |command + WatchdogTail| <= |r| && r[|r| - |command + WatchdogTail|..] == command + WatchdogTail
  {
    "timeout " + Decimal(timeout) + "s " + command + WatchdogTail
  }

  /**
   * The `change_dir` lambda: run the command in the scratch directory. The
   * first simple command of the line is `cd /mnt/tempfs`, and the given
   * command follows the `&&`.
   */
  function ChangeDir(command: string): (r: string)
    ensures ShellWords(r) == Some(["cd", TempfsDir])
    ensures |" && " + command| <= |r| && r[|r| - |" && " + command|..] == " && " + command
  {
    ChangeDirShape(command);
    PlainLast(["cd"], TempfsDir, " && " + command);
    assert ["cd"] + [TempfsDir] == ["cd", TempfsDir];
    "cd " + TempfsDir + " && " + command
  }

  const ExecuteHead := "cd /mnt/tempfs && timeout "

  lemma ExecuteHeadParts()
    ensures "cd " + TempfsDir + " && " + "timeout " == ExecuteHead
  {
  }

  /** The command line `__execute(command, timeout)` hands to `exec_command`. */
  function Execute(command: string, timeout: nat): (r: string)
    ensures r == ExecuteHead + (Decimal(timeout) + ("s " + (command + WatchdogTail)))
  {
    var d := Decimal(timeout);
    ExecuteHeadParts();
    assert ChangeDir(Watchdog(command, timeout))
      == ("cd " + TempfsDir + " && " + "timeout ") + (d + ("s " + (command + WatchdogTail)));
    ChangeDir(Watchdog(command, timeout))
  }

  /** Number of decimal digits at the front of `s`. */
  function DigitRun(s: string): (n: nat)
    ensures n <= |s| && forall k :: 0 <= k < n ==> IsDigit(s[k])
    ensures n < |s| ==> !IsDigit(s[n])
    decreases |s|
  {
    if s != [] && IsDigit(s[0]) then 1 + DigitRun(s[1..]) else 0
  }

  lemma {:induction false} DigitRunOf(d: string, x: string)
    requires forall k :: 0 <= k < |d| ==> IsDigit(d[k])
    requires x != [] && !IsDigit(x[0])
    ensures DigitRun(d + x) == |d|
    decreases |d|
  {
    if d != [] {
      assert (d + x)[0] == d[0] && (d + x)[1..] == d[1..] + x;
      DigitRunOf(d[1..], x);
    } else {
      assert d + x == x;
    }
  }

  /** The command and the timeout a command line built by `__execute` was made from. */
  function Unwrap(s: string): Option<(string, nat)>
  {
    if !(ExecuteHead <= s) then None
    else
      var u := s[|ExecuteHead|..];
      var n := DigitRun(u);
      if n == 0 || !("s " <= u[n..]) then None
      else
        var v := u[n + 2..];
        if |v| < |WatchdogTail| || v[|v| - |WatchdogTail|..] != WatchdogTail then None
        else Some((v[..|v| - |WatchdogTail|], DecimalValue(u[..n])))
  }

  lemma SplitTail(command: string)
    ensures var v := command + WatchdogTail;
      v[|v| - |WatchdogTail|..] == WatchdogTail && v[..|v| - |WatchdogTail|] == command
  {
  }

  lemma SplitLimit(d: string, v: string)
    requires forall k :: 0 <= k < |d| ==> IsDigit(d[k])
    ensures var u := d + ("s " + v);
      DigitRun(u) == |d| && u[..|d|] == d && "s " <= u[|d|..] && u[|d| + 2..] == v
  {
    var u := d + ("s " + v);
    DigitRunOf(d, "s " + v);
    assert u[|d|..] == "s " + v;
  }

  /** The wrapped command line determines the command and the timeout. */
  lemma UnwrapExecute(command: string, timeout: nat)
    ensures Unwrap(Execute(command, timeout)) == Some((command, timeout))
  {
    var d := Decimal(timeout);
    var v := command + WatchdogTail;
    var u := d + ("s " + v);
    var s := Execute(command, timeout);
    assert s[|ExecuteHead|..] == u;
    SplitLimit(d, v);
    SplitTail(command);
  }

  /**
   * `run_python_code`'s command: the interpreter with the shell-quoted code,
   * which the shell hands to `python3 -c` unchanged.
   */
  function PythonCommand(code: string): (r: string)
    ensures ShellWords(r) == Some(["python3", "-c", code])
  {
    PythonArgument(code);
    "python3 -c " + Quote(code)
  }

  /** `run_bash_shell(command)` with `exec_command` as `exec`. */
  function RunBashShell(exec: string -> ExecOutput, command: string): (r: Result<string>)
    ensures var o := exec(Execute(command, DefaultTimeout));
      && (o.stderr != [] && DecodeText(o.stderr).Ok? ==> r == Ok(ErrorPrefix + DecodeText(o.stderr).value))
      && (o.stderr == [] ==> r == DecodeText(o.stdout))
      && (DecodeText(o.stderr).Err? ==> r == Err(UnicodeDecodeError))
  {
    Report(exec(Execute(command, DefaultTimeout)))
  }

  /** `run_python_code(code)` with `exec_command` as `exec`. */
  function RunPythonCode(exec: string -> ExecOutput, code: string): (r: Result<string>)
    ensures r == RunBashShell(exec, PythonCommand(code))
  {
    Report(exec(Execute(PythonCommand(code), DefaultTimeout)))
  }

  lemma ChangeDirShape(line: string)
    ensures "cd " + TempfsDir + " && " + line == Spaced(["cd"]) + (TempfsDir + (" && " + line))
    ensures IsPlainWord("cd") && IsPlainWord(TempfsDir)
  {
    assert ["cd"][1..] == [];
    assert Spaced(["cd"]) == "cd" + " " + [] == "cd ";
    assert "cd " + TempfsDir + " && " + line == "cd " + (TempfsDir + (" && " + line));
  }

  /**
   * The first command of the line the shell runs is `cd /mnt/tempfs`, and
   * `&&` joins the watchdog to it.
   */
  lemma ChangeDirWords(command: string, timeout: nat)
    ensures ShellWords(Execute(command, timeout)) == Some(["cd", TempfsDir])
    ensures Execute(command, timeout) == ChangeDir(Watchdog(command, timeout))
  {
  }

  lemma DecimalPlain(t: nat)
    ensures IsPlainWord(Decimal(t) + "s")
  {
    var w := Decimal(t) + "s";
    forall k | 0 <= k < |w|
      ensures IsPlain(w[k])
    {
      if k < |Decimal(t)| {
        assert w[k] == Decimal(t)[k] && IsDigit(w[k]);
      }
    }
  }

  lemma WatchdogLiterals()
    ensures "timeout " == "timeout" + " " && "s " == "s" + " "
    ensures "python3 -c " == "python3" + " " + ("-c" + " ")
    ensures IsPlainWord("timeout") && IsPlainWord("python3") && IsPlainWord("-c")
    ensures WatchdogTail[0] == ' ' && IsOperator(WatchdogTail[1])
  {
  }

  lemma Spaced4(a: string, b: string, c: string, d: string)
    ensures Spaced([a, b, c, d]) == a + " " + (b + " " + (c + " " + (d + " ")))
  {
    assert [a, b, c, d][1..] == [b, c, d] && [b, c, d][1..] == [c, d];
    assert [c, d][1..] == [d] && [d][1..] == [];
    assert Spaced([d]) == d + " " + Spaced([]) && d + " " + [] == d + " ";
    assert Spaced([c, d]) == c + " " + Spaced([d]);
    assert Spaced([b, c, d]) == b + " " + Spaced([c, d]);
    assert Spaced([a, b, c, d]) == a + " " + Spaced([b, c, d]);
  }

  lemma Reassociate(t: string, sp: string, d: string, s: string, p: string, c: string, q: string, tail: string)
    ensures (t + sp) + d + (s + sp) + ((p + sp + (c + sp)) + q) + tail
      == t + sp + ((d + s) + sp + (p + sp + (c + sp))) + (q + tail)
  {
  }

  lemma WatchdogShape(code: string, timeout: nat)
    ensures Watchdog(PythonCommand(code), timeout)
      == Spaced(["timeout", Decimal(timeout) + "s", "python3", "-c"]) + (Quote(code) + WatchdogTail)
  {
    WatchdogLiterals();
    Reassociate("timeout", " ", Decimal(timeout), "s", "python3", "-c", Quote(code), WatchdogTail);
    Spaced4("timeout", Decimal(timeout) + "s", "python3", "-c");
  }

  /**
   * Under the watchdog, `timeout` receives the limit and the interpreter with
   * the code as one argument, unchanged, whatever the code contains: the code
   * cannot end its quoting and reach `|| kill -9 $!`.
   */
  lemma WatchdogPythonWords(code: string, timeout: nat)
    ensures ShellWords(Watchdog(PythonCommand(code), timeout))
      == Some(["timeout", Decimal(timeout) + "s", "python3", "-c", code])
  {
    var ws := ["timeout", Decimal(timeout) + "s", "python3", "-c"];
    WatchdogShape(code, timeout);
    WatchdogLiterals();
    DecimalPlain(timeout);
    QuotedLast(ws, code, WatchdogTail);
    assert ws + [code] == ["timeout", Decimal(timeout) + "s", "python3", "-c", code];
  }

  /**
   * `run_python_code` sends the wrapped interpreter command with the default
   * timeout, and the interpreter receives the code unchanged.
   */
  lemma RunPythonSends(code: string, exec: string -> ExecOutput)
    ensures RunPythonCode(exec, code) == Report(exec(Execute(PythonCommand(code), DefaultTimeout)))
    ensures Unwrap(Execute(PythonCommand(code), DefaultTimeout)) == Some((PythonCommand(code), 3))
    ensures ShellWords(PythonCommand(code)) == Some(["python3", "-c", code])
    ensures ShellWords(Watchdog(PythonCommand(code), DefaultTimeout)) == Some(["timeout", "3s", "python3", "-c", code])
  {
    UnwrapExecute(PythonCommand(code), DefaultTimeout);
    PythonArgument(code);
    WatchdogPythonWords(code, DefaultTimeout);
    assert Decimal(3) + "s" == "3s";
  }
}
