/**
 * `DeepSeek.__init__` (DeepSeek/IO.py): connect the socket of
 * `DeepSeek/network.py` with its default credentials, then register the
 * socket's bound methods as the tools the model may call.
 */
module Wiring {

  import opened Messages
  import opened ToolSchema
  import opened Sandbox
  import opened DeepSeekIO

  /** `Socket.run_bash_shell.__doc__` in `DeepSeek/network.py`, as the interpreter stores it. */
  const BashDoc := "\n        Run a bash command in the remote server.\n\n        @param command: Bash command to be executed in the remote server.\n        @return: stdout of the bash command execution.\n        "

  /** `Socket.run_python_code.__doc__` in `DeepSeek/network.py`. */
  const PythonDoc := "\n        Run python code in the remote server. In order to see the output you must print it!\n\n        @param code: Python code to be executed in the remote server.\n        @return: stdout of the python code execution.\n        "

  /** The bound methods' signatures: `self` is already bound, one parameter without default. */
  const BashHandler := Handler("run_bash_shell", Some(BashDoc), [Param("command", false)])
  const PythonHandler := Handler("run_python_code", Some(PythonDoc), [Param("code", false)])

  /** `getattr(socket, name)` for the tool methods of `Socket`. */
  function SocketAttribute(name: string): (r: Result<Handler>)
    ensures r.Ok? <==> name == "run_bash_shell" || name == "run_python_code"
    ensures r.Ok? ==> r.value.name == name
    ensures r.Err? ==> r.error == AttributeError("'Socket' object has no attribute '" + name + "'")
  {
    if name == BashHandler.name then Ok(BashHandler)
    else if name == PythonHandler.name then Ok(PythonHandler)
    else Err(AttributeError("'Socket' object has no attribute '" + name + "'"))
  }

  /** The list display `[self.socket.a, self.socket.b, ...]`, evaluated left to right. */
  function Lookup(names: seq<string>): (r: Result<seq<Handler>>)
    ensures r.Ok? <==> forall i :: 0 <= i < |names| ==> SocketAttribute(names[i]).Ok?
    ensures r.Ok? ==> |r.value| == |names| && forall i :: 0 <= i < |names| ==> r.value[i] == SocketAttribute(names[i]).value
    decreases |names|
  {
    if names == [] then Ok([])
    else match SocketAttribute(names[0])
      case Err(e) => Err(e)
      case Ok(h) =>
        match Lookup(names[1..])
        case Err(e) => Err(e)
        case Ok(hs) =>
          assert forall i :: 1 <= i < |names| ==> names[i] == names[1..][i - 1];
          Ok([h] + hs)
  }

  /** The attribute names as `DeepSeek/IO.py` writes them. */
  const WrittenToolNames := ["run_bash_shell", "run_python_shell"]

  /** The attribute names the socket defines. */
  const IntendedToolNames := ["run_bash_shell", "run_python_code"]

  /** As written, building the tool list raises before any tool is registered. */
  lemma WrittenToolsFail()
    ensures Lookup(WrittenToolNames) == Err(AttributeError("'Socket' object has no attribute 'run_python_shell'"))
  {
    var names := WrittenToolNames;
    assert names[1..] == ["run_python_shell"];
    assert SocketAttribute(names[0]) == Ok(BashHandler);
    assert SocketAttribute(names[1]).Err?;
    assert Lookup(names[1..]) == Err(AttributeError("'Socket' object has no attribute 'run_python_shell'"));
  }

  /**
   * With the defined method names, the tools are the two socket methods in
   * order, each requiring its one argument.
   */
  lemma IntendedToolsResolve()
    ensures Lookup(IntendedToolNames) == Ok([BashHandler, PythonHandler])
    ensures RequiredNames(BashHandler.params) == ["command"]
    ensures RequiredNames(PythonHandler.params) == ["code"]
  {
    var names := IntendedToolNames;
    assert names[1..] == ["run_python_code"] && ["run_python_code"][1..] == [];
    assert SocketAttribute(names[0]) == Ok(BashHandler);
    assert SocketAttribute(names[1]) == Ok(PythonHandler);
    var tail := Lookup(names[1..]);
    assert tail.Ok? && tail.value == [PythonHandler];
    assert Lookup(names).Ok? && Lookup(names).value == [BashHandler] + tail.value;
    assert [BashHandler] + tail.value == [BashHandler, PythonHandler];
    assert BashHandler.params[..0] == [] && PythonHandler.params[..0] == [];
  }

  /** `Socket()`: no argument is given, so the container's port and account are used. */
  lemma SocketDefaults()
    ensures WithDefaults(ConnectParams(None, None, None, None))
      == ConnectParams(None, Some(2222), Some("python"), Some("python"))
  {
  }

  /**
   * `DeepSeek()` from the socket onwards: connect with the default
   * credentials, look the tool methods up, register them.
   */
  method NewDeepSeek(names: seq<string>, connect: ConnectParams -> ConnectOutcome) returns (r: Result<DeepSeek>)
    ensures var s := Open(ConnectParams(None, None, None, None), connect);
      && (s.Err? ==> r == Err(s.error))
      && (s.Ok? && Lookup(names).Err? ==> r == Err(Lookup(names).error))
      && (r.Ok? <==> s.Ok? && Lookup(names).Ok?)
      && (r.Ok? ==> fresh(r.value) && r.value.Valid() && r.value.functions == Lookup(names).value)
  {
    var socket := Open(ConnectParams(None, None, None, None), connect);
    if socket.Err? {
      return Err(socket.error);
    }
    var functions := Lookup(names);
    if functions.Err? {
      return Err(functions.error);
    }
    var client := new DeepSeek(functions.value);
    r := Ok(client);
  }
}
