/**
 * Tool descriptors as the chat endpoint receives them, built from the
 * handlers the agent may call (DeepSeek.__make_tools). The signature of each
 * handler is given explicitly: its name, its doc string and, in order, its
 * parameters with a flag saying whether a default value is declared.
 */
module ToolSchema {

  import opened Messages

  datatype Param = Param(name: string, hasDefault: bool)

  datatype Handler = Handler(name: string, doc: Option<string>, params: seq<Param>)

  /** One entry of the JSON-schema `properties` object, in insertion order. */
  datatype Property = Property(name: string, kind: string, description: string)

  /**
   * `{"type": kind, "function": {"name", "description", "parameters":
   *  {"type": parametersKind, "properties", "required"}}}`.
   */
  datatype ToolDescriptor = ToolDescriptor(
    kind: string,
    name: string,
    description: Option<string>,
    parametersKind: string,
    properties: seq<Property>,
    required: seq<string>)

  function ParamProperty(p: Param): Property
  {
    Property(p.name, "string", "Parameter: " + p.name)
  }

  /** Names of the parameters without a default value, in signature order. */
  function RequiredNames(ps: seq<Param>): (r: seq<string>)
    ensures |r| <= |ps|
    ensures forall n :: n in r <==> exists j :: 0 <= j < |ps| && ps[j].name == n && !ps[j].hasDefault
    decreases |ps|
  {
    if ps == [] then []
    else
      var last := ps[|ps| - 1];
      var r := RequiredNames(ps[..|ps| - 1]) + (if last.hasDefault then [] else [last.name]);
      assert forall j :: 0 <= j < |ps| - 1 ==> ps[..|ps| - 1][j] == ps[j];
      r
  }

  /** Filtering commutes with concatenation, so the order of the signature is kept. */
  lemma {:induction false} RequiredNamesAppend(a: seq<Param>, b: seq<Param>)
    ensures RequiredNames(a + b) == RequiredNames(a) + RequiredNames(b)
    decreases |b|
  {
    if b == [] {
      assert a + b == a;
    } else {
      var b' := b[..|b| - 1];
      assert (a + b)[..|a + b| - 1] == a + b';
      assert (a + b)[|a + b| - 1] == b[|b| - 1];
      RequiredNamesAppend(a, b');
    }
  }

  /** `t` is the descriptor `__make_tools` builds for `h`. */
  ghost predicate Describes(h: Handler, t: ToolDescriptor)
  {
    && t.kind == "function"
    && t.name == h.name
    && t.description == h.doc
    && t.parametersKind == "object"
    && |t.properties| == |h.params|
    && (forall j :: 0 <= j < |h.params| ==> t.properties[j] == ParamProperty(h.params[j]))
    && t.required == RequiredNames(h.params)
  }

  /** One descriptor per handler, in the order of the handlers. */
  method MakeTools(functions: seq<Handler>) returns (tools: seq<ToolDescriptor>)
    ensures |tools| == |functions|
    ensures forall i :: 0 <= i < |functions| ==> Describes(functions[i], tools[i])
  {
    tools := [];
    for i := 0 to |functions|
      invariant |tools| == i
      invariant forall k :: 0 <= k < i ==> Describes(functions[k], tools[k])
    {
      var func := functions[i];
      var properties: seq<Property> := [];
      var required: seq<string> := [];
      for j := 0 to |func.params|
        invariant |properties| == j
        invariant forall k :: 0 <= k < j ==> properties[k] == ParamProperty(func.params[k])
        invariant required == RequiredNames(func.params[..j])
      {
        var param := func.params[j];
        properties := properties + [Property(param.name, "string", "Parameter: " + param.name)];
        if !param.hasDefault {
          required := required + [param.name];
        }
        assert func.params[..j + 1][..j] == func.params[..j];
      }
      assert func.params[..|func.params|] == func.params;
      tools := tools + [ToolDescriptor("function", func.name, func.doc, "object", properties, required)];
    }
  }
}
