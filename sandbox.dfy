/**
 * What both `Socket` classes share: the default-credential rule of the
 * constructor, the translation of a refused connection, the rule that
 * chooses between a command's error output and its standard output, and the
 * text the `search` tool makes of the web search results.
 */
module Sandbox {

  import opened Messages
  import opened Utf8

  /** The constructor's arguments; `None` for an argument left at `None`. */
  datatype ConnectParams = ConnectParams(host: Option<string>, port: Option<int>, username: Option<string>, password: Option<string>)

  /** Python truthiness of an optional string and an optional integer. */
  predicate TruthyText(x: Option<string>) { x.Some? && x.value != [] }
  predicate TruthyNumber(x: Option<int>) { x.Some? && x.value != 0 }

  /** `host or port or username or password`. */
  predicate AnySupplied(p: ConnectParams)
  {
    TruthyText(p.host) || TruthyNumber(p.port) || TruthyText(p.username) || TruthyText(p.password)
  }

  /** The sandbox container's SSH port and account. */
  const DefaultPort := 2222
  const DefaultUsername := "python"
  const DefaultPassword := "python"

  /**
   * The parameters passed to `connect`: with nothing supplied, the sandbox
   * container's port and account; with anything supplied, the arguments as
   * given, none defaulted.
   */
  function WithDefaults(p: ConnectParams): (r: ConnectParams)
    ensures AnySupplied(p) <==> r == p
    ensures !AnySupplied(p) ==>
      r == ConnectParams(p.host, Some(DefaultPort), Some(DefaultUsername), Some(DefaultPassword))
    ensures AnySupplied(r) && r.host == p.host
  {
    if AnySupplied(p) then p
    else p.(port := Some(DefaultPort), username := Some(DefaultUsername), password := Some(DefaultPassword))
  }

  lemma WithDefaultsIdempotent(p: ConnectParams)
    ensures WithDefaults(WithDefaults(p)) == WithDefaults(p)
  {
  }

  /** What `SSHClient.connect` does with the parameters. */
  datatype ConnectOutcome =
    | Connected
    /** `NoValidConnectionsError`, with the text of the exception. */
    | NoValidConnections(detail: string)
    /** Any other exception, which propagates unchanged. */
    | Raised(error: Error)

  /** A connected socket, and the parameters it connected with. */
  datatype Session = Session(params: ConnectParams)

  const DockerHint := "Check if docker runs. Error: "

  /** `Socket(host, port, username, password)`. */
  function Open(p: ConnectParams, connect: ConnectParams -> ConnectOutcome): (r: Result<Session>)
    ensures r.Ok? <==> connect(WithDefaults(p)).Connected?
    ensures r.Ok? ==> r.value.params == WithDefaults(p)
    ensures connect(WithDefaults(p)).NoValidConnections? ==>
      r == Err(ValueError(DockerHint + connect(WithDefaults(p)).detail))
    ensures connect(WithDefaults(p)).Raised? ==> r == Err(connect(WithDefaults(p)).error)
  {
    var q := WithDefaults(p);
    match connect(q)
    case Connected => Ok(Session(q))
    case NoValidConnections(detail) => Err(ValueError(DockerHint + detail))
    case Raised(e) => Err(e)
  }

  /** A refused connection is reported as a `ValueError` that starts with the docker hint. */
  lemma OpenRefused(p: ConnectParams, connect: ConnectParams -> ConnectOutcome)
    requires connect(WithDefaults(p)).NoValidConnections?
    ensures Open(p, connect).Err? && Open(p, connect).error.ValueError?
    ensures "Check if docker runs." <= Open(p, connect).error.message
  {
    var m := Open(p, connect).error.message;
    assert m[..|"Check if docker runs."|] == "Check if docker runs.";
  }

  /** The bytes `exec_command` leaves on the command's standard output and error channels. */
  datatype ExecOutput = ExecOutput(stdout: seq<byte>, stderr: seq<byte>)

  const ErrorPrefix := "Error: "

  /** `b.decode("utf-8")`. */
  function DecodeText(b: seq<byte>): (r: Result<string>)
    ensures r.Ok? <==> Decode(b).Some?
    ensures r.Ok? ==> Encode(r.value) == b
    ensures r.Err? ==> r.error == UnicodeDecodeError
  {
    match Decode(b)
    case None => Err(UnicodeDecodeError)
    case Some(s) => EncodeDecode(b); Ok(s)
  }

  /**
   * The result rule of `run_bash_shell` and `run_python_code`: a command that
   * wrote anything to its error channel yields that text after "Error: ",
   * whatever its standard output holds; otherwise its standard output.
   */
  function Report(o: ExecOutput): (r: Result<string>)
    ensures DecodeText(o.stderr).Err? ==> r == Err(UnicodeDecodeError)
    ensures o.stderr != [] && DecodeText(o.stderr).Ok? ==> r == Ok(ErrorPrefix + DecodeText(o.stderr).value)
    ensures o.stderr == [] ==> r == DecodeText(o.stdout)
  {
    match DecodeText(o.stderr)
    case Err(e) => Err(e)
    case Ok(error) =>
      if error != [] then Ok(ErrorPrefix + error)
      else
        assert o.stderr == Encode(error);
        DecodeText(o.stdout)
  }

  /** One result of `DDGS().text`. */
  datatype SearchItem = SearchItem(title: string, href: string, body: string)

  /** How many results `search` asks for. */
  const MaxResults := 4

  /** The text of one result: title, link and snippet on their own lines, then an empty line. */
  function Entry(item: SearchItem): (r: string)
    ensures |r| == |item.title| + |item.href| + |item.body| + 4
    ensures r[|r| - 2..] == "\n\n"
  {
    item.title + "\n" + item.href + "\n" + item.body + "\n\n"
  }

  /** The entries of all results, in order. */
  function Render(items: seq<SearchItem>): (r: string)
    ensures r == [] <==> items == []
    ensures r != [] ==> |r| >= 4 && r[|r| - 2..] == "\n\n"
    decreases |items|
  {
    if items == [] then "" else Entry(items[0]) + Render(items[1..])
  }

  lemma {:induction false} RenderAppend(a: seq<SearchItem>, b: seq<SearchItem>)
    ensures Render(a + b) == Render(a) + Render(b)
    decreases |a|
  {
    if a == [] {
      assert a + b == b;
    } else {
      assert (a + b)[0] == a[0] && (a + b)[1..] == a[1..] + b;
      RenderAppend(a[1..], b);
    }
  }

  /** The serialising loop of `search`. */
  method Serialise(items: seq<SearchItem>) returns (text: string)
    ensures text == Render(items)
  {
    text := "";
    for i := 0 to |items|
      invariant text + Render(items[i..]) == Render(items)
    {
      assert items[i..][0] == items[i] && items[i..][1..] == items[i + 1..];
      text := text + Entry(items[i]);
    }
    assert items[|items|..] == [];
  }

  /** `search(query)`, with `DDGS().text` as `ddgs` (query, maximum number of results). */
  method Search(query: string, ddgs: (string, nat) -> seq<SearchItem>) returns (text: string)
    ensures text == Render(ddgs(query, MaxResults))
  {
    var results := ddgs(query, MaxResults);
    text := Serialise(results);
  }

  /** The text before the first newline of `s` and the text after it. */
  function Line(s: string): (r: Option<(string, string)>)
    ensures r.Some? ==> s == r.value.0 + "\n" + r.value.1
    ensures r.Some? ==> forall k :: 0 <= k < |r.value.0| ==> r.value.0[k] != '\n'
    ensures r.None? ==> forall k :: 0 <= k < |s| ==> s[k] != '\n'
    decreases |s|
  {
    if s == [] then None
    else if s[0] == '\n' then Some(([], s[1..]))
    else match Line(s[1..])
      case None => None
      case Some((l, rest)) => Some(([s[0]] + l, rest))
  }

  predicate OneLine(s: string) { forall k :: 0 <= k < |s| ==> s[k] != '\n' }

  /** One entry read back from the front of `s`, and the text after it. */
  function ReadEntry(s: string): (r: Option<(SearchItem, string)>)
    ensures r.Some? ==> |r.value.1| < |s|
  {
    match Line(s)
    case None => None
    case Some((title, s1)) =>
      match Line(s1)
      case None => None
      case Some((href, s2)) =>
        match Line(s2)
        case None => None
        case Some((body, s3)) =>
          if s3 == [] || s3[0] != '\n' then None else Some((SearchItem(title, href, body), s3[1..]))
  }

  /** The results read back from `search`'s text, when every field is a single line. */
  function Unrender(s: string): Option<seq<SearchItem>>
    decreases |s|
  {
    if s == [] then Some([])
    else match ReadEntry(s)
      case None => None
      case Some((item, rest)) =>
        match Unrender(rest)
        case None => None
        case Some(items) => Some([item] + items)
  }

  lemma {:induction false} LineOf(w: string, rest: string)
    requires OneLine(w)
    ensures Line(w + "\n" + rest) == Some((w, rest))
    decreases |w|
  {
    var s := w + "\n" + rest;
    if w == [] {
      assert s == "\n" + rest && s[1..] == rest;
    } else {
      assert s[0] == w[0] && s[1..] == w[1..] + "\n" + rest;
      LineOf(w[1..], rest);
      assert [w[0]] + w[1..] == w;
    }
  }

  lemma EntryReadsBack(item: SearchItem, rest: string)
    requires OneLine(item.title) && OneLine(item.href) && OneLine(item.body)
    ensures ReadEntry(Entry(item) + rest) == Some((item, rest))
  {
    var s3 := "\n" + rest;
    var s2 := item.body + "\n" + s3;
    var s1 := item.href + "\n" + s2;
    assert Entry(item) + rest == item.title + "\n" + s1;
    LineOf(item.title, s1);
    LineOf(item.href, s2);
    LineOf(item.body, s3);
    assert s3[0] == '\n' && s3[1..] == rest;
  }

  /**
   * The text of `search` determines the results when no title, link or
   * snippet spans several lines.
   */
  lemma {:induction false} UnrenderRender(items: seq<SearchItem>)
    requires forall k :: 0 <= k < |items| ==> OneLine(items[k].title) && OneLine(items[k].href) && OneLine(items[k].body)
    ensures Unrender(Render(items)) == Some(items)
    decreases |items|
  {
    if items != [] {
      UnrenderRender(items[1..]);
      EntryReadsBack(items[0], Render(items[1..]));
      assert Render(items) != [];
      assert [items[0]] + items[1..] == items;
    }
  }
}
