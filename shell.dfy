/**
 * `shlex.quote` and the part of the POSIX shell's token recognition and
 * quote removal (IEEE Std 1003.1, Shell Command Language, sections 2.2 and
 * 2.3) needed to read a quoted argument back: blanks separate words, single
 * quotes preserve everything up to the next single quote, double quotes
 * preserve everything except `$`, `` ` `` and `\`, and a backslash outside
 * quotes preserves the next character.
 */
module Shell {

  import opened Messages

  /** Characters `shlex.quote` leaves unquoted: ASCII `\w` and `@%+=:,./-`. */
  predicate IsSafe(c: char)
  {
    ('a' <= c <= 'z') || ('A' <= c <= 'Z') || ('0' <= c <= '9')
    || c == '_' || c == '@' || c == '%' || c == '+' || c == '=' || c == ':' || c == ',' || c == '.' || c == '/' || c == '-'
  }

  /** `s.replace("'", "'\"'\"'")`: close the quote, add a double-quoted quote, reopen. */
  function EscapeSingle(s: string): (r: string)
    ensures |r| >= |s|
    decreases |s|
  {
    if s == [] then []
    else if s[0] == '\'' then "'\"'\"'" + EscapeSingle(s[1..])
    else [s[0]] + EscapeSingle(s[1..])
  }

  /** `shlex.quote(s)`. */
  function Quote(s: string): (r: string)
    ensures r != []
    ensures (s != [] && forall k :: 0 <= k < |s| ==> IsSafe(s[k])) ==> r == s
  {
    if s == [] then "''"
    else if forall k :: 0 <= k < |s| ==> IsSafe(s[k]) then s
    else "'" + EscapeSingle(s) + "'"
  }

  predicate IsBlank(c: char) { c == ' ' || c == '\t' }

  /**
   * Unquoted characters that begin a control operator (`&&`, `||`, `;`, `|`,
   * `&`) or are a newline, each of which ends a simple command.
   */
  predicate IsOperator(c: char) { c == '|' || c == '&' || c == ';' || c == '\n' }

  /**
   * Unquoted characters that introduce redirections, subshells, expansions,
   * pattern matching or comments, which this lexer does not model.
   */
  predicate IsSpecial(c: char)
  {
    c == '<' || c == '>' || c == '(' || c == ')'
    || c == '$' || c == '`' || c == '*' || c == '?' || c == '[' || c == '#' || c == '~'
  }

  /** A character that stands for itself outside quotes. */
  predicate IsPlain(c: char)
  {
    !IsBlank(c) && c != '\'' && c != '"' && c != '\\' && !IsOperator(c) && !IsSpecial(c)
  }

  /** Characters a backslash escapes inside double quotes. */
  predicate EscapableInDouble(c: char) { c == '$' || c == '`' || c == '"' || c == '\\' || c == '\n' }

  /** Between words, inside an unquoted part of a word, inside '...', inside "...". */
  datatype Mode = Blank | Word | Single | Double

  /**
   * The words of the first simple command of `s` after quote removal, up to
   * the end of `s` or the first unquoted control operator, continuing from
   * mode `m` with the word `cur` in progress and `words` already read.
   * `None` for an unterminated quote or a construct outside this fragment.
   */
  function Lex(s: string, m: Mode, cur: string, words: seq<string>): Option<seq<string>>
    decreases |s|, if m.Blank? then 1 else 0
  {
    if s == [] then
      match m
      case Blank => Some(words)
      case Word => Some(words + [cur])
      case _ => None
    else
      var c, t := s[0], s[1..];
      match m
      case Blank =>
        if IsBlank(c) then Lex(t, Blank, [], words)
        else if IsOperator(c) then Some(words)
        else Lex(s, Word, [], words)
      case Word =>
        if IsBlank(c) then Lex(t, Blank, [], words + [cur])
        else if IsOperator(c) then Some(words + [cur])
        else if c == '\'' then Lex(t, Single, cur, words)
        else if c == '"' then Lex(t, Double, cur, words)
        else if c == '\\' then
          if t == [] || t[0] == '\n' then None else Lex(t[1..], Word, cur + [t[0]], words)
        else if IsSpecial(c) then None
        else Lex(t, Word, cur + [c], words)
      case Single =>
        if c == '\'' then Lex(t, Word, cur, words) else Lex(t, Single, cur + [c], words)
      case Double =>
        if c == '"' then Lex(t, Word, cur, words)
        else if c == '\\' && t != [] && EscapableInDouble(t[0]) then
          if t[0] == '\n' then Lex(t[1..], Double, cur, words) else Lex(t[1..], Double, cur + [t[0]], words)
        else if c == '$' || c == '`' then None
        else Lex(t, Double, cur + [c], words)
  }

  /** The words the shell passes to the first command of `s`: its name and its arguments. */
  function ShellWords(s: string): Option<seq<string>>
  {
    Lex(s, Blank, [], [])
  }

  /** Plain characters are appended to the word in progress. */
  lemma {:induction false} PlainRun(w: string, rest: string, cur: string, words: seq<string>)
    requires forall k :: 0 <= k < |w| ==> IsPlain(w[k])
    ensures Lex(w + rest, Word, cur, words) == Lex(rest, Word, cur + w, words)
    decreases |w|
  {
    if w == [] {
      assert w + rest == rest && cur + w == cur;
    } else {
      assert (w + rest)[0] == w[0] && (w + rest)[1..] == w[1..] + rest;
      PlainRun(w[1..], rest, cur + [w[0]], words);
      assert cur + [w[0]] + w[1..] == cur + w;
    }
  }

  /** A plain word followed by a blank is one word. */
  lemma PlainWord(w: string, rest: string, words: seq<string>)
    requires w != [] && forall k :: 0 <= k < |w| ==> IsPlain(w[k])
    ensures Lex(w + " " + rest, Blank, [], words) == Lex(rest, Blank, [], words + [w])
  {
    var s := w + " " + rest;
    assert s == w + (" " + rest) && s[0] == w[0];
    assert Lex(s, Blank, [], words) == Lex(s, Word, [], words);
    PlainRun(w, " " + rest, [], words);
    assert [] + w == w;
    assert (" " + rest)[0] == ' ' && (" " + rest)[1..] == rest;
  }

  lemma SingleClose(rest: string, cur: string, words: seq<string>)
    ensures Lex("'" + rest, Single, cur, words) == Lex(rest, Word, cur, words)
  {
    assert ("'" + rest)[1..] == rest;
  }

  lemma SingleChar(c: char, rest: string, cur: string, words: seq<string>)
    requires c != '\''
    ensures Lex([c] + rest, Single, cur, words) == Lex(rest, Single, cur + [c], words)
  {
    assert ([c] + rest)[1..] == rest;
  }

  lemma OpenSingle(rest: string, cur: string, words: seq<string>)
    ensures Lex("'" + rest, Word, cur, words) == Lex(rest, Single, cur, words)
  {
    assert ("'" + rest)[1..] == rest;
  }

  lemma OpenDouble(rest: string, cur: string, words: seq<string>)
    ensures Lex("\"" + rest, Word, cur, words) == Lex(rest, Double, cur, words)
  {
    assert ("\"" + rest)[1..] == rest;
  }

  lemma DoubleClose(rest: string, cur: string, words: seq<string>)
    ensures Lex("\"" + rest, Double, cur, words) == Lex(rest, Word, cur, words)
  {
    assert ("\"" + rest)[1..] == rest;
  }

  lemma DoubleChar(c: char, rest: string, cur: string, words: seq<string>)
    requires IsDoubleLiteral(c)
    ensures Lex([c] + rest, Double, cur, words) == Lex(rest, Double, cur + [c], words)
  {
    assert ([c] + rest)[1..] == rest;
  }

  /** The replacement for a quote closes the quoting, reads a double-quoted quote and reopens. */
  lemma EscapedQuote(tail: string, cur: string, words: seq<string>)
    ensures Lex("'\"'\"'" + tail, Single, cur, words) == Lex(tail, Single, cur + "'", words)
  {
    assert "'\"'\"'" + tail == "'" + ("\"" + ("'" + ("\"" + ("'" + tail))));
    SingleClose("\"" + ("'" + ("\"" + ("'" + tail))), cur, words);
    OpenDouble("'" + ("\"" + ("'" + tail)), cur, words);
    assert "'" + ("\"" + ("'" + tail)) == ['\''] + ("\"" + ("'" + tail));
    DoubleChar('\'', "\"" + ("'" + tail), cur, words);
    DoubleClose("'" + tail, cur + "'", words);
    OpenSingle(tail, cur + "'", words);
  }

  /** An unquoted control operator after a blank ends the command and its last word. */
  lemma OperatorEnds(c: char, x: string, cur: string, words: seq<string>)
    requires IsOperator(c)
    ensures Lex(" " + [c] + x, Word, cur, words) == Some(words + [cur])
  {
    var s := " " + [c] + x;
    assert s[0] == ' ' && s[1..] == [c] + x && ([c] + x)[0] == c;
  }

  /** Inside single quotes, the escaped text reads back as the original, and the closing quote ends the quoting. */
  lemma {:induction false} SingleRun(code: string, rest: string, cur: string, words: seq<string>)
    ensures Lex(EscapeSingle(code) + "'" + rest, Single, cur, words) == Lex(rest, Word, cur + code, words)
    decreases |code|
  {
    if code == [] {
      assert EscapeSingle(code) + "'" + rest == "'" + rest;
      SingleClose(rest, cur, words);
      assert cur + code == cur;
    } else {
      SingleStep(code, rest, cur, words);
      SingleRun(code[1..], rest, cur + [code[0]], words);
      assert cur + [code[0]] + code[1..] == cur + code;
    }
  }

  /** The escaped form of the first character reads back as that character. */
  lemma SingleStep(code: string, rest: string, cur: string, words: seq<string>)
    requires code != []
    ensures Lex(EscapeSingle(code) + "'" + rest, Single, cur, words)
      == Lex(EscapeSingle(code[1..]) + "'" + rest, Single, cur + [code[0]], words)
  {
    var tail := EscapeSingle(code[1..]) + "'" + rest;
    EscapeSingleFront(code, rest);
    if code[0] == '\'' {
      EscapedQuote(tail, cur, words);
      assert "'" == [code[0]];
    } else {
      SingleChar(code[0], tail, cur, words);
    }
  }

  lemma EscapeSingleFront(code: string, rest: string)
    requires code != []
    ensures EscapeSingle(code) + "'" + rest ==
      (if code[0] == '\'' then "'\"'\"'" else [code[0]]) + (EscapeSingle(code[1..]) + "'" + rest)
  {
  }

  /**
   * A quoted string reads back as exactly the original text, continuing the
   * word in progress, whatever follows it: the text cannot end the quoting
   * early or reach the surrounding command.
   */
  lemma QuoteReadsBack(code: string, rest: string, cur: string, words: seq<string>)
    ensures Lex(Quote(code) + rest, Word, cur, words) == Lex(rest, Word, cur + code, words)
  {
    if code == [] {
      assert Quote(code) + rest == "'" + ("'" + rest);
      OpenSingle("'" + rest, cur, words);
      SingleClose(rest, cur, words);
      assert cur + code == cur;
    } else if forall k :: 0 <= k < |code| ==> IsSafe(code[k]) {
      PlainRun(code, rest, cur, words);
    } else {
      assert Quote(code) + rest == "'" + (EscapeSingle(code) + "'" + rest);
      OpenSingle(EscapeSingle(code) + "'" + rest, cur, words);
      SingleRun(code, rest, cur, words);
    }
  }

  /** Characters that pass through double quotes unchanged. */
  predicate IsDoubleLiteral(c: char)
  {
    c != '"' && c != '\\' && c != '$' && c != '`'
  }

  lemma {:induction false} DoubleRun(p: string, rest: string, cur: string, words: seq<string>)
    requires forall k :: 0 <= k < |p| ==> IsDoubleLiteral(p[k])
    ensures Lex(p + "\"" + rest, Double, cur, words) == Lex(rest, Word, cur + p, words)
    decreases |p|
  {
    var s := p + "\"" + rest;
    if p == [] {
      assert s == "\"" + rest && s[1..] == rest;
      assert cur + p == cur;
    } else {
      assert s[0] == p[0] && s[1..] == p[1..] + "\"" + rest;
      DoubleRun(p[1..], rest, cur + [p[0]], words);
      assert cur + [p[0]] + p[1..] == cur + p;
    }
  }

  /** A word of plain characters only. */
  predicate IsPlainWord(w: string)
  {
    w != [] && forall k :: 0 <= k < |w| ==> IsPlain(w[k])
  }

  /** The words, each followed by one blank. */
  function Spaced(ws: seq<string>): string
    decreases |ws|
  {
    if ws == [] then [] else ws[0] + " " + Spaced(ws[1..])
  }

  lemma {:induction false} SpacedWords(ws: seq<string>, rest: string, words: seq<string>)
    requires forall i :: 0 <= i < |ws| ==> IsPlainWord(ws[i])
    ensures Lex(Spaced(ws) + rest, Blank, [], words) == Lex(rest, Blank, [], words + ws)
    decreases |ws|
  {
    if ws == [] {
      assert Spaced(ws) + rest == rest && words + ws == words;
    } else {
      assert Spaced(ws) + rest == ws[0] + " " + (Spaced(ws[1..]) + rest);
      PlainWord(ws[0], Spaced(ws[1..]) + rest, words);
      SpacedWords(ws[1..], rest, words + [ws[0]]);
      assert words + [ws[0]] + ws[1..] == words + ws;
    }
  }

  /** A word starts at a character that is neither blank nor an operator. */
  lemma WordStarts(s: string, words: seq<string>)
    requires s != [] && !IsBlank(s[0]) && !IsOperator(s[0])
    ensures Lex(s, Blank, [], words) == Lex(s, Word, [], words)
  {
  }

  /** The end of the input or a control operator after a blank ends the word in progress. */
  lemma WordEnds(rest: string, cur: string, words: seq<string>)
    requires rest == [] || (|rest| >= 2 && rest[0] == ' ' && IsOperator(rest[1]))
    ensures Lex(rest, Word, cur, words) == Some(words + [cur])
  {
    if rest != [] {
      assert rest == " " + [rest[1]] + rest[2..];
      OperatorEnds(rest[1], rest[2..], cur, words);
    }
  }

  /** A quoted argument at the end of a command is its last word. */
  lemma QuotedEnds(code: string, rest: string, words: seq<string>)
    requires rest == [] || (|rest| >= 2 && rest[0] == ' ' && IsOperator(rest[1]))
    ensures Lex(Quote(code) + rest, Blank, [], words) == Some(words + [code])
  {
    var q := Quote(code);
    assert (q + rest)[0] == q[0] && !IsBlank(q[0]) && !IsOperator(q[0]);
    WordStarts(q + rest, words);
    QuoteReadsBack(code, rest, [], words);
    assert [] + code == code;
    WordEnds(rest, code, words);
  }

  /** Plain words, then a quoted argument: the argument is the last word of the command. */
  lemma QuotedLast(ws: seq<string>, code: string, rest: string)
    requires forall i :: 0 <= i < |ws| ==> IsPlainWord(ws[i])
    requires rest == [] || (|rest| >= 2 && rest[0] == ' ' && IsOperator(rest[1]))
    ensures Lex(Spaced(ws) + (Quote(code) + rest), Blank, [], []) == Some(ws + [code])
  {
    SpacedWords(ws, Quote(code) + rest, []);
    assert [] + ws == ws;
    QuotedEnds(code, rest, ws);
  }

  /** Plain words, then text in double quotes that needs no escaping: the text is the last word. */
  lemma DoubleQuotedLast(ws: seq<string>, p: string)
    requires forall i :: 0 <= i < |ws| ==> IsPlainWord(ws[i])
    requires forall k :: 0 <= k < |p| ==> IsDoubleLiteral(p[k])
    ensures Lex(Spaced(ws) + ("\"" + p + "\""), Blank, [], []) == Some(ws + [p])
  {
    var d := "\"" + p + "\"";
    SpacedWords(ws, d, []);
    assert d[0] == '"' && d[1..] == p + "\"" + [];
    OpenDouble(p + "\"" + [], [], [] + ws);
    DoubleRun(p, [], [], [] + ws);
    assert [] + p == p && [] + ws == ws && d == "\"" + (p + "\"" + []);
  }

  /** Plain words, then a plain word ended by a control operator. */
  lemma PlainLast(ws: seq<string>, w: string, rest: string)
    requires forall i :: 0 <= i < |ws| ==> IsPlainWord(ws[i])
    requires IsPlainWord(w) && |rest| >= 2 && rest[0] == ' ' && IsOperator(rest[1])
    ensures Lex(Spaced(ws) + (w + rest), Blank, [], []) == Some(ws + [w])
  {
    SpacedWords(ws, w + rest, []);
    assert (w + rest)[0] == w[0];
    PlainRun(w, rest, [], [] + ws);
    assert rest == " " + [rest[1]] + rest[2..];
    OperatorEnds(rest[1], rest[2..], [] + w, [] + ws);
    assert [] + w == w && [] + ws == ws;
  }

  lemma Spaced2(a: string, b: string)
    ensures Spaced([a, b]) == a + " " + (b + " ")
  {
    assert [a, b][1..] == [b] && [b][1..] == [];
    assert Spaced([b]) == b + " " + Spaced([]) && b + " " + [] == b + " ";
    assert Spaced([a, b]) == a + " " + Spaced([b]);
  }

  lemma PythonLiterals()
    ensures "python3 -c " == "python3" + " " + ("-c" + " ")
    ensures IsPlainWord("python3") && IsPlainWord("-c")
  {
  }

  /** `python3 -c` followed by the quoted code passes the code to the interpreter as one argument, unchanged. */
  lemma PythonArgument(code: string)
    ensures ShellWords("python3 -c " + Quote(code)) == Some(["python3", "-c", code])
  {
    PythonLiterals();
    Spaced2("python3", "-c");
    QuotedLast(["python3", "-c"], code, []);
    assert Quote(code) + [] == Quote(code);
    assert "python3 -c " + Quote(code) == Spaced(["python3", "-c"]) + (Quote(code) + []);
    assert ["python3", "-c"] + [code] == ["python3", "-c", code];
  }
}
