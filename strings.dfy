/** The few operations of Python's `str` that the core relies on. */
module Strings {

  import opened Messages

  /** `p in s` for Python strings: `p` occurs somewhere in `s`. */
  predicate Contains(s: string, p: string)
    decreases |s|
  {
    p <= s || (|s| > 0 && Contains(s[1..], p))
  }

  lemma {:induction false} ContainsAt(s: string, p: string)
    ensures Contains(s, p) <==> exists i :: 0 <= i <= |s| && p <= s[i..]
    decreases |s|
  {
    if |s| > 0 {
      ContainsAt(s[1..], p);
      if exists i :: 0 <= i <= |s[1..]| && p <= s[1..][i..] {
        var i :| 0 <= i <= |s[1..]| && p <= s[1..][i..];
        assert s[1..][i..] == s[i + 1..];
      }
      if exists i :: 0 <= i <= |s| && p <= s[i..] {
        var i :| 0 <= i <= |s| && p <= s[i..];
        if i > 0 {
          assert s[i..] == s[1..][i - 1..];
        } else {
          assert s[i..] == s;
        }
      }
    } else {
      if exists i :: 0 <= i <= |s| && p <= s[i..] {
        var i :| 0 <= i <= |s| && p <= s[i..];
        assert i == 0 && s[i..] == s;
      }
    }
  }

  /**
   * `s.replace(p, "")`: every occurrence of `p`, found left to right and
   * without overlap, is removed.
   */
  function RemoveAll(s: string, p: string): (r: string)
    requires p != []
    ensures |r| <= |s|
    ensures !Contains(s, p) ==> r == s
    ensures Contains(s, p) ==> |r| <= |s| - |p|
    decreases |s|
  {
    if s == [] then s
    else if p <= s then RemoveAll(s[|p|..], p)
    else [s[0]] + RemoveAll(s[1..], p)
  }

  /** Text without the first character of `p` is kept as it is. */
  lemma {:induction false} RemovePlain(w: string, u: string, p: string)
    requires p != []
    requires forall i :: 0 <= i < |w| ==> w[i] != p[0]
    ensures RemoveAll(w + u, p) == w + RemoveAll(u, p)
    decreases |w|
  {
    var s := w + u;
    if w == [] {
      assert s == u;
    } else {
      assert s[0] == w[0] != p[0] && s[1..] == w[1..] + u;
      assert !(p <= s) && s != [];
      assert RemoveAll(s, p) == [s[0]] + RemoveAll(s[1..], p);
      RemovePlain(w[1..], u, p);
      assert [w[0]] + (w[1..] + RemoveAll(u, p)) == w + RemoveAll(u, p);
    }
  }

  /**
   * The first occurrence of `p` is cut out, and the search resumes right
   * after it: when no occurrence starts inside `w`, that is none lies in `w`
   * followed by all but the last character of `p`, the text `w` before the
   * occurrence is kept and the rest is processed on its own.
   */
  lemma {:induction false} RemoveAllStep(w: string, u: string, p: string)
    requires p != [] && !Contains(w + p[..|p| - 1], p)
    ensures RemoveAll(w + p + u, p) == w + RemoveAll(u, p)
    decreases |w|
  {
    if w == [] {
      var s := w + p + u;
      assert s == p + u && p <= s && s[|p|..] == u;
    } else {
      NoMatchAtFront(w, u, p);
      RemoveAllStep(w[1..], u, p);
      KeepFront(w, RemoveAll(u, p));
    }
  }

  lemma KeepFront(w: string, t: string)
    requires w != []
    ensures [w[0]] + (w[1..] + t) == w + t
  {
    assert [w[0]] + w[1..] == w;
  }

  /** Without a match at the front, the first character of `w` is kept. */
  lemma NoMatchAtFront(w: string, u: string, p: string)
    requires p != [] && w != [] && !Contains(w + p[..|p| - 1], p)
    ensures RemoveAll(w + p + u, p) == [w[0]] + RemoveAll(w[1..] + p + u, p)
    ensures !Contains(w[1..] + p[..|p| - 1], p)
  {
    var s := w + p + u;
    var x := w + p[..|p| - 1];
    assert x[1..] == w[1..] + p[..|p| - 1];
    assert !(p <= x) by {
      assert !Contains(x, p);
    }
    assert x[..|p|] == s[..|p|];
    assert s[0] == w[0] && s[1..] == w[1..] + p + u;
  }

  /** `str.isspace()` for one character. */
  predicate IsSpace(c: char)
  {
    var n := c as int;
    (0x09 <= n <= 0x0D) || (0x1C <= n <= 0x20) || n == 0x85 || n == 0xA0 || n == 0x1680
    || (0x2000 <= n <= 0x200A) || n == 0x2028 || n == 0x2029 || n == 0x202F || n == 0x205F || n == 0x3000
  }

  /** Number of leading whitespace characters. */
  function LeadingSpace(s: string): (n: nat)
    ensures n <= |s|
    ensures forall k :: 0 <= k < n ==> IsSpace(s[k])
    ensures n < |s| ==> !IsSpace(s[n])
    decreases |s|
  {
    if s != [] && IsSpace(s[0]) then 1 + LeadingSpace(s[1..]) else 0
  }

  /** Index where the trailing whitespace begins. */
  function TrailingStart(s: string): (n: nat)
    ensures n <= |s|
    ensures forall k :: n <= k < |s| ==> IsSpace(s[k])
    ensures n > 0 ==> !IsSpace(s[n - 1])
    decreases |s|
  {
    if s != [] && IsSpace(s[|s| - 1]) then TrailingStart(s[..|s| - 1]) else |s|
  }

  /**
   * `s.strip()`: the longest slice of `s` that neither begins nor ends with
   * whitespace, the whitespace cut off on both sides.
   */
  function Strip(s: string): (r: string)
    ensures r == [] ==> forall k :: 0 <= k < |s| ==> IsSpace(s[k])
    ensures r != [] ==> !IsSpace(r[0]) && !IsSpace(r[|r| - 1])
    ensures exists i :: 0 <= i <= |s| && r <= s[i..]
              && (forall k :: 0 <= k < i ==> IsSpace(s[k]))
              && (forall k :: i + |r| <= k < |s| ==> IsSpace(s[k]))
  {
    var i := LeadingSpace(s);
    var j := TrailingStart(s);
    if i == |s| then
      assert [] <= s[|s|..];
      []
    else
      assert s[i..j] <= s[i..];
      s[i..j]
  }

  /**
   * `"\n".join(xs)` over the contents of messages; a missing content makes
   * Python raise, which is `None` here.
   */
  function JoinContents(ms: seq<Message>): (r: Option<string>)
    ensures r.Some? <==> forall k :: 0 <= k < |ms| ==> ms[k].content.Some?
    ensures ms == [] ==> r == Some("")
    ensures |ms| == 1 && r.Some? ==> r.value == ms[0].content.value
    decreases |ms|
  {
    if ms == [] then Some("")
    else if ms[0].content.None? then None
    else if |ms| == 1 then ms[0].content
    else match JoinContents(ms[1..])
      case None => None
      case Some(t) => Some(ms[0].content.value + "\n" + t)
  }

  /**
   * Joining two non-empty lists whose messages all have content puts one
   * line break between the two joined texts.
   */
  lemma {:induction false} JoinContentsAppend(a: seq<Message>, b: seq<Message>)
    requires a != [] && b != []
    requires forall k :: 0 <= k < |a| ==> a[k].content.Some?
    requires forall k :: 0 <= k < |b| ==> b[k].content.Some?
    ensures JoinContents(a + b) == Some(JoinContents(a).value + "\n" + JoinContents(b).value)
    decreases |a|
  {
    assert (a + b)[0] == a[0] && (a + b)[1..] == a[1..] + b;
    var x, jb := a[0].content.value, JoinContents(b).value;
    if |a| == 1 {
      assert a[1..] + b == b;
    } else {
      JoinContentsAppend(a[1..], b);
      var ja := JoinContents(a[1..]).value;
      assert JoinContents(a) == Some(x + "\n" + ja);
      assert JoinContents(a + b) == Some(x + "\n" + (ja + "\n" + jb));
      assert x + "\n" + (ja + "\n" + jb) == (x + "\n" + ja) + "\n" + jb;
    }
  }

  /** Index of the first message without content, or |ms| when every message has one. */
  function MissingAt(ms: seq<Message>): (k: nat)
    ensures k <= |ms|
    ensures k < |ms| ==> ms[k].content.None?
    ensures forall j :: 0 <= j < k ==> ms[j].content.Some?
    decreases |ms|
  {
    if ms == [] || ms[0].content.None? then 0 else 1 + MissingAt(ms[1..])
  }

  predicate IsDigit(c: char) { '0' as int <= c as int <= '9' as int }

  /** Value of a string of decimal digits. */
  function DecimalValue(s: string): nat
    requires forall k :: 0 <= k < |s| ==> IsDigit(s[k])
    decreases |s|
  {
    if s == [] then 0
    else
      assert IsDigit(s[|s| - 1]);
      10 * DecimalValue(s[..|s| - 1]) + (s[|s| - 1] as int - '0' as int)
  }

  /** `str(n)` for a natural number: canonical decimal digits. */
  function Decimal(n: nat): (r: string)
    ensures r != [] && forall k :: 0 <= k < |r| ==> IsDigit(r[k])
    ensures DecimalValue(r) == n
    ensures r[0] == '0' ==> r == "0"
    decreases n
  {
    var d := [('0' as int + n % 10) as char];
    if n < 10 then d
    else
      var r := Decimal(n / 10) + d;
      assert r[..|r| - 1] == Decimal(n / 10);
      r
  }
}
