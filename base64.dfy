/**
 * The base 64 encoding of section 4 of RFC 4648 (`base64.b64encode`), with
 * `=` padding, and a strict decoder for its canonical output.
 */
module Base64 {

  import opened Messages
  import opened Utf8

  /** The character for a sextet: `A`-`Z`, `a`-`z`, `0`-`9`, `+`, `/` (RFC 4648, Table 1). */
  function Digit(v: int): (c: char)
    requires 0 <= v < 64
  {
    if v < 26 then ('A' as int + v) as char
    else if v < 52 then ('a' as int + (v - 26)) as char
    else if v < 62 then ('0' as int + (v - 52)) as char
    else if v == 62 then '+'
    else '/'
  }

  /** The sextet a character stands for, if it is in the alphabet. */
  function Value(c: char): (r: Option<int>)
    ensures r.Some? ==> 0 <= r.value < 64 && Digit(r.value) == c
  {
    var n := c as int;
    if 'A' as int <= n <= 'Z' as int then Some(n - 'A' as int)
    else if 'a' as int <= n <= 'z' as int then Some(n - 'a' as int + 26)
    else if '0' as int <= n <= '9' as int then Some(n - '0' as int + 52)
    else if c == '+' then Some(62)
    else if c == '/' then Some(63)
    else None
  }

  lemma ValueDigit(v: int)
    requires 0 <= v < 64
    ensures Value(Digit(v)) == Some(v)
  {
  }

  const Pad := '='

  /** A character base 64 output may contain. */
  predicate InAlphabet(c: char)
  {
    Value(c).Some? || c == Pad
  }

  /**
   * `base64.b64encode(b).decode()`: each group of three bytes becomes four
   * characters, so the output is four characters per started group.
   */
  function Encode(b: seq<byte>): (r: string)
    ensures |r| == 4 * ((|b| + 2) / 3)
    decreases |b|
  {
    if |b| == 0 then []
    else if |b| == 1 then [Digit(b[0] / 4), Digit((b[0] % 4) * 16), Pad, Pad]
    else if |b| == 2 then [Digit(b[0] / 4), Digit((b[0] % 4) * 16 + b[1] / 16), Digit((b[1] % 16) * 4), Pad]
    else
      assert (|b[3..]| + 3 + 2) / 3 == (|b[3..]| + 2) / 3 + 1;
      Group(b[0], b[1], b[2]) + Encode(b[3..])
  }

  /** The four characters of a full group of three bytes. */
  function Group(x: byte, y: byte, z: byte): string
  {
    [Digit(x / 4), Digit((x % 4) * 16 + y / 16), Digit((y % 16) * 4 + z / 64), Digit(z % 64)]
  }

  /**
   * Every output character is a base 64 digit or `=`, and padding occurs
   * only in the last group; so the output contains no quote, backslash,
   * dollar sign, backquote or blank.
   */
  lemma {:induction false} EncodeAlphabet(b: seq<byte>)
    ensures forall k :: 0 <= k < |Encode(b)| ==> InAlphabet(Encode(b)[k])
    ensures forall k :: 0 <= k < |Encode(b)| - 4 ==> Encode(b)[k] != Pad
    decreases |b|
  {
    if |b| > 2 {
      EncodeAlphabet(b[3..]);
      var head := Encode(b)[..4];
      assert Encode(b) == head + Encode(b[3..]);
      forall k | 0 <= k < |Encode(b)|
        ensures InAlphabet(Encode(b)[k])
        ensures k < |Encode(b)| - 4 ==> Encode(b)[k] != Pad
      {
        if k < 4 {
          assert Encode(b)[k] == head[k];
        } else {
          assert Encode(b)[k] == Encode(b[3..])[k - 4];
        }
      }
    }
  }

  /**
   * `base64.b64decode(s)` for canonical input: groups of four alphabet
   * characters, padding only at the end, and zero bits under the padding.
   * `None` for anything else.
   */
  function Decode(s: string): (r: Option<seq<byte>>)
    ensures r.Some? ==> |s| == 4 * ((|r.value| + 2) / 3)
    decreases |s|
  {
    if |s| == 0 then Some([])
    else if |s| < 4 then None
    else
      var v0, v1, v2, v3 := Value(s[0]), Value(s[1]), Value(s[2]), Value(s[3]);
      if v0.None? || v1.None? then None
      else if s[2] == Pad then
        if s[3] != Pad || |s| != 4 || v1.value % 16 != 0 then None
        else Some([v0.value * 4 + v1.value / 16])
      else if v2.None? then None
      else if s[3] == Pad then
        if |s| != 4 || v2.value % 4 != 0 then None
        else Some([v0.value * 4 + v1.value / 16, (v1.value % 16) * 16 + v2.value / 4])
      else if v3.None? then None
      else match Decode(s[4..])
        case None => None
        case Some(t) =>
          Some([v0.value * 4 + v1.value / 16, (v1.value % 16) * 16 + v2.value / 4, (v2.value % 4) * 64 + v3.value] + t)
  }

  lemma DecodeGroup(x: byte, y: byte, z: byte)
    ensures var v0, v1, v2, v3 := x / 4, (x % 4) * 16 + y / 16, (y % 16) * 4 + z / 64, z % 64;
      && v0 * 4 + v1 / 16 == x
      && (v1 % 16) * 16 + v2 / 4 == y
      && (v2 % 4) * 64 + v3 == z
  {
  }

  lemma DecodeLastOne(x: byte)
    ensures Decode(Encode([x])) == Some([x])
  {
    ValueDigit(x / 4);
    ValueDigit((x % 4) * 16);
  }

  lemma DecodeLastTwo(x: byte, y: byte)
    ensures Decode(Encode([x, y])) == Some([x, y])
  {
    var v1 := (x % 4) * 16 + y / 16;
    ValueDigit(x / 4);
    ValueDigit(v1);
    ValueDigit((y % 16) * 4);
    assert v1 / 16 == x % 4 && v1 % 16 == y / 16;
  }

  lemma DecodeFullGroup(x: byte, y: byte, z: byte, rest: string)
    ensures Decode(Group(x, y, z) + rest) ==
      match Decode(rest)
      case None => None
      case Some(t) => Some([x, y, z] + t)
  {
    var s := Group(x, y, z) + rest;
    ValueDigit(x / 4);
    ValueDigit((x % 4) * 16 + y / 16);
    ValueDigit((y % 16) * 4 + z / 64);
    ValueDigit(z % 64);
    DecodeGroup(x, y, z);
    assert s[4..] == rest;
    assert s[2] != Pad && s[3] != Pad;
  }

  /** Decoding gives back the encoded bytes, which `exec(base64.b64decode(...))` relies on. */
  lemma {:induction false} DecodeEncode(b: seq<byte>)
    ensures Decode(Encode(b)) == Some(b)
    decreases |b|
  {
    if |b| == 1 {
      assert b == [b[0]];
      DecodeLastOne(b[0]);
    } else if |b| == 2 {
      assert b == [b[0], b[1]];
      DecodeLastTwo(b[0], b[1]);
    } else if |b| > 2 {
      DecodeFullGroup(b[0], b[1], b[2], Encode(b[3..]));
      DecodeEncode(b[3..]);
      assert [b[0], b[1], b[2]] + b[3..] == b;
    }
  }
}
