/**
 * Bytes and the UTF-8 transformation of section 3 of RFC 3629, as used by
 * `str.encode()` and `bytes.decode("utf-8")`. A `char` is a Unicode scalar
 * value, so every string can be encoded; decoding is strict and rejects
 * overlong forms, surrogates and values above U+10FFFF.
 */
module Utf8 {

  import opened Messages

  type byte = x: int | 0 <= x < 256

  /** The encoding of one scalar value: one to four bytes. */
  function EncodeChar(c: char): (r: seq<byte>)
    ensures 1 <= |r| <= 4
  {
    var n := c as int;
    if n < 0x80 then [n]
    else if n < 0x800 then [0xC0 + n / 0x40, 0x80 + n % 0x40]
    else if n < 0x1_0000 then [0xE0 + n / 0x1000, 0x80 + (n / 0x40) % 0x40, 0x80 + n % 0x40]
    else [0xF0 + n / 0x4_0000, 0x80 + (n / 0x1000) % 0x40, 0x80 + (n / 0x40) % 0x40, 0x80 + n % 0x40]
  }

  /** `s.encode()`. */
  function Encode(s: string): (r: seq<byte>)
    ensures |s| <= |r| <= 4 * |s|
    decreases |s|
  {
    if s == [] then [] else EncodeChar(s[0]) + Encode(s[1..])
  }

  predicate IsContinuation(b: byte) { 0x80 <= b < 0xC0 }

  predicate IsScalar(n: int) { 0 <= n < 0xD800 || 0xE000 <= n < 0x11_0000 }

  /** The six payload bits of a continuation byte. */
  function Low6(b: byte): int { b as int - 0x80 }

  /**
   * The scalar value at the front of `b` and the number of bytes it takes,
   * or `None` when `b` does not start with a well-formed sequence.
   */
  function DecodeChar(b: seq<byte>): (r: Option<(char, nat)>)
    ensures r.Some? ==> 1 <= r.value.1 <= |b| && r.value.1 <= 4
  {
    if b == [] then None
    else
      var lead := b[0] as int;
      if lead < 0x80 then Some((lead as char, 1))
      else if 0xC2 <= lead < 0xE0 then
        if |b| < 2 || !IsContinuation(b[1]) then None
        else Some((((lead - 0xC0) * 0x40 + Low6(b[1])) as char, 2))
      else if 0xE0 <= lead < 0xF0 then
        if |b| < 3 || !IsContinuation(b[1]) || !IsContinuation(b[2]) then None
        else
          var n := (lead - 0xE0) * 0x1000 + Low6(b[1]) * 0x40 + Low6(b[2]);
          if n < 0x800 || !IsScalar(n) then None else Some((n as char, 3))
      else if 0xF0 <= lead < 0xF5 then
        if |b| < 4 || !IsContinuation(b[1]) || !IsContinuation(b[2]) || !IsContinuation(b[3]) then None
        else
          var n := (lead - 0xF0) * 0x4_0000 + Low6(b[1]) * 0x1000 + Low6(b[2]) * 0x40 + Low6(b[3]);
          if n < 0x1_0000 || !IsScalar(n) then None else Some((n as char, 4))
      else None
  }

  /** `b.decode("utf-8")`; `None` where Python raises `UnicodeDecodeError`. */
  function Decode(b: seq<byte>): (r: Option<string>)
    ensures r.Some? ==> |r.value| <= |b| <= 4 * |r.value|
    decreases |b|
  {
    if b == [] then Some([])
    else match DecodeChar(b)
      case None => None
      case Some((c, k)) =>
        match Decode(b[k..])
        case None => None
        case Some(s) => Some([c] + s)
  }

  lemma DecodeTwo(c: char, rest: seq<byte>)
    requires 0x80 <= c as int < 0x800
    ensures DecodeChar(EncodeChar(c) + rest) == Some((c, 2))
  {
    var n := c as int;
    var b := EncodeChar(c) + rest;
    assert b[0] as int == 0xC0 + n / 0x40 && Low6(b[1]) == n % 0x40;
  }

  lemma DecodeThree(c: char, rest: seq<byte>)
    requires 0x800 <= c as int < 0x1_0000
    ensures DecodeChar(EncodeChar(c) + rest) == Some((c, 3))
  {
    var n := c as int;
    var b := EncodeChar(c) + rest;
    assert b[0] as int == 0xE0 + n / 0x1000 && Low6(b[1]) == (n / 0x40) % 0x40 && Low6(b[2]) == n % 0x40;
    Split3(n);
  }

  lemma DecodeFour(c: char, rest: seq<byte>)
    requires 0x1_0000 <= c as int
    ensures DecodeChar(EncodeChar(c) + rest) == Some((c, 4))
  {
    var n := c as int;
    var b := EncodeChar(c) + rest;
    assert b[0] as int == 0xF0 + n / 0x4_0000 && Low6(b[1]) == (n / 0x1000) % 0x40;
    assert Low6(b[2]) == (n / 0x40) % 0x40 && Low6(b[3]) == n % 0x40;
    Split4(n);
  }

  /** A number is the sum of its base-64 digits, the leading one taking the rest. */
  lemma Split3(n: int)
    requires 0 <= n
    ensures (n / 0x1000) * 0x1000 + ((n / 0x40) % 0x40) * 0x40 + n % 0x40 == n
  {
    var q, z := n / 0x40, n % 0x40;
    var h, y := q / 0x40, q % 0x40;
    assert n == h * 0x1000 + y * 0x40 + z;
    Digits3(h, y, z);
  }

  lemma Split4(n: int)
    requires 0 <= n
    ensures (n / 0x4_0000) * 0x4_0000 + ((n / 0x1000) % 0x40) * 0x1000 + ((n / 0x40) % 0x40) * 0x40 + n % 0x40 == n
  {
    var q1, z := n / 0x40, n % 0x40;
    var q2, y := q1 / 0x40, q1 % 0x40;
    var h, x := q2 / 0x40, q2 % 0x40;
    assert n == h * 0x4_0000 + x * 0x1000 + y * 0x40 + z;
    Digits4(h, x, y, z);
  }

  lemma DecodeEncodeChar(c: char, rest: seq<byte>)
    ensures DecodeChar(EncodeChar(c) + rest) == Some((c, |EncodeChar(c)|))
  {
    var n := c as int;
    if n < 0x80 {
    } else if n < 0x800 {
      DecodeTwo(c, rest);
    } else if n < 0x1_0000 {
      DecodeThree(c, rest);
    } else {
      DecodeFour(c, rest);
    }
  }

  /** Decoding gives back every encoded string. */
  lemma {:induction false} DecodeEncode(s: string)
    ensures Decode(Encode(s)) == Some(s)
    decreases |s|
  {
    if s != [] {
      var e := EncodeChar(s[0]);
      DecodeEncodeChar(s[0], Encode(s[1..]));
      assert (e + Encode(s[1..]))[|e|..] == Encode(s[1..]);
      DecodeEncode(s[1..]);
      assert [s[0]] + s[1..] == s;
    }
  }

  /** Base-64 digits of a number below 64 * 64. */
  lemma Digits2(h: int, x: int)
    requires 0 <= h && 0 <= x < 0x40
    ensures (h * 0x40 + x) / 0x40 == h && (h * 0x40 + x) % 0x40 == x
  {
  }

  lemma Digits3(h: int, x: int, y: int)
    requires 0 <= h && 0 <= x < 0x40 && 0 <= y < 0x40
    ensures var n := h * 0x1000 + x * 0x40 + y;
      n / 0x1000 == h && (n / 0x40) % 0x40 == x && n % 0x40 == y
  {
    var n := h * 0x1000 + x * 0x40 + y;
    Digits2(h * 0x40 + x, y);
    assert n == (h * 0x40 + x) * 0x40 + y;
    Digits2(h, x);
  }

  lemma Digits4(h: int, x: int, y: int, z: int)
    requires 0 <= h && 0 <= x < 0x40 && 0 <= y < 0x40 && 0 <= z < 0x40
    ensures var n := h * 0x4_0000 + x * 0x1000 + y * 0x40 + z;
      n / 0x4_0000 == h && (n / 0x1000) % 0x40 == x && (n / 0x40) % 0x40 == y && n % 0x40 == z
  {
    var n := h * 0x4_0000 + x * 0x1000 + y * 0x40 + z;
    assert n == (h * 0x40 + x) * 0x1000 + y * 0x40 + z;
    Digits3(h * 0x40 + x, y, z);
    Digits2(h, x);
    assert n / 0x1000 == h * 0x40 + x;
    assert n / 0x4_0000 == (n / 0x1000) / 0x40;
  }

  lemma EncodeBack2(b: seq<byte>, n: int)
    requires |b| >= 2 && 0xC2 <= b[0] < 0xE0 && IsContinuation(b[1])
    requires n == (b[0] - 0xC0) * 0x40 + Low6(b[1])
    ensures 0x80 <= n < 0x800 && EncodeChar(n as char) == b[..2]
  {
    Digits2(b[0] - 0xC0, Low6(b[1]));
  }

  lemma EncodeBack3(b: seq<byte>, n: int)
    requires |b| >= 3 && 0xE0 <= b[0] < 0xF0 && IsContinuation(b[1]) && IsContinuation(b[2])
    requires n == (b[0] - 0xE0) * 0x1000 + Low6(b[1]) * 0x40 + Low6(b[2]) && 0x800 <= n && IsScalar(n)
    ensures EncodeChar(n as char) == b[..3]
  {
    Digits3(b[0] - 0xE0, Low6(b[1]), Low6(b[2]));
  }

  lemma EncodeBack4(b: seq<byte>, n: int)
    requires |b| >= 4 && 0xF0 <= b[0] < 0xF5 && IsContinuation(b[1]) && IsContinuation(b[2]) && IsContinuation(b[3])
    requires n == (b[0] - 0xF0) * 0x4_0000 + Low6(b[1]) * 0x1000 + Low6(b[2]) * 0x40 + Low6(b[3])
    requires 0x1_0000 <= n && IsScalar(n)
    ensures EncodeChar(n as char) == b[..4]
  {
    Digits4(b[0] - 0xF0, Low6(b[1]), Low6(b[2]), Low6(b[3]));
  }

  lemma EncodeDecodeChar(b: seq<byte>)
    requires DecodeChar(b).Some?
    ensures EncodeChar(DecodeChar(b).value.0) == b[..DecodeChar(b).value.1]
  {
    var lead := b[0] as int;
    if lead < 0x80 {
    } else if lead < 0xE0 {
      EncodeBack2(b, (lead - 0xC0) * 0x40 + Low6(b[1]));
    } else if lead < 0xF0 {
      EncodeBack3(b, (lead - 0xE0) * 0x1000 + Low6(b[1]) * 0x40 + Low6(b[2]));
    } else {
      EncodeBack4(b, (lead - 0xF0) * 0x4_0000 + Low6(b[1]) * 0x1000 + Low6(b[2]) * 0x40 + Low6(b[3]));
    }
  }

  lemma EncodeCons(c: char, s: string)
    ensures Encode([c] + s) == EncodeChar(c) + Encode(s)
  {
    assert ([c] + s)[1..] == s;
  }

  lemma JoinBack(b: seq<byte>, c: char, k: nat, s: string)
    requires 1 <= k <= |b| && EncodeChar(c) == b[..k] && Encode(s) == b[k..]
    ensures Encode([c] + s) == b
  {
    EncodeCons(c, s);
    assert b[..k] + b[k..] == b;
  }

  lemma DecodeFront(b: seq<byte>)
    requires b != [] && Decode(b).Some?
    ensures DecodeChar(b).Some?
    ensures var (c, k) := DecodeChar(b).value;
      Decode(b[k..]).Some? && Decode(b).value == [c] + Decode(b[k..]).value && EncodeChar(c) == b[..k]
  {
    EncodeDecodeChar(b);
  }

  /** The decoder accepts only canonical encodings: what it returns encodes back to its input. */
  lemma {:induction false} EncodeDecode(b: seq<byte>)
    requires Decode(b).Some?
    ensures Encode(Decode(b).value) == b
    decreases |b|
  {
    if b != [] {
      DecodeFront(b);
      var (c, k) := DecodeChar(b).value;
      EncodeDecode(b[k..]);
      JoinBack(b, c, k, Decode(b[k..]).value);
    }
  }

  /** ASCII text encodes to the byte string of its code points. */
  lemma {:induction false} EncodeAscii(s: string)
    requires forall k :: 0 <= k < |s| ==> s[k] as int < 0x80
    ensures |Encode(s)| == |s| && forall k :: 0 <= k < |s| ==> Encode(s)[k] == s[k] as int
    decreases |s|
  {
    if s != [] {
      EncodeAscii(s[1..]);
      assert forall k :: 1 <= k < |s| ==> s[k] == s[1..][k - 1];
    }
  }
}
