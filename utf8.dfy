/**
 * UTF-8 as Python's `str.encode()` produces it and `bytes.decode('utf-8')`
 * accepts it: each scalar value becomes one to four bytes, and the decoder
 * takes exactly the well-formed sequences of Table 3-7 of the Unicode
 * Standard (no overlong forms, no surrogates, nothing above U+10FFFF); any
 * other input is the `UnicodeDecodeError` that the model writes as `None`.
 */
module Utf8 {
  import opened Wrappers
  import opened Text

  /** The encoding of one character. */
  function EncodeChar(c: char): (b: Bytes)
    ensures 1 <= |b| <= 4
    ensures |b| == 1 <==> c as int < 0x80
  {
    var n := c as int;
    if n < 0x80 then [n]
    else if n < 0x800 then [0xC0 + n / 64, 0x80 + n % 64]
    else if n < 0x10000 then [0xE0 + n / 4096, 0x80 + n / 64 % 64, 0x80 + n % 64]
    else [0xF0 + n / 262144, 0x80 + n / 4096 % 64, 0x80 + n / 64 % 64, 0x80 + n % 64]
  }

  /** `s.encode('utf-8')`. */
  function Encode(s: string): (b: Bytes)
    decreases |s|
  {
    if s == [] then [] else EncodeChar(s[0]) + Encode(s[1..])
  }

  predicate InRange(x: Byte, lo: int, hi: int) {
    lo <= x <= hi
  }

  /** The first character of `b` and the number of bytes it takes, or `None` if `b` does not start well-formed. */
  function DecodeChar(b: Bytes): (r: Option<(char, nat)>)
    requires |b| > 0
    ensures r.Some? ==> 1 <= r.value.1 <= |b| && r.value.1 <= 4
  {
    var x0: int := b[0];
    if x0 < 0x80 then Some((x0 as char, 1))
    else if 0xC2 <= x0 <= 0xDF then
      if |b| >= 2 && InRange(b[1], 0x80, 0xBF) then
        var x1: int := b[1];
        Some((((x0 - 0xC0) * 64 + (x1 - 0x80)) as char, 2))
      else None
    else if 0xE0 <= x0 <= 0xEF then
      var lo := if x0 == 0xE0 then 0xA0 else 0x80;
      var hi := if x0 == 0xED then 0x9F else 0xBF;
      if |b| >= 3 && InRange(b[1], lo, hi) && InRange(b[2], 0x80, 0xBF) then
        var x1: int, x2: int := b[1], b[2];
        Some((((x0 - 0xE0) * 4096 + (x1 - 0x80) * 64 + (x2 - 0x80)) as char, 3))
      else None
    else if 0xF0 <= x0 <= 0xF4 then
      var lo := if x0 == 0xF0 then 0x90 else 0x80;
      var hi := if x0 == 0xF4 then 0x8F else 0xBF;
      if |b| >= 4 && InRange(b[1], lo, hi) && InRange(b[2], 0x80, 0xBF) && InRange(b[3], 0x80, 0xBF) then
        var x1: int, x2: int, x3: int := b[1], b[2], b[3];
        Some((((x0 - 0xF0) * 262144 + (x1 - 0x80) * 4096 + (x2 - 0x80) * 64 + (x3 - 0x80)) as char, 4))
      else None
    else None
  }

  /** `b.decode('utf-8')`; `None` where Python raises `UnicodeDecodeError`. */
  function Decode(b: Bytes): (r: Option<string>)
    decreases |b|
  {
    if b == [] then Some([])
    else match DecodeChar(b)
      case None => None
      case Some((c, n)) =>
        match Decode(b[n..])
        case None => None
        case Some(t) => Some([c] + t)
  }

  // ---------------------------------------------------------------------------
  // Properties

  lemma DecodeEncodeTwo(c: char, rest: Bytes)
    requires 0x80 <= c as int < 0x800
    ensures DecodeChar(EncodeChar(c) + rest) == Some((c, 2))
  {
    var n := c as int;
    var q, r := n / 64, n % 64;
    assert n == q * 64 + r && 2 <= q < 32;
    var b := EncodeChar(c) + rest;
    assert b[0] == 0xC0 + q && b[1] == 0x80 + r;
  }

  lemma DecodeEncodeThree(c: char, rest: Bytes)
    requires 0x800 <= c as int < 0x10000
    ensures DecodeChar(EncodeChar(c) + rest) == Some((c, 3))
  {
    var n := c as int;
    var t, r := n / 64, n % 64;
    var q, m := t / 64, t % 64;
    assert n == t * 64 + r && t == q * 64 + m;
    assert n / 4096 == q && n / 64 % 64 == m;
    assert q == 0 ==> m >= 32;
    assert q == 0xD ==> m < 32;
    var b := EncodeChar(c) + rest;
    assert b[0] == 0xE0 + q && b[1] == 0x80 + m && b[2] == 0x80 + r;
  }

  lemma DecodeEncodeFour(c: char, rest: Bytes)
    requires 0x10000 <= c as int
    ensures DecodeChar(EncodeChar(c) + rest) == Some((c, 4))
  {
    var n := c as int;
    var t, r := n / 64, n % 64;
    var u, m := t / 64, t % 64;
    var p, q := u / 64, u % 64;
    assert n == t * 64 + r && t == u * 64 + m && u == p * 64 + q;
    assert n / 262144 == p && n / 4096 % 64 == q && n / 64 % 64 == m;
    assert p == 0 ==> q >= 16;
    assert p == 4 ==> q < 16;
    var b := EncodeChar(c) + rest;
    assert b[0] == 0xF0 + p && b[1] == 0x80 + q && b[2] == 0x80 + m && b[3] == 0x80 + r;
  }

  /** The decoder reads back the first encoded character, whatever follows it. */
  lemma DecodeEncodeChar(c: char, rest: Bytes)
    ensures DecodeChar(EncodeChar(c) + rest) == Some((c, |EncodeChar(c)|))
  {
    var n := c as int;
    if n < 0x80 {
    } else if n < 0x800 {
      DecodeEncodeTwo(c, rest);
    } else if n < 0x10000 {
      DecodeEncodeThree(c, rest);
    } else {
      DecodeEncodeFour(c, rest);
    }
  }

  lemma EncodeDecodeTwo(b: Bytes)
    requires |b| >= 2 && 0xC2 <= b[0] <= 0xDF && InRange(b[1], 0x80, 0xBF)
    ensures EncodeChar(DecodeChar(b).value.0) == b[..2]
  {
    var x0: int, x1: int := b[0], b[1];
    var n := (x0 - 0xC0) * 64 + (x1 - 0x80);
    assert n / 64 == x0 - 0xC0 && n % 64 == x1 - 0x80;
    assert DecodeChar(b).value.0 as int == n;
  }

  lemma EncodeDecodeThree(b: Bytes)
    requires |b| >= 3 && 0xE0 <= b[0] <= 0xEF && DecodeChar(b).Some?
    ensures EncodeChar(DecodeChar(b).value.0) == b[..3]
  {
    var x0: int, x1: int, x2: int := b[0], b[1], b[2];
    var t := (x0 - 0xE0) * 64 + (x1 - 0x80);
    var n := t * 64 + (x2 - 0x80);
    assert n / 64 == t && n % 64 == x2 - 0x80;
    assert t / 64 == x0 - 0xE0 && t % 64 == x1 - 0x80;
    assert n / 4096 == t / 64;
    assert DecodeChar(b).value.0 as int == n;
  }

  lemma EncodeDecodeFour(b: Bytes)
    requires |b| >= 4 && 0xF0 <= b[0] <= 0xF4 && DecodeChar(b).Some?
    ensures EncodeChar(DecodeChar(b).value.0) == b[..4]
  {
    var x0: int, x1: int, x2: int, x3: int := b[0], b[1], b[2], b[3];
    var u := (x0 - 0xF0) * 64 + (x1 - 0x80);
    var t := u * 64 + (x2 - 0x80);
    var n := t * 64 + (x3 - 0x80);
    assert n / 64 == t && n % 64 == x3 - 0x80;
    assert t / 64 == u && t % 64 == x2 - 0x80;
    assert u / 64 == x0 - 0xF0 && u % 64 == x1 - 0x80;
    assert n / 4096 == u && n / 262144 == u / 64;
    assert DecodeChar(b).value.0 as int == n;
  }

  /** A well-formed first character is the encoding of the character decoded. */
  lemma EncodeDecodeChar(b: Bytes)
    requires |b| > 0 && DecodeChar(b).Some?
    ensures EncodeChar(DecodeChar(b).value.0) == b[..DecodeChar(b).value.1]
  {
    var x0: int := b[0];
    if x0 < 0x80 {
    } else if x0 <= 0xDF {
      EncodeDecodeTwo(b);
    } else if x0 <= 0xEF {
      EncodeDecodeThree(b);
    } else {
      EncodeDecodeFour(b);
    }
  }

  /** Round trip: `s.encode().decode() == s`. */
  lemma {:induction false} DecodeEncode(s: string)
    ensures Decode(Encode(s)) == Some(s)
    decreases |s|
  {
    if s != [] {
      var e := Encode(s);
      DecodeEncodeChar(s[0], Encode(s[1..]));
      assert e[|EncodeChar(s[0])|..] == Encode(s[1..]);
      DecodeEncode(s[1..]);
      assert [s[0]] + s[1..] == s;
    }
  }

  /** A decodable `b` is one encoded character followed by a decodable rest. */
  lemma DecodeStep(b: Bytes) returns (c: char, n: nat)
    requires b != [] && Decode(b).Some?
    ensures 1 <= n <= |b| && Decode(b[n..]).Some?
    ensures Decode(b).value == [c] + Decode(b[n..]).value
    ensures EncodeChar(c) == b[..n]
  {
    c, n := DecodeChar(b).value.0, DecodeChar(b).value.1;
    EncodeDecodeChar(b);
  }

  /** The other direction: whatever decodes is the encoding of what it decodes to. */
  lemma {:induction false} EncodeDecode(b: Bytes)
    requires Decode(b).Some?
    ensures Encode(Decode(b).value) == b
    decreases |b|
  {
    if b != [] {
      var c, n := DecodeStep(b);
      EncodeDecode(b[n..]);
      var t := Decode(b[n..]).value;
      assert ([c] + t)[0] == c && ([c] + t)[1..] == t;
      assert b == b[..n] + b[n..];
    }
  }

  /** Every character takes at least one byte. */
  lemma {:induction false} EncodeLength(s: string)
    ensures |Encode(s)| >= |s|
    decreases |s|
  {
    if s != [] {
      EncodeLength(s[1..]);
    }
  }
}
