/**
 * Base 64 as section 4 of RFC 4648 defines it, encoded the way Python's
 * `base64.b64encode` does (with `=` padding) and decoded the way Python's
 * `base64.b64decode` and `base64.urlsafe_b64decode` do without `validate`:
 * a `str` argument must be ASCII, characters outside the alphabet are skipped,
 * a run of `=` long enough to complete the current quantum ends the input, and
 * an incomplete quantum at the end is an error. The URL-safe decoder first maps
 * the alphabet of section 5 (`-`, `_`) onto that of section 4 (`+`, `/`).
 */
module Base64 {
  import opened Wrappers
  import opened Text

  const Pad: char := '='

  /** The value Table 1 of section 4 of RFC 4648 gives `c`, or 64 for a character outside the alphabet. */
  function SextetOf(c: char): (v: nat)
    ensures v <= 64
    ensures v < 64 ==> c != Pad && IsAscii(c)
  {
    if 'A' <= c <= 'Z' then c as int - 'A' as int
    else if 'a' <= c <= 'z' then c as int - 'a' as int + 26
    else if '0' <= c <= '9' then c as int - '0' as int + 52
    else if c == '+' then 62
    else if c == '/' then 63
    else 64
  }

  /** The character Table 1 gives the value `v`. */
  function CharOf(v: int): (c: char)
    requires 0 <= v < 64
    ensures SextetOf(c) == v
  {
    if v < 26 then ('A' as int + v) as char
    else if v < 52 then ('a' as int + v - 26) as char
    else if v < 62 then ('0' as int + v - 52) as char
    else if v == 62 then '+'
    else '/'
  }

  /** `base64.b64encode`: every three bytes become four characters, the last group padded with `=`. */
  function Encode(b: Bytes): (s: string)
    ensures |s| == 4 * ((|b| + 2) / 3)
    decreases |b|
  {
    if |b| == 0 then []
    else if |b| == 1 then [CharOf(b[0] / 4), CharOf(b[0] % 4 * 16), Pad, Pad]
    else if |b| == 2 then [CharOf(b[0] / 4), CharOf(b[0] % 4 * 16 + b[1] / 16), CharOf(b[1] % 16 * 4), Pad]
    else
      [CharOf(b[0] / 4), CharOf(b[0] % 4 * 16 + b[1] / 16), CharOf(b[1] % 16 * 4 + b[2] / 64), CharOf(b[2] % 64)]
      + Encode(b[3..])
  }

  /** The state of the decoding loop: position in the current quantum, the bits carried over, the `=` run, the output. */
  datatype Decoder = Decoder(quadPos: nat, leftChar: int, pads: nat, out: Bytes)

  ghost predicate WellFormed(d: Decoder) {
    && d.quadPos < 4
    && (d.quadPos == 1 ==> 0 <= d.leftChar < 64)
    && (d.quadPos == 2 ==> 0 <= d.leftChar < 16)
    && (d.quadPos == 3 ==> 0 <= d.leftChar < 4)
  }

  const Start: Decoder := Decoder(0, 0, 0, [])

  /** One alphabet character of value `v` enters the quantum. */
  function Feed(d: Decoder, v: int): (d': Decoder)
    requires WellFormed(d) && 0 <= v < 64
    ensures WellFormed(d') && d'.pads == 0
  {
    if d.quadPos == 0 then Decoder(1, v, 0, d.out)
    else if d.quadPos == 1 then Decoder(2, v % 16, 0, d.out + [d.leftChar * 4 + v / 16])
    else if d.quadPos == 2 then Decoder(3, v % 4, 0, d.out + [d.leftChar * 16 + v / 4])
    else Decoder(0, 0, 0, d.out + [d.leftChar * 64 + v])
  }

  /** The decoding loop over the rest of the input; `None` is the "incorrect padding" error. */
  function Run(s: string, d: Decoder): (r: Option<Bytes>)
    requires WellFormed(d)
    decreases |s|
  {
    if s == [] then
      if d.quadPos == 0 then Some(d.out) else None
    else if s[0] == Pad then
      if d.quadPos >= 2 && d.quadPos + d.pads + 1 >= 4 then Some(d.out)
      else Run(s[1..], if d.quadPos >= 2 then d.(pads := d.pads + 1) else d)
    else if SextetOf(s[0]) == 64 then
      Run(s[1..], d)
    else
      Run(s[1..], Feed(d, SextetOf(s[0])))
  }

  /** `base64.b64decode(s)` for a `str` argument; `None` where Python raises. */
  function Decode(s: string): Option<Bytes> {
    if AllAscii(s) then Run(s, Start) else None
  }

  /** The section-5 characters mapped onto their section-4 counterparts. */
  function ToStandard(c: char): char {
    if c == '-' then '+' else if c == '_' then '/' else c
  }

  function ToUrlSafe(c: char): char {
    if c == '+' then '-' else if c == '/' then '_' else c
  }

  /** `base64.urlsafe_b64decode(s)` for a `str` argument; `None` where Python raises. */
  function UrlSafeDecode(s: string): Option<Bytes> {
    if AllAscii(s) then Run(seq(|s|, i requires 0 <= i < |s| => ToStandard(s[i])), Start) else None
  }

  /** `base64.urlsafe_b64encode`. */
  function UrlSafeEncode(b: Bytes): string {
    var e := Encode(b);
    seq(|e|, i requires 0 <= i < |e| => ToUrlSafe(e[i]))
  }

  // ---------------------------------------------------------------------------
  // Properties

  /** The arithmetic of one full quantum: the three bytes come back out of the four sextets. */
  lemma QuantumArithmetic(b0: Byte, b1: Byte, b2: Byte)
    ensures b0 / 4 * 4 + (b0 % 4 * 16 + b1 / 16) / 16 == b0
    ensures (b0 % 4 * 16 + b1 / 16) % 16 * 16 + (b1 % 16 * 4 + b2 / 64) / 4 == b1
    ensures (b1 % 16 * 4 + b2 / 64) % 4 * 64 + b2 % 64 == b2
  {
    var h1 := b1 / 16;
    assert 0 <= h1 < 16;
    assert (b0 % 4 * 16 + h1) / 16 == b0 % 4 && (b0 % 4 * 16 + h1) % 16 == h1;
    var h2 := b2 / 64;
    assert 0 <= h2 < 4;
    assert (b1 % 16 * 4 + h2) / 4 == b1 % 16 && (b1 % 16 * 4 + h2) % 4 == h2;
  }

  /** One alphabet character enters the quantum, whatever follows it. */
  lemma RunSextet(c: char, rest: string, d: Decoder)
    requires WellFormed(d) && SextetOf(c) < 64
    ensures Run([c] + rest, d) == Run(rest, Feed(d, SextetOf(c)))
  {
    assert ([c] + rest)[1..] == rest;
  }

  /** The four sextets of three bytes, fed from a quantum boundary, append those three bytes. */
  lemma FeedQuantum(b0: Byte, b1: Byte, b2: Byte, d: Decoder)
    requires d.quadPos == 0
    ensures WellFormed(d)
    ensures Feed(Feed(Feed(Feed(d, b0 / 4), b0 % 4 * 16 + b1 / 16), b1 % 16 * 4 + b2 / 64), b2 % 64)
         == Decoder(0, 0, 0, d.out + [b0, b1, b2])
  {
    QuantumArithmetic(b0, b1, b2);
  }

  /** A full quantum of four alphabet characters hands its three bytes to the output. */
  lemma RunQuantum(b0: Byte, b1: Byte, b2: Byte, rest: string, d: Decoder)
    requires d.quadPos == 0
    ensures WellFormed(d)
    ensures Run([CharOf(b0 / 4), CharOf(b0 % 4 * 16 + b1 / 16), CharOf(b1 % 16 * 4 + b2 / 64), CharOf(b2 % 64)] + rest, d)
         == Run(rest, Decoder(0, 0, 0, d.out + [b0, b1, b2]))
  {
    var v0, v1, v2, v3 := b0 / 4, b0 % 4 * 16 + b1 / 16, b1 % 16 * 4 + b2 / 64, b2 % 64;
    var x0, x1, x2, x3 := CharOf(v0), CharOf(v1), CharOf(v2), CharOf(v3);
    var s3 := [x3] + rest;
    var s2 := [x2] + s3;
    var s1 := [x1] + s2;
    assert [x0, x1, x2, x3] + rest == [x0] + s1;
    var d1 := Feed(d, v0);
    var d2 := Feed(d1, v1);
    var d3 := Feed(d2, v2);
    RunSextet(x0, s1, d);
    RunSextet(x1, s2, d1);
    RunSextet(x2, s3, d2);
    RunSextet(x3, rest, d3);
    FeedQuantum(b0, b1, b2, d);
  }

  /** The final quantum of a one-byte remainder: two characters and `==`. */
  lemma RunOneByteTail(b0: Byte, d: Decoder)
    requires d.quadPos == 0
    ensures WellFormed(d)
    ensures Run([CharOf(b0 / 4), CharOf(b0 % 4 * 16), Pad, Pad], d) == Some(d.out + [b0])
  {
    QuantumArithmetic(b0, 0, 0);
    var x0, x1 := CharOf(b0 / 4), CharOf(b0 % 4 * 16);
    var s0 := [x0, x1, Pad, Pad];
    assert s0[1..] == [x1, Pad, Pad] && s0[2..] == [Pad, Pad] && s0[3..] == [Pad];
    var d1 := Feed(d, b0 / 4);
    var d2 := Feed(d1, b0 % 4 * 16);
    assert d2.out == d.out + [b0];
    assert Run(s0, d) == Run(s0[1..], d1);
    assert Run(s0[1..], d1) == Run(s0[2..], d2);
    assert Run(s0[2..], d2) == Run(s0[3..], d2.(pads := 1));
  }

  /** The final quantum of a two-byte remainder: three characters and `=`. */
  lemma RunTwoByteTail(b0: Byte, b1: Byte, d: Decoder)
    requires d.quadPos == 0
    ensures WellFormed(d)
    ensures Run([CharOf(b0 / 4), CharOf(b0 % 4 * 16 + b1 / 16), CharOf(b1 % 16 * 4), Pad], d) == Some(d.out + [b0, b1])
  {
    QuantumArithmetic(b0, b1, 0);
    var x0, x1, x2 := CharOf(b0 / 4), CharOf(b0 % 4 * 16 + b1 / 16), CharOf(b1 % 16 * 4);
    var s0 := [x0, x1, x2, Pad];
    assert s0[1..] == [x1, x2, Pad] && s0[2..] == [x2, Pad] && s0[3..] == [Pad];
    var d1 := Feed(d, b0 / 4);
    var d2 := Feed(d1, b0 % 4 * 16 + b1 / 16);
    var d3 := Feed(d2, b1 % 16 * 4);
    assert d3.out == d.out + [b0, b1];
    assert Run(s0, d) == Run(s0[1..], d1);
    assert Run(s0[1..], d1) == Run(s0[2..], d2);
    assert Run(s0[2..], d2) == Run(s0[3..], d3);
  }

  /** The last, possibly padded, quantum: fewer than three bytes come back out of their encoding. */
  lemma RunEncodeTail(b: Bytes, d: Decoder)
    requires |b| < 3 && d.quadPos == 0
    ensures WellFormed(d) && Run(Encode(b), d) == Some(d.out + b)
  {
    if |b| == 0 {
      assert d.out + b == d.out;
    } else if |b| == 1 {
      RunOneByteTail(b[0], d);
      assert [b[0]] == b;
    } else {
      RunTwoByteTail(b[0], b[1], d);
      assert [b[0], b[1]] == b;
    }
  }

  /** Decoding the encoding of `b` from a quantum boundary appends exactly `b` to the output. */
  lemma {:induction false} RunEncode(b: Bytes, d: Decoder)
    requires d.quadPos == 0
    ensures WellFormed(d) && Run(Encode(b), d) == Some(d.out + b)
    decreases |b|
  {
    if |b| < 3 {
      RunEncodeTail(b, d);
    } else {
      RunQuantum(b[0], b[1], b[2], Encode(b[3..]), d);
      var d4 := Decoder(0, 0, 0, d.out + [b[0], b[1], b[2]]);
      RunEncode(b[3..], d4);
      assert d4.out + b[3..] == d.out + b;
    }
  }

  /** Every character `Encode` emits is ASCII. */
  lemma {:induction false} EncodeIsAscii(b: Bytes)
    ensures AllAscii(Encode(b))
    decreases |b|
  {
    if |b| >= 3 {
      EncodeIsAscii(b[3..]);
      var s := Encode(b);
      forall i | 0 <= i < |s| ensures IsAscii(s[i]) {
        if i >= 4 { assert s[i] == Encode(b[3..])[i - 4]; }
      }
    }
  }

  /** Round trip: `b64decode(b64encode(b)) == b`. */
  lemma DecodeEncode(b: Bytes)
    ensures Decode(Encode(b)) == Some(b)
  {
    EncodeIsAscii(b);
    RunEncode(b, Start);
    assert Start.out + b == b;
  }

  /** Round trip through the URL-safe alphabet: `urlsafe_b64decode(urlsafe_b64encode(b)) == b`. */
  lemma UrlSafeDecodeEncode(b: Bytes)
    ensures UrlSafeDecode(UrlSafeEncode(b)) == Some(b)
  {
    var e := Encode(b);
    var u := UrlSafeEncode(b);
    EncodeIsAscii(b);
    assert forall i :: 0 <= i < |e| ==> e[i] != '-' && e[i] != '_' by {
      forall i | 0 <= i < |e| ensures e[i] != '-' && e[i] != '_' {
        EncodeChars(b, i);
      }
    }
    assert AllAscii(u);
    assert seq(|u|, i requires 0 <= i < |u| => ToStandard(u[i])) == e;
    RunEncode(b, Start);
    assert Start.out + b == b;
  }

  /** Each character of an encoding is an alphabet character or the pad. */
  lemma {:induction false} EncodeChars(b: Bytes, i: int)
    requires 0 <= i < |Encode(b)|
    ensures var c := Encode(b)[i]; c == Pad || SextetOf(c) < 64
    decreases |b|
  {
    if |b| >= 3 && i >= 4 {
      EncodeChars(b[3..], i - 4);
      assert Encode(b)[i] == Encode(b[3..])[i - 4];
    }
  }

  /** Each character consumed adds at most one byte of output. */
  lemma {:induction false} RunLength(s: string, d: Decoder)
    requires WellFormed(d)
    ensures Run(s, d).Some? ==> |Run(s, d).value| <= |d.out| + |s|
    decreases |s|
  {
    if s != [] {
      if s[0] == Pad {
        if !(d.quadPos >= 2 && d.quadPos + d.pads + 1 >= 4) {
          RunLength(s[1..], if d.quadPos >= 2 then d.(pads := d.pads + 1) else d);
        }
      } else if SextetOf(s[0]) == 64 {
        RunLength(s[1..], d);
      } else {
        RunLength(s[1..], Feed(d, SextetOf(s[0])));
      }
    }
  }

  /** `b64decode(s)` never yields more bytes than `s` has characters. */
  lemma DecodeLength(s: string)
    ensures Decode(s).Some? ==> |Decode(s).value| <= |s|
  {
    if AllAscii(s) {
      RunLength(s, Start);
    }
  }

  /** Distinct byte strings have distinct encodings. */
  lemma EncodeInjective(a: Bytes, b: Bytes)
    requires Encode(a) == Encode(b)
    ensures a == b
  {
    DecodeEncode(a);
    DecodeEncode(b);
  }
}
