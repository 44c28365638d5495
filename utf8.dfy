/**
 * UTF-8 (RFC 3629), the encoding Node's `hash.update(string)` applies to a
 * string before hashing it. Decode is the partner that shows the encoding
 * loses nothing.
 */
module Utf8 {
  import opened Wrappers

  newtype byte = x: int | 0 <= x < 256

  /** Unicode scalar values: the code points a Dafny `char` can hold. */
  predicate IsScalar(n: int) {
    0 <= n < 0xD800 || 0xE000 <= n < 0x11_0000
  }

  predicate IsContinuation(x: byte) {
    0x80 <= x < 0xC0
  }

  /** The one to four bytes of one code point. */
  function EncodeScalar(n: int): (r: seq<byte>)
    requires IsScalar(n)
    ensures 1 <= |r| <= 4
    ensures (n == 0) <==> (0 in r)
  {
    if n < 0x80 then [n as byte]
    else if n < 0x800 then [(0xC0 + n / 64) as byte, (0x80 + n % 64) as byte]
    else if n < 0x1_0000 then
      [(0xE0 + n / 64 / 64) as byte, (0x80 + n / 64 % 64) as byte, (0x80 + n % 64) as byte]
    else
      [(0xF0 + n / 64 / 64 / 64) as byte, (0x80 + n / 64 / 64 % 64) as byte,
       (0x80 + n / 64 % 64) as byte, (0x80 + n % 64) as byte]
  }

  function Encode(s: string): seq<byte> {
    if s == [] then [] else EncodeScalar(s[0] as int) + Encode(s[1..])
  }

  /** The first code point of a byte string and how many bytes it took, or None when they are not UTF-8. */
  function DecodeFirst(b: seq<byte>): (r: Option<(char, nat)>)
    requires |b| > 0
    ensures r.Some? ==> 1 <= r.value.1 <= |b|
  {
    var b0 := b[0] as int;
    if b0 < 0x80 then Some((b0 as char, 1))
    else if 0xC0 <= b0 < 0xE0 && |b| >= 2 && IsContinuation(b[1]) then
      var n := (b0 - 0xC0) * 64 + (b[1] as int - 0x80);
      if 0x80 <= n then Some((n as char, 2)) else None
    else if 0xE0 <= b0 < 0xF0 && |b| >= 3 && IsContinuation(b[1]) && IsContinuation(b[2]) then
      var n := (b0 - 0xE0) * 4096 + (b[1] as int - 0x80) * 64 + (b[2] as int - 0x80);
      if 0x800 <= n && IsScalar(n) then Some((n as char, 3)) else None
    else if 0xF0 <= b0 < 0xF8 && |b| >= 4 && IsContinuation(b[1]) && IsContinuation(b[2]) && IsContinuation(b[3]) then
      var n := (b0 - 0xF0) * 262144 + (b[1] as int - 0x80) * 4096 + (b[2] as int - 0x80) * 64 + (b[3] as int - 0x80);
      if 0x1_0000 <= n < 0x11_0000 then Some((n as char, 4)) else None
    else None
  }

  function Decode(b: seq<byte>): Option<string>
    decreases |b|
  {
    if b == [] then Some([])
    else match DecodeFirst(b)
      case None => None
      case Some((c, k)) =>
        match Decode(b[k..])
        case None => None
        case Some(rest) => Some([c] + rest)
  }

  lemma DecodeFirstOfEncoded(c: char, rest: seq<byte>)
    ensures var e := EncodeScalar(c as int);
      DecodeFirst(e + rest) == Some((c, |e|))
  {
    var n := c as int;
    if n < 0x80 {
    } else if n < 0x800 {
      DecodeTwo(n, rest);
    } else if n < 0x1_0000 {
      DecodeThree(n, rest);
    } else {
      DecodeFour(n, rest);
    }
  }

  lemma DecodeTwo(n: int, rest: seq<byte>)
    requires 0x80 <= n < 0x800
    ensures DecodeFirst(EncodeScalar(n) + rest) == Some((n as char, 2))
  {
    var b := EncodeScalar(n) + rest;
    var q1, r0 := n / 64, n % 64;
    assert b[0] as int == 0xC0 + q1 && b[1] as int == 0x80 + r0;
    assert q1 * 64 + r0 == n;
  }

  lemma DecodeThree(n: int, rest: seq<byte>)
    requires 0x800 <= n < 0x1_0000 && IsScalar(n)
    ensures DecodeFirst(EncodeScalar(n) + rest) == Some((n as char, 3))
  {
    var b := EncodeScalar(n) + rest;
    var q1, r0 := n / 64, n % 64;
    var q2, r1 := q1 / 64, q1 % 64;
    assert b[0] as int == 0xE0 + q2 && b[1] as int == 0x80 + r1 && b[2] as int == 0x80 + r0;
    assert q1 * 64 + r0 == n && q2 * 64 + r1 == q1;
    assert q2 * 4096 + r1 * 64 + r0 == n;
  }

  lemma DecodeFour(n: int, rest: seq<byte>)
    requires 0x1_0000 <= n < 0x11_0000
    ensures DecodeFirst(EncodeScalar(n) + rest) == Some((n as char, 4))
  {
    var b := EncodeScalar(n) + rest;
    var q1, r0 := n / 64, n % 64;
    var q2, r1 := q1 / 64, q1 % 64;
    var q3, r2 := q2 / 64, q2 % 64;
    assert b[0] as int == 0xF0 + q3 && b[1] as int == 0x80 + r2;
    assert b[2] as int == 0x80 + r1 && b[3] as int == 0x80 + r0;
    assert q1 * 64 + r0 == n && q2 * 64 + r1 == q1 && q3 * 64 + r2 == q2;
    assert q3 * 262144 + r2 * 4096 + r1 * 64 + r0 == n;
  }

  /** Decoding the encoding of a string gives the string back. */
  lemma {:induction false} RoundTrip(s: string)
    ensures Decode(Encode(s)) == Some(s)
  {
    if s != [] {
      var e := EncodeScalar(s[0] as int);
      DecodeFirstOfEncoded(s[0], Encode(s[1..]));
      assert (e + Encode(s[1..]))[|e|..] == Encode(s[1..]);
      RoundTrip(s[1..]);
      assert [s[0]] + s[1..] == s;
    }
  }

  /** Distinct strings have distinct encodings. */
  lemma Injective(s: string, t: string)
    ensures Encode(s) == Encode(t) <==> s == t
  {
    if Encode(s) == Encode(t) {
      RoundTrip(s);
      RoundTrip(t);
    }
  }

  /** A zero byte appears in the encoding exactly where the string holds U+0000. */
  lemma {:induction false} ZeroByteIsNul(s: string)
    ensures 0 in Encode(s) <==> '\0' in s
  {
    if s != [] {
      ZeroByteIsNul(s[1..]);
      assert s == [s[0]] + s[1..];
    }
  }

  /** Only the empty string encodes to no bytes. */
  lemma EmptyEncoding(s: string)
    ensures Encode(s) == [] <==> s == []
  {
  }

  lemma {:induction false} EncodeAppend(s: string, t: string)
    ensures Encode(s + t) == Encode(s) + Encode(t)
  {
    if s == [] {
      assert s + t == t;
    } else {
      assert (s + t)[0] == s[0] && (s + t)[1..] == s[1..] + t;
      EncodeAppend(s[1..], t);
      calc {
        Encode(s + t);
        EncodeScalar(s[0] as int) + Encode(s[1..] + t);
        EncodeScalar(s[0] as int) + (Encode(s[1..]) + Encode(t));
        (EncodeScalar(s[0] as int) + Encode(s[1..])) + Encode(t);
      }
    }
  }
}
