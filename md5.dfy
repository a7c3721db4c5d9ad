/**
 * MD5 as the console uses it through CryptoJS: `CryptoJS.MD5(text)` digests
 * the UTF-8 bytes of `text`, and `.toString()` writes the 128-bit digest as
 * 32 lower-case hexadecimal digits. The digest function itself is not
 * modelled: every operation that needs it takes a `Hasher` argument, a
 * function whose every result is such a digest.
 */
module Md5 {
  type byte = x: int | 0 <= x < 256

  predicate IsLowerHexDigit(c: char)
  {
    '0' <= c <= '9' || 'a' <= c <= 'f'
  }

  /** The `toString()` form of an MD5 word array: 32 lower-case hex digits. */
  predicate IsDigest(s: string)
  {
    |s| == 32 && forall i :: 0 <= i < |s| ==> IsLowerHexDigit(s[i])
  }

  const ZeroDigest: string := "00000000000000000000000000000000"

  /** A digest function over bytes, such as MD5 followed by hex encoding. */
  type Hasher = h: seq<byte> -> string | forall b :: IsDigest(h(b))
    witness (b: seq<byte>) => ZeroDigest

  /** The UTF-8 encoding of one Unicode scalar value (RFC 3629, section 3). */
  function Utf8Char(c: char): (r: seq<byte>)
    ensures 1 <= |r| <= 4
    ensures |r| == 1 <==> c as int < 0x80
    ensures |r| == Utf8Length(r[0])
  {
    var n := c as int;
    if n < 0x80 then [n]
    else if n < 0x800 then [0xC0 + n / 64, 0x80 + n % 64]
    else if n < 0x10000 then [0xE0 + n / 4096, 0x80 + (n / 64) % 64, 0x80 + n % 64]
    else [0xF0 + n / 262144, 0x80 + (n / 4096) % 64, 0x80 + (n / 64) % 64, 0x80 + n % 64]
  }

  /** How many bytes a UTF-8 sequence with this lead byte has. */
  function Utf8Length(lead: byte): nat
  {
    if lead < 0x80 then 1 else if lead < 0xE0 then 2 else if lead < 0xF0 then 3 else 4
  }

  /** The scalar value of one well-formed UTF-8 sequence. */
  function Utf8Value(b: seq<byte>): int
    requires 1 <= |b| <= 4
  {
    var b0, b1, b2, b3 := b[0] as int, if |b| > 1 then b[1] as int else 0, if |b| > 2 then b[2] as int else 0, if |b| > 3 then b[3] as int else 0;
    if |b| == 1 then b0
    else if |b| == 2 then (b0 - 0xC0) * 64 + (b1 - 0x80)
    else if |b| == 3 then (b0 - 0xE0) * 4096 + (b1 - 0x80) * 64 + (b2 - 0x80)
    else (b0 - 0xF0) * 262144 + (b1 - 0x80) * 4096 + (b2 - 0x80) * 64 + (b3 - 0x80)
  }

  lemma Utf8CharValue(c: char)
    ensures Utf8Value(Utf8Char(c)) == c as int
  {
    var n := c as int;
    var q1, r1 := n / 64, n % 64;
    assert n == q1 * 64 + r1;
    var q2, r2 := q1 / 64, q1 % 64;
    assert q1 == q2 * 64 + r2;
    var q3, r3 := q2 / 64, q2 % 64;
    assert q2 == q3 * 64 + r3;
    assert n / 4096 == q2 && (n / 64) % 64 == r2;
    assert n / 262144 == q3 && (n / 4096) % 64 == r3;
  }

  /** The bytes CryptoJS digests for a JavaScript string. */
  function Utf8Encode(s: string): (r: seq<byte>)
    ensures |r| >= |s|
  {
    if |s| == 0 then [] else Utf8Char(s[0]) + Utf8Encode(s[1..])
  }

  /** Different strings have different encodings, so they are different digest inputs. */
  lemma {:induction false} Utf8EncodeInjective(s: string, t: string)
    requires Utf8Encode(s) == Utf8Encode(t)
    ensures s == t
  {
    if |s| > 0 && |t| > 0 {
      var a, b := Utf8Char(s[0]), Utf8Char(t[0]);
      var e := Utf8Encode(s);
      assert e[0] == a[0] && e[0] == b[0];
      assert |a| == |b|;
      assert a == e[..|a|] == b;
      Utf8CharValue(s[0]);
      Utf8CharValue(t[0]);
      assert Utf8Encode(s[1..]) == e[|a|..] == Utf8Encode(t[1..]);
      Utf8EncodeInjective(s[1..], t[1..]);
      assert s == [s[0]] + s[1..];
      assert t == [t[0]] + t[1..];
    }
  }

  predicate IsAscii(s: string)
  {
    forall i :: 0 <= i < |s| ==> s[i] as int < 0x80
  }

  /** An ASCII string is digested byte for byte: each character is its own code. */
  lemma {:induction false} AsciiEncoding(s: string)
    requires IsAscii(s)
    ensures |Utf8Encode(s)| == |s|
    ensures forall i :: 0 <= i < |s| ==> Utf8Encode(s)[i] == s[i] as int
  {
    if |s| > 0 {
      AsciiEncoding(s[1..]);
    }
  }

  /** `CryptoJS.MD5(text).toString()`. */
  function HashText(md5: Hasher, text: string): (r: string)
    ensures IsDigest(r)
  {
    md5(Utf8Encode(text))
  }
}
