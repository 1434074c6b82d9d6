/**
 * `encodeURIComponent` (section 19.2.6.5 of ECMA-262): every character outside
 * the unreserved set is written as the `%XX` escapes of its UTF-8 octets
 * (RFC 3629), with upper-case hexadecimal digits.
 */
module UriEncoding {
  import opened JsText

  /** The characters `encodeURIComponent` leaves as they are. */
  predicate Unescaped(c: char) {
    ('A' <= c <= 'Z') || ('a' <= c <= 'z') || ('0' <= c <= '9')
    || c == '-' || c == '_' || c == '.' || c == '!' || c == '~' || c == '*' || c == '\'' || c == '(' || c == ')'
  }

  /** The UTF-8 octets of one Unicode scalar value. */
  function Utf8(c: char): (b: seq<byte>)
    ensures 1 <= |b| <= 4
  {
    var v := c as int;
    if v < 0x80 then [v]
    else if v < 0x800 then [0xC0 + v / 64, 0x80 + v % 64]
    else if v < 0x10000 then [0xE0 + v / 4096, 0x80 + (v / 64) % 64, 0x80 + v % 64]
    else [0xF0 + v / 262144, 0x80 + (v / 4096) % 64, 0x80 + (v / 64) % 64, 0x80 + v % 64]
  }

  function HexDigitUpper(d: nat): (c: char)
    requires d < 16
  {
    if d < 10 then ('0' as int + d) as char else ('A' as int + d - 10) as char
  }

  function PercentBytes(b: seq<byte>): (s: string)
    ensures |s| == 3 * |b|
  {
    if |b| == 0 then "" else ['%', HexDigitUpper(b[0] / 16), HexDigitUpper(b[0] % 16)] + PercentBytes(b[1..])
  }

  function EncodeChar(c: char): (s: string)
    ensures Unescaped(c) ==> s == [c]
    ensures !Unescaped(c) ==> s == PercentBytes(Utf8(c))
  {
    if Unescaped(c) then [c] else PercentBytes(Utf8(c))
  }

  function EncodeURIComponent(s: string): string
  {
    if |s| == 0 then "" else EncodeChar(s[0]) + EncodeURIComponent(s[1..])
  }

  /** The value the octets of `Utf8` stand for, read back from the lead octet's and continuation octets' payload bits. */
  function Utf8Value(b: seq<byte>): int
    requires 1 <= |b| <= 4
  {
    var o := seq(|b|, k requires 0 <= k < |b| => b[k] as int);
    if |b| == 1 then o[0]
    else if |b| == 2 then (o[0] - 0xC0) * 64 + (o[1] - 0x80)
    else if |b| == 3 then (o[0] - 0xE0) * 4096 + (o[1] - 0x80) * 64 + (o[2] - 0x80)
    else (o[0] - 0xF0) * 262144 + (o[1] - 0x80) * 4096 + (o[2] - 0x80) * 64 + (o[3] - 0x80)
  }

  /**
   * The forms of section 3 of RFC 3629: the lead octet tells the length, every
   * later octet is a continuation octet, and the payload bits read back to `v`.
   */
  predicate Utf8Form(b: seq<byte>, v: int) {
    && 1 <= |b| <= 4
    && (|b| == 1 <==> b[0] < 0x80)
    && (|b| == 2 <==> 0xC0 <= b[0] < 0xE0)
    && (|b| == 3 <==> 0xE0 <= b[0] < 0xF0)
    && (|b| == 4 <==> 0xF0 <= b[0] <= 0xF4)
    && (forall k :: 1 <= k < |b| ==> 0x80 <= b[k] < 0xC0)
    && Utf8Value(b) == v
  }

  /** `Utf8` writes every scalar value in its RFC 3629 form. */
  lemma Utf8RoundTrip(c: char)
    ensures Utf8Form(Utf8(c), c as int)
  {
    var v := c as int;
    assert v < 0x110000;
    if v < 0x80 {
    } else if v < 0x800 {
      Utf8Two(v, Utf8(c));
    } else if v < 0x10000 {
      Utf8Three(v, Utf8(c));
    } else {
      Utf8Four(v, Utf8(c));
    }
  }

  lemma Utf8Two(v: int, b: seq<byte>)
    requires 0x80 <= v < 0x800 && b == [0xC0 + v / 64, 0x80 + v % 64]
    ensures Utf8Form(b, v)
  {
    assert v == (v / 64) * 64 + v % 64;
  }

  lemma Utf8Three(v: int, b: seq<byte>)
    requires 0x800 <= v < 0x10000 && b == [0xE0 + v / 4096, 0x80 + (v / 64) % 64, 0x80 + v % 64]
    ensures Utf8Form(b, v)
  {
    assert v / 64 == (v / 4096) * 64 + (v / 64) % 64;
    assert v == (v / 64) * 64 + v % 64;
  }

  lemma Utf8Four(v: int, b: seq<byte>)
    requires 0x10000 <= v < 0x110000
    requires b == [0xF0 + v / 262144, 0x80 + (v / 4096) % 64, 0x80 + (v / 64) % 64, 0x80 + v % 64]
    ensures Utf8Form(b, v)
  {
    assert v / 4096 == (v / 262144) * 64 + (v / 4096) % 64;
    assert v / 64 == (v / 4096) * 64 + (v / 64) % 64;
    assert v == (v / 64) * 64 + v % 64;
  }

  /** Every character of an escape sequence is `%` or an upper-case hexadecimal digit. */
  lemma {:induction false} PercentBytesChars(b: seq<byte>)
    ensures forall i :: 0 <= i < |PercentBytes(b)| ==> PercentBytes(b)[i] == '%' || Unescaped(PercentBytes(b)[i])
  {
    if |b| > 0 {
      PercentBytesChars(b[1..]);
      var head := ['%', HexDigitUpper(b[0] / 16), HexDigitUpper(b[0] % 16)];
      assert PercentBytes(b) == head + PercentBytes(b[1..]);
    }
  }

  /**
   * The encoded text holds only unescaped characters and `%`, so no `&`, `=`,
   * `+` or space of the input reaches a form body as itself.
   */
  lemma {:induction false} EncodedIsFormSafe(s: string)
    ensures var r := EncodeURIComponent(s);
      forall i :: 0 <= i < |r| ==> r[i] == '%' || Unescaped(r[i])
    decreases |s|
  {
    if |s| > 0 {
      EncodedIsFormSafe(s[1..]);
      if !Unescaped(s[0]) {
        PercentBytesChars(Utf8(s[0]));
      }
      var r := EncodeURIComponent(s);
      assert r == EncodeChar(s[0]) + EncodeURIComponent(s[1..]);
      forall i | 0 <= i < |r| ensures r[i] == '%' || Unescaped(r[i]) {
        if i >= |EncodeChar(s[0])| {
          assert r[i] == EncodeURIComponent(s[1..])[i - |EncodeChar(s[0])|];
        }
      }
    }
  }

  /** Text made only of unescaped characters is left as it is. */
  lemma {:induction false} EncodeUnescapedIsIdentity(s: string)
    requires forall i :: 0 <= i < |s| ==> Unescaped(s[i])
    ensures EncodeURIComponent(s) == s
    decreases |s|
  {
    if |s| > 0 {
      EncodeUnescapedIsIdentity(s[1..]);
      assert s == [s[0]] + s[1..];
    }
  }

  /** Encoding works character by character: the encoding of a concatenation is the concatenation of the encodings. */
  lemma {:induction false} EncodeAppend(a: string, b: string)
    ensures EncodeURIComponent(a + b) == EncodeURIComponent(a) + EncodeURIComponent(b)
    decreases |a|
  {
    if |a| > 0 {
      assert (a + b)[0] == a[0];
      assert (a + b)[1..] == a[1..] + b;
      EncodeAppend(a[1..], b);
    } else {
      assert a + b == b;
    }
  }
}
