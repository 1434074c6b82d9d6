/**
 * Base64 with the standard alphabet and `=` padding, as in section 4 of
 * RFC 4648 (what Node's `Buffer.toString('base64')` produces), with the
 * matching decoder.
 */
module Base64 {
  import opened JsText
  import opened JsCore

  /** The character for a 6-bit value (Table 1 of RFC 4648). */
  function Letter(v: nat): (c: char)
    requires v < 64
  {
    if v < 26 then ('A' as int + v) as char
    else if v < 52 then ('a' as int + v - 26) as char
    else if v < 62 then ('0' as int + v - 52) as char
    else if v == 62 then '+'
    else '/'
  }

  /** The 6-bit value of an alphabet character. */
  function LetterValue(c: char): Option<nat>
  {
    if 'A' <= c <= 'Z' then Some(c as int - 'A' as int)
    else if 'a' <= c <= 'z' then Some(c as int - 'a' as int + 26)
    else if '0' <= c <= '9' then Some(c as int - '0' as int + 52)
    else if c == '+' then Some(62)
    else if c == '/' then Some(63)
    else None
  }

  /** Encodes three octets, or the final one or two with padding. */
  function EncodeGroup(b: seq<byte>): (s: string)
    requires 1 <= |b| <= 3
    ensures |s| == 4
  {
    if |b| == 1 then
      [Letter(b[0] / 4), Letter((b[0] % 4) * 16), '=', '=']
    else if |b| == 2 then
      [Letter(b[0] / 4), Letter((b[0] % 4) * 16 + b[1] / 16), Letter((b[1] % 16) * 4), '=']
    else
      [Letter(b[0] / 4), Letter((b[0] % 4) * 16 + b[1] / 16), Letter((b[1] % 16) * 4 + b[2] / 64), Letter(b[2] % 64)]
  }

  function Encode(b: seq<byte>): (s: string)
    ensures |s| == 4 * ((|b| + 2) / 3)
    decreases |b|
  {
    if |b| == 0 then ""
    else if |b| <= 3 then EncodeGroup(b)
    else
      var rest := Encode(b[3..]);
      assert (|b| + 2) / 3 == (|b[3..]| + 2) / 3 + 1;
      EncodeGroup(b[..3]) + rest
  }

  /** Decodes one group of four characters; `=` may pad the last one or two. */
  function DecodeGroup(g: string): (r: Option<seq<byte>>)
    requires |g| == 4
    ensures r.Some? ==> 1 <= |r.value| <= 3
  {
    var v0, v1, v2, v3 := LetterValue(g[0]), LetterValue(g[1]), LetterValue(g[2]), LetterValue(g[3]);
    if v0.None? || v1.None? || v0.value >= 64 || v1.value >= 64 then None
    else if g[2] == '=' && g[3] == '=' then
      Some([v0.value * 4 + v1.value / 16])
    else if v2.None? || v2.value >= 64 then None
    else if g[3] == '=' then
      Some([v0.value * 4 + v1.value / 16, (v1.value % 16) * 16 + v2.value / 4])
    else if v3.None? || v3.value >= 64 then None
    else
      Some([v0.value * 4 + v1.value / 16, (v1.value % 16) * 16 + v2.value / 4, (v2.value % 4) * 64 + v3.value])
  }

  /** The inverse of `Encode`: groups of four, padding only in the last one. */
  function Decode(s: string): (r: Option<seq<byte>>)
    decreases |s|
  {
    if |s| == 0 then Some([])
    else if |s| < 4 then None
    else
      match DecodeGroup(s[..4])
      case None => None
      case Some(g) =>
        if |s| == 4 then Some(g)
        else if |g| != 3 then None
        else
          match Decode(s[4..])
          case None => None
          case Some(rest) => Some(g + rest)
  }

  /** Each 6-bit value is written as a letter that is not the pad character and reads back as that value. */
  lemma LetterRoundTrip(v: nat)
    requires v < 64
    ensures Letter(v) != '=' && LetterValue(Letter(v)) == Some(v)
  {
  }

  /** The one group decodes back to its octets. */
  lemma DecodeEncodeGroup(b: seq<byte>)
    requires 1 <= |b| <= 3
    ensures DecodeGroup(EncodeGroup(b)) == Some(b)
  {
    if |b| == 1 {
      assert b == [b[0]];
      DecodeOne(b[0]);
    } else if |b| == 2 {
      assert b == [b[0], b[1]];
      DecodeTwo(b[0], b[1]);
    } else {
      assert b == [b[0], b[1], b[2]];
      DecodeThree(b[0], b[1], b[2]);
    }
  }

  /** The octet arithmetic of a group: the 6-bit pieces put back together give the octets. */
  lemma Regroup(x: byte, y: byte, z: byte)
    ensures var v0, v1, v2, v3 := x / 4, (x % 4) * 16 + y / 16, (y % 16) * 4 + z / 64, z % 64;
      && v0 < 64 && v1 < 64 && v2 < 64 && v3 < 64
      && v0 * 4 + v1 / 16 == x && (v1 % 16) * 16 + v2 / 4 == y && (v2 % 4) * 64 + v3 == z
  {
    var v1 := (x % 4) * 16 + y / 16;
    var v2 := (y % 16) * 4 + z / 64;
    assert v1 / 16 == x % 4 && v1 % 16 == y / 16;
    assert v2 / 4 == y % 16 && v2 % 4 == z / 64;
  }

  lemma DecodeOne(x: byte)
    ensures DecodeGroup(EncodeGroup([x])) == Some([x])
  {
    Regroup(x, 0, 0);
    var v0, v1 := x / 4, (x % 4) * 16;
    LetterRoundTrip(v0);
    LetterRoundTrip(v1);
    assert EncodeGroup([x]) == [Letter(v0), Letter(v1), '=', '='];
  }

  lemma DecodeTwo(x: byte, y: byte)
    ensures DecodeGroup(EncodeGroup([x, y])) == Some([x, y])
  {
    Regroup(x, y, 0);
    var v0, v1, v2 := x / 4, (x % 4) * 16 + y / 16, (y % 16) * 4;
    LetterRoundTrip(v0);
    LetterRoundTrip(v1);
    LetterRoundTrip(v2);
    assert EncodeGroup([x, y]) == [Letter(v0), Letter(v1), Letter(v2), '='];
  }

  lemma DecodeThree(x: byte, y: byte, z: byte)
    ensures DecodeGroup(EncodeGroup([x, y, z])) == Some([x, y, z])
  {
    Regroup(x, y, z);
    var v0, v1, v2, v3 := x / 4, (x % 4) * 16 + y / 16, (y % 16) * 4 + z / 64, z % 64;
    LetterRoundTrip(v0);
    LetterRoundTrip(v1);
    LetterRoundTrip(v2);
    LetterRoundTrip(v3);
    assert EncodeGroup([x, y, z]) == [Letter(v0), Letter(v1), Letter(v2), Letter(v3)];
  }

  /** Decoding an encoding gives back the octets: `Buffer.from(x.toString('base64'), 'base64')` is `x`. */
  lemma {:induction false} DecodeEncode(b: seq<byte>)
    ensures Decode(Encode(b)) == Some(b)
    decreases |b|
  {
    if 1 <= |b| <= 3 {
      var s := Encode(b);
      assert s == EncodeGroup(b) && s[..4] == s;
      DecodeEncodeGroup(b);
    } else if |b| > 3 {
      var s := Encode(b);
      var rest := Encode(b[3..]);
      assert s == EncodeGroup(b[..3]) + rest;
      assert |rest| >= 4;
      assert s[..4] == EncodeGroup(b[..3]) && s[4..] == rest;
      DecodeEncodeGroup(b[..3]);
      DecodeEncode(b[3..]);
      assert Decode(s) == Some(b[..3] + b[3..]);
      assert b == b[..3] + b[3..];
    }
  }
}
