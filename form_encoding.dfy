/**
 * The application/x-www-form-urlencoded serializer of the WHATWG URL
 * Standard (section 5.2), used for query parameters: a string is first
 * encoded as UTF-8 (RFC 3629), then every byte becomes itself (the
 * unreserved set `*-._`, ASCII digits and letters), `+` (the space) or
 * `%XX` with upper-case hexadecimal digits.
 *
 * The decoders (UTF-8 and the form parser of the same section) are the
 * reference against which the encoder is proved: decoding an encoded
 * string gives back the string.
 */
module FormEncoding {
  import opened Http

  // ---------------------------------------------------------------------
  // UTF-8
  // ---------------------------------------------------------------------

  /** The UTF-8 encoding of one Unicode scalar value. */
  function Utf8Char(c: char): (bs: seq<byte>)
    ensures 1 <= |bs| <= 4
    ensures (bs[0] < 0x80) == (c as int < 0x80)
  {
    var cp := c as int;
    if cp < 0x80 then [cp]
    else if cp < 0x800 then [0xC0 + cp / 64, 0x80 + cp % 64]
    else if cp < 0x10000 then [0xE0 + cp / 4096, 0x80 + (cp / 64) % 64, 0x80 + cp % 64]
    else [0xF0 + cp / 262144, 0x80 + (cp / 4096) % 64, 0x80 + (cp / 64) % 64, 0x80 + cp % 64]
  }

  function Utf8Encode(s: string): seq<byte> {
    if s == [] then [] else Utf8Char(s[0]) + Utf8Encode(s[1..])
  }

  predicate IsContinuation(b: byte) {
    0x80 <= b < 0xC0
  }

  /**
   * The scalar value encoded at the head of `bs` and the number of bytes
   * it takes; None for a malformed head (a stray continuation byte, an
   * overlong form, a surrogate, a value above U+10FFFF or a truncation).
   */
  function DecodeFirst(bs: seq<byte>): (r: Option<(char, nat)>)
    requires |bs| > 0
    ensures r.Some? ==> 1 <= r.value.1 <= |bs|
  {
    var b0: int := bs[0];
    if b0 < 0x80 then
      Some((b0 as char, 1))
    else if 0xC2 <= b0 < 0xE0 && |bs| >= 2 && IsContinuation(bs[1]) then
      Some((((b0 - 0xC0) * 64 + (bs[1] as int - 0x80)) as char, 2))
    else if 0xE0 <= b0 < 0xF0 && |bs| >= 3 && IsContinuation(bs[1]) && IsContinuation(bs[2]) then
      var cp := (b0 - 0xE0) * 4096 + (bs[1] as int - 0x80) * 64 + (bs[2] as int - 0x80);
      if 0x800 <= cp && !(0xD800 <= cp < 0xE000) then Some((cp as char, 3)) else None
    else if 0xF0 <= b0 < 0xF5 && |bs| >= 4
            && IsContinuation(bs[1]) && IsContinuation(bs[2]) && IsContinuation(bs[3]) then
      var cp := (b0 - 0xF0) * 262144 + (bs[1] as int - 0x80) * 4096 + (bs[2] as int - 0x80) * 64
                + (bs[3] as int - 0x80);
      if 0x10000 <= cp < 0x110000 then Some((cp as char, 4)) else None
    else
      None
  }

  /** Strict UTF-8 decoding: None when any part of `bs` is malformed. */
  function Utf8Decode(bs: seq<byte>): Option<string>
    decreases |bs|
  {
    if bs == [] then Some("")
    else
      match DecodeFirst(bs)
      case None => None
      case Some((c, n)) =>
        match Utf8Decode(bs[n..])
        case None => None
        case Some(s) => Some([c] + s)
  }

  lemma DecodeFirstOfChar(c: char, rest: seq<byte>)
    ensures DecodeFirst(Utf8Char(c) + rest) == Some((c, |Utf8Char(c)|))
  {
    var cp := c as int;
    if cp < 0x80 {
    } else if cp < 0x800 {
      DecodeTwoBytes(cp, Utf8Char(c) + rest);
    } else if cp < 0x10000 {
      DecodeThreeBytes(cp, Utf8Char(c) + rest);
    } else {
      DecodeFourBytes(cp, Utf8Char(c) + rest);
    }
  }

  lemma DecodeTwoBytes(cp: int, bs: seq<byte>)
    requires 0x80 <= cp < 0x800 && |bs| >= 2
    requires bs[0] == 0xC0 + cp / 64 && bs[1] == 0x80 + cp % 64
    ensures (bs[0] as int - 0xC0) * 64 + (bs[1] as int - 0x80) == cp
    ensures 0xC2 <= bs[0] < 0xE0 && IsContinuation(bs[1])
  {
  }

  lemma DecodeThreeBytes(cp: int, bs: seq<byte>)
    requires 0x800 <= cp < 0x10000 && |bs| >= 3
    requires bs[0] == 0xE0 + cp / 4096 && bs[1] == 0x80 + (cp / 64) % 64 && bs[2] == 0x80 + cp % 64
    ensures (bs[0] as int - 0xE0) * 4096 + (bs[1] as int - 0x80) * 64 + (bs[2] as int - 0x80) == cp
    ensures 0xE0 <= bs[0] < 0xF0 && IsContinuation(bs[1]) && IsContinuation(bs[2])
  {
    var q := cp / 64;
    assert cp == q * 64 + cp % 64;
    assert q == (q / 64) * 64 + q % 64;
    assert cp / 4096 == q / 64;
  }

  lemma DecodeFourBytes(cp: int, bs: seq<byte>)
    requires 0x10000 <= cp < 0x110000 && |bs| >= 4
    requires bs[0] == 0xF0 + cp / 262144 && bs[1] == 0x80 + (cp / 4096) % 64
    requires bs[2] == 0x80 + (cp / 64) % 64 && bs[3] == 0x80 + cp % 64
    ensures (bs[0] as int - 0xF0) * 262144 + (bs[1] as int - 0x80) * 4096 + (bs[2] as int - 0x80) * 64
            + (bs[3] as int - 0x80) == cp
    ensures 0xF0 <= bs[0] < 0xF5 && IsContinuation(bs[1]) && IsContinuation(bs[2]) && IsContinuation(bs[3])
  {
    var q := cp / 64;
    var q2 := q / 64;
    assert cp == q * 64 + cp % 64;
    assert q == q2 * 64 + q % 64;
    assert q2 == (q2 / 64) * 64 + q2 % 64;
    assert cp / 4096 == q2;
    assert cp / 262144 == q2 / 64;
  }

  /** Decoding what Utf8Encode produced gives the string back. */
  lemma {:induction false} Utf8RoundTrip(s: string)
    ensures Utf8Decode(Utf8Encode(s)) == Some(s)
  {
    if s != [] {
      var head, tail := Utf8Char(s[0]), Utf8Encode(s[1..]);
      DecodeFirstOfChar(s[0], tail);
      assert (head + tail)[|head|..] == tail;
      Utf8RoundTrip(s[1..]);
      assert [s[0]] + s[1..] == s;
    }
  }

  lemma {:induction false} Utf8EncodeAppend(a: string, b: string)
    ensures Utf8Encode(a + b) == Utf8Encode(a) + Utf8Encode(b)
  {
    if a == [] {
      assert a + b == b;
    } else {
      assert (a + b)[0] == a[0] && (a + b)[1..] == a[1..] + b;
      Utf8EncodeAppend(a[1..], b);
    }
  }

  // ---------------------------------------------------------------------
  // The byte serializer
  // ---------------------------------------------------------------------

  /** The bytes the serializer leaves as themselves: `*`, `-`, `.`, `_`, ASCII digits and letters. */
  predicate IsUnreservedByte(b: byte) {
    b == 0x2A || b == 0x2D || b == 0x2E || 0x30 <= b <= 0x39 || 0x41 <= b <= 0x5A || b == 0x5F || 0x61 <= b <= 0x7A
  }

  /** An upper-case hexadecimal digit. */
  function HexDigit(n: int): (d: char)
    requires 0 <= n < 16
    ensures '0' <= d <= '9' || 'A' <= d <= 'F'
  {
    if n < 10 then (0x30 + n) as char else (0x41 + n - 10) as char
  }

  function SerializeByte(b: byte): string {
    if b == 0x20 then "+"
    else if IsUnreservedByte(b) then [b as char]
    else ['%', HexDigit(b / 16), HexDigit(b % 16)]
  }

  function SerializeBytes(bs: seq<byte>): string {
    if bs == [] then "" else SerializeByte(bs[0]) + SerializeBytes(bs[1..])
  }

  /**
   * The form-urlencoded serialization of a string: only `+`, `%` and
   * unreserved characters, and the parser reads it back to the string.
   */
  function FormEncode(s: string): (e: string)
    ensures forall c :: c in e ==> IsFormSafe(c)
    ensures FormDecode(e) == Some(s)
  {
    SerializeBytesSafe(Utf8Encode(s));
    PercentDecodeSerialized(Utf8Encode(s));
    Utf8RoundTrip(s);
    SerializeBytes(Utf8Encode(s))
  }

  // ---------------------------------------------------------------------
  // The parser (reference decoder)
  // ---------------------------------------------------------------------

  predicate IsHexDigit(c: char) {
    '0' <= c <= '9' || 'A' <= c <= 'F' || 'a' <= c <= 'f'
  }

  function HexValue(c: char): (n: int)
    requires IsHexDigit(c)
    ensures 0 <= n < 16
  {
    if '0' <= c <= '9' then c as int - 0x30
    else if 'A' <= c <= 'F' then c as int - 0x41 + 10
    else c as int - 0x61 + 10
  }

  /** `+` becomes a space, `%XX` its byte, any other character its UTF-8 bytes. */
  function PercentDecode(s: string): seq<byte> {
    if s == [] then []
    else if s[0] == '+' then [0x20] + PercentDecode(s[1..])
    else if s[0] == '%' && |s| >= 3 && IsHexDigit(s[1]) && IsHexDigit(s[2]) then
      [HexValue(s[1]) * 16 + HexValue(s[2])] + PercentDecode(s[3..])
    else Utf8Char(s[0]) + PercentDecode(s[1..])
  }

  /** The form-urlencoded parse of one name or value; None when the bytes are not UTF-8. */
  function FormDecode(s: string): Option<string> {
    Utf8Decode(PercentDecode(s))
  }

  // ---------------------------------------------------------------------
  // Properties of the serializer
  // ---------------------------------------------------------------------

  /** The characters the serializer can produce. */
  predicate IsFormSafe(c: char) {
    c == '+' || c == '%' || (c as int < 0x80 && IsUnreservedByte(c as int))
  }

  lemma HexDigitRoundTrip(n: int)
    requires 0 <= n < 16
    ensures IsHexDigit(HexDigit(n)) && HexValue(HexDigit(n)) == n
  {
  }

  lemma PercentDecodeSerializedByte(b: byte, rest: string)
    ensures PercentDecode(SerializeByte(b) + rest) == [b] + PercentDecode(rest)
  {
    var s := SerializeByte(b) + rest;
    if b == 0x20 {
      assert s[1..] == rest;
    } else if IsUnreservedByte(b) {
      assert s[0] == b as char && s[1..] == rest;
      assert Utf8Char(b as char) == [b];
    } else {
      HexDigitRoundTrip(b / 16);
      HexDigitRoundTrip(b % 16);
      assert s[0] == '%' && s[1] == HexDigit(b / 16) && s[2] == HexDigit(b % 16) && s[3..] == rest;
    }
  }

  lemma {:induction false} PercentDecodeSerialized(bs: seq<byte>)
    ensures PercentDecode(SerializeBytes(bs)) == bs
  {
    if bs != [] {
      PercentDecodeSerializedByte(bs[0], SerializeBytes(bs[1..]));
      PercentDecodeSerialized(bs[1..]);
      assert [bs[0]] + bs[1..] == bs;
    }
  }

  /** Parsing what FormEncode produced gives the string back. */
  lemma FormRoundTrip(s: string)
    ensures FormDecode(FormEncode(s)) == Some(s)
  {
    PercentDecodeSerialized(Utf8Encode(s));
    Utf8RoundTrip(s);
  }

  lemma {:induction false} SerializeBytesSafe(bs: seq<byte>)
    ensures forall c :: c in SerializeBytes(bs) ==> IsFormSafe(c)
  {
    if bs != [] {
      SerializeBytesSafe(bs[1..]);
      assert forall c :: c in SerializeByte(bs[0]) ==> IsFormSafe(c);
    }
  }

  /**
   * Every character of an encoded string is `+`, `%` or unreserved; in
   * particular it holds no `&`, `=` or `?`, so it cannot split a query.
   */
  lemma FormEncodeSafe(s: string)
    ensures forall c :: c in FormEncode(s) ==> IsFormSafe(c)
    ensures '&' !in FormEncode(s) && '=' !in FormEncode(s) && '?' !in FormEncode(s)
  {
    SerializeBytesSafe(Utf8Encode(s));
  }

  lemma {:induction false} SerializeBytesAppend(a: seq<byte>, b: seq<byte>)
    ensures SerializeBytes(a + b) == SerializeBytes(a) + SerializeBytes(b)
  {
    if a == [] {
      assert a + b == b;
    } else {
      assert (a + b)[0] == a[0] && (a + b)[1..] == a[1..] + b;
      SerializeBytesAppend(a[1..], b);
    }
  }

  /** Encoding works character by character. */
  lemma FormEncodeAppend(a: string, b: string)
    ensures FormEncode(a + b) == FormEncode(a) + FormEncode(b)
  {
    Utf8EncodeAppend(a, b);
    SerializeBytesAppend(Utf8Encode(a), Utf8Encode(b));
  }

  /** An ASCII character is serialized as its single byte. */
  lemma FormEncodeAscii(c: char)
    requires c as int < 0x80
    ensures FormEncode([c]) == SerializeByte(c as int)
  {
    assert Utf8Encode([c]) == Utf8Char(c) + Utf8Encode([]) == [c as int];
    assert SerializeBytes([c as int]) == SerializeByte(c as int) + SerializeBytes([]);
  }

  /** A space becomes `+`; a letter, digit or one of `*-._` stays as it is; everything else is escaped. */
  lemma FormEncodeChar(c: char)
    requires c as int < 0x80
    ensures c == ' ' ==> FormEncode([c]) == "+"
    ensures IsUnreservedByte(c as int) ==> FormEncode([c]) == [c]
    ensures c != ' ' && !IsUnreservedByte(c as int) ==>
              FormEncode([c]) == ['%', HexDigit(c as int / 16), HexDigit(c as int % 16)]
  {
    FormEncodeAscii(c);
  }

  /** The strings the serializer leaves as they are. */
  predicate AllUnreserved(s: string) {
    forall i :: 0 <= i < |s| ==> s[i] as int < 0x80 && IsUnreservedByte(s[i] as int)
  }

  /** ASCII letters, digits and `*-._` pass through unchanged. */
  lemma {:induction false} FormEncodeUnreserved(s: string)
    requires AllUnreserved(s)
    ensures FormEncode(s) == s
  {
    if s != [] {
      FormEncodeAppend([s[0]], s[1..]);
      assert [s[0]] + s[1..] == s;
      FormEncodeChar(s[0]);
      FormEncodeUnreserved(s[1..]);
    }
  }

  /** Encoding a concatenation of three strings, from the encodings of its parts. */
  lemma FormEncodeJoin3(l: string, x: string, r: string, el: string, ex: string, er: string)
    requires FormEncode(l) == el && FormEncode(x) == ex && FormEncode(r) == er
    ensures FormEncode(l + x + r) == el + ex + er
  {
    FormEncodeAppend(l + x, r);
    FormEncodeAppend(l, x);
  }

  /** An ASCII character outside the unreserved set, other than space, becomes `%` and two hex digits. */
  lemma FormEncodeEscaped(c: char, e: string)
    requires c as int < 0x80 && c != ' ' && !IsUnreservedByte(c as int)
    requires e == ['%', HexDigit(c as int / 16), HexDigit(c as int % 16)]
    ensures FormEncode([c]) == e
  {
    FormEncodeChar(c);
  }

  /** Two unreserved words around a space encode as the words around `+`. */
  lemma FormEncodeSpaced(v: string, a: string, b: string)
    requires AllUnreserved(a) && AllUnreserved(b) && v == a + " " + b
    ensures FormEncode(v) == a + "+" + b
  {
    FormEncodeUnreserved(a);
    FormEncodeUnreserved(b);
    FormEncodeChar(' ');
    FormEncodeJoin3(a, " ", b, a, "+", b);
  }
}
