/** Percent-encoding as used by `URLSearchParams.toString()` (the
    application/x-www-form-urlencoded serializer of section 5.2 of the WHATWG
    URL Standard) and by `encodeURIComponent` (ECMAScript), over UTF-8. */
module UrlEncoding {

  type byte = b: int | 0 <= b < 256

  /** The UTF-8 encoding of one Unicode scalar value. */
  function Utf8(c: char): (r: seq<byte>)
    ensures 1 <= |r| <= 4
    ensures |r| == 1 <==> c as int < 0x80
    ensures |r| == 1 ==> r[0] == c as int
  {
    var n := c as int;
    if n < 0x80 then [n]
    else if n < 0x800 then [0xC0 + n / 64, 0x80 + n % 64]
    else if n < 0x10000 then [0xE0 + n / 4096, 0x80 + (n / 64) % 64, 0x80 + n % 64]
    else [0xF0 + n / 262144, 0x80 + (n / 4096) % 64, 0x80 + (n / 64) % 64, 0x80 + n % 64]
  }

  function Utf8String(s: string): seq<byte> {
    if s == [] then [] else Utf8(s[0]) + Utf8String(s[1..])
  }

  function HexDigit(d: nat): (c: char)
    requires d < 16
    ensures IsHexDigit(c) && HexValue(c) == d
  {
    if d < 10 then ('0' as int + d) as char else ('A' as int + d - 10) as char
  }

  predicate IsHexDigit(c: char) {
    '0' <= c <= '9' || 'A' <= c <= 'F' || 'a' <= c <= 'f'
  }

  function HexValue(c: char): nat
    requires IsHexDigit(c)
  {
    if '0' <= c <= '9' then c as int - '0' as int
    else if 'A' <= c <= 'F' then c as int - 'A' as int + 10
    else c as int - 'a' as int + 10
  }

  /** `%XY` with upper-case hex digits for one byte. */
  function Triple(x: byte): (r: string)
    ensures |r| == 3 && r[0] == '%' && IsHexDigit(r[1]) && IsHexDigit(r[2])
    ensures HexValue(r[1]) * 16 + HexValue(r[2]) == x
    ensures forall i | 0 <= i < 3 :: r[i] as int < 0x80 && (IsAsciiAlphanumeric(r[i]) || r[i] == '%')
  {
    ['%', HexDigit(x / 16), HexDigit(x % 16)]
  }

  /** `%XY` with upper-case hex digits for each byte. */
  function PercentBytes(bs: seq<byte>): (r: string)
    ensures |r| == 3 * |bs|
  {
    if bs == [] then [] else Triple(bs[0]) + PercentBytes(bs[1..])
  }

  predicate IsAsciiAlphanumeric(c: char) {
    '0' <= c <= '9' || 'A' <= c <= 'Z' || 'a' <= c <= 'z'
  }

  /** Code points the form serializer leaves as they are. */
  predicate FormSafe(c: char) {
    IsAsciiAlphanumeric(c) || c == '*' || c == '-' || c == '.' || c == '_'
  }

  /** Code points `encodeURIComponent` leaves as they are. */
  predicate ComponentSafe(c: char) {
    IsAsciiAlphanumeric(c) || c == '-' || c == '_' || c == '.' || c == '!' || c == '~' ||
    c == '*' || c == '\'' || c == '(' || c == ')'
  }

  function FormEncodeChar(c: char): string {
    if FormSafe(c) then [c] else if c == ' ' then "+" else PercentBytes(Utf8(c))
  }

  /** The application/x-www-form-urlencoded byte serializer applied to a string. */
  function FormEncode(s: string): string {
    if s == [] then [] else FormEncodeChar(s[0]) + FormEncode(s[1..])
  }

  function ComponentEncodeChar(c: char): string {
    if ComponentSafe(c) then [c] else PercentBytes(Utf8(c))
  }

  /** `encodeURIComponent(s)`. */
  function ComponentEncode(s: string): string {
    if s == [] then [] else ComponentEncodeChar(s[0]) + ComponentEncode(s[1..])
  }

  // ---------------------------------------------------------------------------
  // Output alphabet

  /** Every character of a form-encoded string is safe, '+', '%' or a hex digit:
      in particular it never contains '&' or '=', so a serialized pair list splits back unambiguously. */
  predicate FormAlphabet(s: string) {
    forall i | 0 <= i < |s| :: FormSafe(s[i]) || s[i] == '+' || s[i] == '%'
  }

  predicate ComponentAlphabet(s: string) {
    forall i | 0 <= i < |s| :: ComponentSafe(s[i]) || s[i] == '%'
  }

  lemma {:induction false} PercentBytesAlphabet(bs: seq<byte>)
    ensures FormAlphabet(PercentBytes(bs)) && ComponentAlphabet(PercentBytes(bs))
  {
    if bs != [] {
      PercentBytesAlphabet(bs[1..]);
      var h := Triple(bs[0]);
      var t := PercentBytes(bs[1..]);
      assert PercentBytes(bs) == h + t;
      forall i | 0 <= i < |h + t| ensures FormSafe((h + t)[i]) || (h + t)[i] == '%' {
        if i >= 3 { assert (h + t)[i] == t[i - 3]; }
      }
    }
  }

  lemma FormAlphabetAppend(a: string, b: string)
    requires FormAlphabet(a) && FormAlphabet(b)
    ensures FormAlphabet(a + b)
  {
    forall i | 0 <= i < |a + b| ensures FormSafe((a + b)[i]) || (a + b)[i] == '+' || (a + b)[i] == '%' {
      if i >= |a| { assert (a + b)[i] == b[i - |a|]; } else { assert (a + b)[i] == a[i]; }
    }
  }

  lemma ComponentAlphabetAppend(a: string, b: string)
    requires ComponentAlphabet(a) && ComponentAlphabet(b)
    ensures ComponentAlphabet(a + b)
  {
    forall i | 0 <= i < |a + b| ensures ComponentSafe((a + b)[i]) || (a + b)[i] == '%' {
      if i >= |a| { assert (a + b)[i] == b[i - |a|]; } else { assert (a + b)[i] == a[i]; }
    }
  }

  lemma {:induction false} FormEncodeAlphabet(s: string)
    ensures FormAlphabet(FormEncode(s))
    ensures forall i | 0 <= i < |FormEncode(s)| :: FormEncode(s)[i] != '&' && FormEncode(s)[i] != '='
  {
    if s != [] {
      FormEncodeAlphabet(s[1..]);
      PercentBytesAlphabet(Utf8(s[0]));
      assert FormAlphabet(FormEncodeChar(s[0]));
      FormAlphabetAppend(FormEncodeChar(s[0]), FormEncode(s[1..]));
    }
  }

  lemma {:induction false} ComponentEncodeAlphabet(s: string)
    ensures ComponentAlphabet(ComponentEncode(s))
  {
    if s != [] {
      ComponentEncodeAlphabet(s[1..]);
      PercentBytesAlphabet(Utf8(s[0]));
      assert ComponentAlphabet(ComponentEncodeChar(s[0]));
      ComponentAlphabetAppend(ComponentEncodeChar(s[0]), ComponentEncode(s[1..]));
    }
  }

  // ---------------------------------------------------------------------------
  // Decoding: the percent-decoding step of the form parser, up to UTF-8 bytes

  /** Percent-decodes a string of ASCII characters to bytes; `plusAsSpace` selects the form variant. */
  function PercentDecode(s: string, plusAsSpace: bool): seq<byte>
    requires forall i | 0 <= i < |s| :: s[i] as int < 0x80
  {
    if s == [] then []
    else if s[0] == '%' && |s| >= 3 && IsHexDigit(s[1]) && IsHexDigit(s[2]) then
      [HexValue(s[1]) * 16 + HexValue(s[2])] + PercentDecode(s[3..], plusAsSpace)
    else if s[0] == '+' && plusAsSpace then [0x20] + PercentDecode(s[1..], plusAsSpace)
    else [s[0] as int] + PercentDecode(s[1..], plusAsSpace)
  }

  predicate Ascii(s: string) {
    forall i | 0 <= i < |s| :: s[i] as int < 0x80
  }

  lemma AsciiAppend(a: string, b: string)
    requires Ascii(a) && Ascii(b)
    ensures Ascii(a + b)
  {
    forall i | 0 <= i < |a + b| ensures (a + b)[i] as int < 0x80 {
      if i >= |a| { assert (a + b)[i] == b[i - |a|]; }
    }
  }

  lemma {:induction false} PercentBytesAscii(bs: seq<byte>)
    ensures Ascii(PercentBytes(bs))
  {
    if bs != [] {
      PercentBytesAscii(bs[1..]);
      AsciiAppend(Triple(bs[0]), PercentBytes(bs[1..]));
    }
  }

  /** One `%XY` triple decodes to its byte. */
  lemma PercentTripleDecode(x: byte, t: string, plusAsSpace: bool)
    requires Ascii(t)
    ensures Ascii(Triple(x) + t)
    ensures PercentDecode(Triple(x) + t, plusAsSpace)
         == [x] + PercentDecode(t, plusAsSpace)
  {
    var h := Triple(x);
    AsciiAppend(h, t);
    assert (h + t)[3..] == t;
    assert (h + t)[0] == '%' && (h + t)[1] == h[1] && (h + t)[2] == h[2];
    assert HexValue(h[1]) * 16 + HexValue(h[2]) == x;
  }

  /** The first triple of a non-empty encoding, split off in front of what follows it. */
  lemma PercentBytesCons(bs: seq<byte>, rest: string)
    requires bs != []
    ensures PercentBytes(bs) + rest
         == Triple(bs[0]) + (PercentBytes(bs[1..]) + rest)
  {
  }

  lemma {:induction false} PercentBytesDecode(bs: seq<byte>, rest: string, plusAsSpace: bool)
    requires Ascii(rest)
    ensures Ascii(PercentBytes(bs) + rest)
    ensures PercentDecode(PercentBytes(bs) + rest, plusAsSpace) == bs + PercentDecode(rest, plusAsSpace)
  {
    PercentBytesAscii(bs);
    AsciiAppend(PercentBytes(bs), rest);
    if bs != [] {
      var t := PercentBytes(bs[1..]) + rest;
      var d := PercentDecode(rest, plusAsSpace);
      PercentBytesDecode(bs[1..], rest, plusAsSpace);
      PercentBytesCons(bs, rest);
      PercentTripleDecode(bs[0], t, plusAsSpace);
      assert bs + d == [bs[0]] + (bs[1..] + d);
    } else {
      assert PercentBytes(bs) + rest == rest;
    }
  }

  /** Decoding a form-encoded string gives back the UTF-8 bytes of the original. */
  lemma {:induction false} FormEncodeRoundTrip(s: string)
    ensures Ascii(FormEncode(s))
    ensures PercentDecode(FormEncode(s), true) == Utf8String(s)
  {
    if s != [] {
      FormEncodeRoundTrip(s[1..]);
      var c := s[0];
      var t := FormEncode(s[1..]);
      if FormSafe(c) {
        assert FormEncode(s) == [c] + t;
        assert ([c] + t)[1..] == t;
      } else if c == ' ' {
        assert FormEncode(s) == "+" + t;
        assert ("+" + t)[1..] == t;
      } else {
        PercentBytesDecode(Utf8(c), t, true);
      }
    }
  }

  /** Decoding an `encodeURIComponent` result gives back the UTF-8 bytes of the original. */
  lemma {:induction false} ComponentEncodeRoundTrip(s: string)
    ensures Ascii(ComponentEncode(s))
    ensures PercentDecode(ComponentEncode(s), false) == Utf8String(s)
  {
    if s != [] {
      ComponentEncodeRoundTrip(s[1..]);
      var c := s[0];
      var t := ComponentEncode(s[1..]);
      if ComponentSafe(c) {
        assert ComponentEncode(s) == [c] + t;
        assert ([c] + t)[1..] == t;
      } else {
        PercentBytesDecode(Utf8(c), t, false);
      }
    }
  }

  // ---------------------------------------------------------------------------
  // Pair lists

  /** The form serializer over a list of name/value pairs: `name=value` joined with '&'. */
  function SerializePairs(pairs: seq<(string, string)>): (r: string)
    ensures pairs == [] <==> r == ""
  {
    if pairs == [] then ""
    else
      var first := FormEncode(pairs[0].0) + "=" + FormEncode(pairs[0].1);
      if |pairs| == 1 then first else first + "&" + SerializePairs(pairs[1..])
  }

  /** One '&' separates each pair from the next: the number of pairs is recoverable from the string. */
  lemma {:induction false} SerializeSeparators(pairs: seq<(string, string)>)
    ensures |Ampersands(SerializePairs(pairs))| == if pairs == [] then 0 else |pairs| - 1
  {
    if pairs != [] {
      var a := FormEncode(pairs[0].0);
      var b := FormEncode(pairs[0].1);
      FormEncodeAlphabet(pairs[0].0);
      FormEncodeAlphabet(pairs[0].1);
      NoAmpersands(a);
      NoAmpersands(b);
      NoAmpersands("=");
      AmpersandsConcat(a, "=");
      AmpersandsConcat(a + "=", b);
      if |pairs| > 1 {
        var rest := SerializePairs(pairs[1..]);
        SerializeSeparators(pairs[1..]);
        assert SerializePairs(pairs) == (a + "=" + b) + ("&" + rest);
        AmpersandsConcat(a + "=" + b, "&" + rest);
        AmpersandsConcat("&", rest);
        assert Ampersands("&") == [0] + Shift(Ampersands(""));
      }
    }
  }

  /** Positions of '&' in a string. */
  function Ampersands(s: string): seq<nat> {
    if s == [] then []
    else
      var rest := Ampersands(s[1..]);
      if s[0] == '&' then [0] + Shift(rest) else Shift(rest)
  }

  function Shift(xs: seq<nat>): (r: seq<nat>)
    ensures |r| == |xs|
  {
    if xs == [] then [] else [xs[0] + 1] + Shift(xs[1..])
  }

  lemma {:induction false} NoAmpersands(s: string)
    requires forall i | 0 <= i < |s| :: s[i] != '&'
    ensures Ampersands(s) == []
  {
    if s != [] {
      NoAmpersands(s[1..]);
    }
  }

  lemma {:induction false} AmpersandsConcat(a: string, b: string)
    ensures |Ampersands(a + b)| == |Ampersands(a)| + |Ampersands(b)|
  {
    if a != [] {
      assert (a + b)[1..] == a[1..] + b;
      AmpersandsConcat(a[1..], b);
    } else {
      assert a + b == b;
    }
  }
}
