/**
  Text in an HTTP header: values outside the field syntax of section 5.5 of RFC 9110 travel as marked Base64 of their
  UTF-8 bytes. A character is a Unicode scalar value, so every text has a UTF-8 encoding.
*/
module Headers {
  import opened Options
  import opened Base64

  // ----- UTF-8 -----------------------------------------------------------------------------------------------

  function Utf8Char(c: char): (bytes: seq<Byte>)
    ensures 1 <= |bytes| <= 4
  {
    var n := c as int;
    if n < 0x80 then [n]
    else if n < 0x800 then [0xC0 + n / 64, 0x80 + n % 64]
    else if n < 0x10000 then [0xE0 + n / 4096, 0x80 + n / 64 % 64, 0x80 + n % 64]
    else [0xF0 + n / 262144, 0x80 + n / 4096 % 64, 0x80 + n / 64 % 64, 0x80 + n % 64]
  }

  function Utf8(text: string): seq<Byte>
  {
    if text == [] then [] else Utf8Char(text[0]) + Utf8(text[1..])
  }

  /** How many bytes the first character takes, told from its first byte. */
  function Width(first: Byte): nat
  {
    if first < 0x80 then 1 else if first < 0xE0 then 2 else if first < 0xF0 then 3 else 4
  }

  predicate IsScalar(n: int) { 0 <= n < 0xD800 || 0xE000 <= n < 0x11_0000 }

  function CodePoint(b: seq<Byte>): int
    requires 1 <= |b| <= 4
  {
    var x: int := b[0];
    if |b| == 1 then x
    else
      var y: int := b[1];
      if |b| == 2 then (x - 0xC0) * 64 + (y - 0x80)
      else
        var z: int := b[2];
        if |b| == 3 then (x - 0xE0) * 4096 + (y - 0x80) * 64 + (z - 0x80)
        else (x - 0xF0) * 262144 + (y - 0x80) * 4096 + (z - 0x80) * 64 + (b[3] as int - 0x80)
  }

  /** The reader's decoder, as far as it accepts what the encoder writes. */
  function FromUtf8(bytes: seq<Byte>): Option<string>
    decreases |bytes|
  {
    if bytes == [] then Some("")
    else if Width(bytes[0]) > |bytes| then None
    else
      var w := Width(bytes[0]);
      var n := CodePoint(bytes[..w]);
      var rest := FromUtf8(bytes[w..]);
      if !IsScalar(n) || rest.None? then None else Some([n as char] + rest.value)
  }

  lemma BaseSixtyFour(n: nat)
    ensures n == n / 64 * 64 + n % 64
    ensures n / 64 == n / 4096 * 64 + n / 64 % 64
    ensures n / 4096 == n / 262144 * 64 + n / 4096 % 64
  {
    assert n / 4096 == n / 64 / 64;
    assert n / 262144 == n / 4096 / 64;
  }

  lemma LongInverts(n: nat)
    requires 0x10000 <= n < 0x11_0000
    ensures n / 262144 <= 4
    ensures n == n / 262144 * 262144 + n / 4096 % 64 * 4096 + n / 64 % 64 * 64 + n % 64
  {
    BaseSixtyFour(n);
  }

  lemma MiddleInverts(n: nat)
    requires 0x800 <= n < 0x10000
    ensures n / 4096 <= 15 && n == n / 4096 * 4096 + n / 64 % 64 * 64 + n % 64
  {
    BaseSixtyFour(n);
  }

  lemma Utf8CharInverts(c: char)
    ensures Width(Utf8Char(c)[0]) == |Utf8Char(c)| && CodePoint(Utf8Char(c)) == c as int && IsScalar(c as int)
  {
    var n := c as int;
    if n >= 0x10000 {
      LongInverts(n);
    } else if n >= 0x800 {
      MiddleInverts(n);
    }
  }

  lemma {:induction false} Utf8Inverts(text: string)
    ensures FromUtf8(Utf8(text)) == Some(text)
    decreases |text|
  {
    if text != [] {
      var first, rest := Utf8Char(text[0]), Utf8(text[1..]);
      Utf8CharInverts(text[0]);
      Utf8Inverts(text[1..]);
      var all := first + rest;
      assert all[..|first|] == first && all[|first|..] == rest && all[0] == first[0];
      assert text == [text[0]] + text[1..];
    }
  }

  // ----- field values ----------------------------------------------------------------------------------------

  const PREFIX := "=?base64?"
  const SUFFIX := "?="

  /** What `strip` takes off the ends. */
  predicate IsSpace(c: char)
  {
    var n := c as int;
    || 9 <= n <= 13 || 28 <= n <= 32 || n in {0x85, 0xA0, 0x1680, 0x2028, 0x2029, 0x202F, 0x205F, 0x3000}
    || 0x2000 <= n <= 0x200A
  }

  predicate Stripped(value: string)
  {
    value == [] || (!IsSpace(value[0]) && !IsSpace(value[|value| - 1]))
  }

  predicate FieldChar(c: char) { 0x21 <= c as int <= 0x7E || c == ' ' || c == '\t' }

  predicate FieldChars(value: string) { forall i :: 0 <= i < |value| ==> FieldChar(value[i]) }

  /** `is_header_safe`. */
  predicate HeaderSafe(value: string) { Stripped(value) && FieldChars(value) }

  predicate StartsWith(text: string, prefix: string) { |prefix| <= |text| && text[..|prefix|] == prefix }

  predicate EndsWith(text: string, suffix: string) { |suffix| <= |text| && text[|text| - |suffix|..] == suffix }

  predicate LooksMarked(value: string) { StartsWith(value, PREFIX) && EndsWith(value, SUFFIX) }

  predicate PlainHeader(value: string) { !LooksMarked(value) && HeaderSafe(value) }

  function Marked(value: string): string { PREFIX + Padded(Utf8(value), Standard) + SUFFIX }

  /** `header_value`. */
  function HeaderValue(value: string): string
  {
    if PlainHeader(value) then value else Marked(value)
  }

  /** What the server does with a field: a marked value is decoded, any other is the text itself. */
  function Unmarked(field: string): Option<string>
  {
    if !LooksMarked(field) then Some(field)
    else if |field| < |PREFIX| + |SUFFIX| then None
    else match StandardDecode(field[|PREFIX|..|field| - |SUFFIX|])
      case None => None
      case Some(bytes) => FromUtf8(bytes)
  }

  lemma MarkedParts(value: string)
    ensures var field := Marked(value);
            LooksMarked(field) && field[|PREFIX|..|field| - |SUFFIX|] == Padded(Utf8(value), Standard)
  {
    var middle := Padded(Utf8(value), Standard);
    var field := PREFIX + middle + SUFFIX;
    assert field[..|PREFIX|] == PREFIX && field[|field| - |SUFFIX|..] == SUFFIX;
  }

  lemma FieldCharsJoin(a: string, b: string)
    requires FieldChars(a) && FieldChars(b)
    ensures FieldChars(a + b)
  {
  }

  lemma PaddedIsField(bytes: seq<Byte>)
    ensures FieldChars(Padded(bytes, Standard))
  {
    StandardRoundTrip(bytes);
  }

  lemma MiddleIsSafe(middle: string)
    requires FieldChars(middle)
    ensures HeaderSafe(PREFIX + middle + SUFFIX)
  {
    FieldCharsJoin(PREFIX, middle);
    FieldCharsJoin(PREFIX + middle, SUFFIX);
    var field := PREFIX + middle + SUFFIX;
    assert field[0] == '=' && field[|field| - 1] == '=';
  }

  lemma MarkedIsSafe(value: string)
    ensures HeaderSafe(Marked(value))
  {
    PaddedIsField(Utf8(value));
    MiddleIsSafe(Padded(Utf8(value), Standard));
  }

  /** Every text goes out safe for a header and comes back as it was, those that look like the marker included. */
  lemma HeaderRoundTrip(value: string)
    ensures HeaderSafe(HeaderValue(value)) && Unmarked(HeaderValue(value)) == Some(value)
  {
    if !PlainHeader(value) {
      MarkedParts(value);
      MarkedIsSafe(value);
      StandardRoundTrip(Utf8(value));
      Utf8Inverts(value);
    }
  }

  /** So two different texts never share a header value. */
  lemma HeaderInjective(a: string, b: string)
    requires HeaderValue(a) == HeaderValue(b)
    ensures a == b
  {
    HeaderRoundTrip(a);
    HeaderRoundTrip(b);
  }
}
