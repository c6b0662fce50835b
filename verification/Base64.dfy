/**
  Base64 as sections 4 and 5 of RFC 4648 define it, and the strict unpadded Base64URL of the trust and witness code.
*/
module Base64 {
  import opened Options

  type Byte = x: int | 0 <= x < 256

  type Sextet = x: int | 0 <= x < 64

  // ----- three bytes, four sextets ---------------------------------------------------------------------------

  /** The four sextets of three bytes. */
  function Group(a: Byte, b: Byte, c: Byte): seq<Sextet>
  {
    var x: int, y: int, z: int := a, b, c;
    [x / 4, (x % 4) * 16 + y / 16, (y % 16) * 4 + z / 64, z % 64]
  }

  /** The three bytes of four sextets. */
  function Ungroup(p: Sextet, q: Sextet, r: Sextet, s: Sextet): seq<Byte>
  {
    var w: int, x: int, y: int, z: int := p, q, r, s;
    [w * 4 + x / 16, (x % 16) * 16 + y / 4, (y % 4) * 64 + z]
  }

  function Sextets(bytes: seq<Byte>): seq<Sextet>
  {
    if |bytes| == 0 then []
    else if |bytes| == 1 then Group(bytes[0], 0, 0)[..2]
    else if |bytes| == 2 then Group(bytes[0], bytes[1], 0)[..3]
    else Group(bytes[0], bytes[1], bytes[2]) + Sextets(bytes[3..])
  }

  /** The lenient inverse: bits left over at the end are dropped. */
  function Unsextets(s: seq<Sextet>): seq<Byte>
  {
    if |s| < 2 then []
    else if |s| == 2 then Ungroup(s[0], s[1], 0, 0)[..1]
    else if |s| == 3 then Ungroup(s[0], s[1], s[2], 0)[..2]
    else Ungroup(s[0], s[1], s[2], s[3]) + Unsextets(s[4..])
  }

  lemma GroupArithmetic(a: int, b: int, c: int)
    requires 0 <= a < 256 && 0 <= b < 256 && 0 <= c < 256
    ensures var p, q, r, s := a / 4, (a % 4) * 16 + b / 16, (b % 16) * 4 + c / 64, c % 64;
            p * 4 + q / 16 == a && (q % 16) * 16 + r / 4 == b && (r % 4) * 64 + s == c
  {
  }

  lemma GroupInverts(a: Byte, b: Byte, c: Byte)
    ensures var g := Group(a, b, c); Ungroup(g[0], g[1], g[2], g[3]) == [a, b, c]
  {
    GroupArithmetic(a, b, c);
  }

  lemma PairInverts(a: Byte, b: Byte)
    ensures var g := Group(a, b, 0); Ungroup(g[0], g[1], g[2], 0)[..2] == [a, b]
  {
    GroupArithmetic(a, b, 0);
  }

  lemma SingleInverts(a: Byte)
    ensures var g := Group(a, 0, 0); Ungroup(g[0], g[1], 0, 0)[..1] == [a]
  {
    GroupArithmetic(a, 0, 0);
  }

  lemma {:induction false} SextetsInvert(bytes: seq<Byte>)
    ensures Unsextets(Sextets(bytes)) == bytes
    decreases |bytes|
  {
    if |bytes| >= 3 {
      GroupInverts(bytes[0], bytes[1], bytes[2]);
      SextetsInvert(bytes[3..]);
      var all := Sextets(bytes);
      assert all[4..] == Sextets(bytes[3..]);
      assert bytes == bytes[..3] + bytes[3..];
    } else if |bytes| == 2 {
      PairInverts(bytes[0], bytes[1]);
    } else if |bytes| == 1 {
      SingleInverts(bytes[0]);
    }
  }

  lemma {:induction false} SextetsLength(bytes: seq<Byte>)
    ensures |Sextets(bytes)| % 4 == (if |bytes| % 3 == 0 then 0 else |bytes| % 3 + 1)
    decreases |bytes|
  {
    if |bytes| >= 3 {
      SextetsLength(bytes[3..]);
      FourMore(bytes);
      GroupsCount(|bytes| - 3, |Sextets(bytes[3..])|);
    } else {
      FewSextets(bytes);
    }
  }

  lemma FourMore(bytes: seq<Byte>)
    requires |bytes| >= 3
    ensures |Sextets(bytes)| == 4 + |Sextets(bytes[3..])|
  {
    assert |Group(bytes[0], bytes[1], bytes[2])| == 4;
  }

  lemma FewSextets(bytes: seq<Byte>)
    requires |bytes| < 3
    ensures |Sextets(bytes)| == (if |bytes| == 0 then 0 else |bytes| + 1)
  {
  }

  lemma GroupsCount(bytes: nat, sextets: nat)
    ensures (bytes + 3) % 3 == bytes % 3 && (sextets + 4) % 4 == sextets % 4
  {
  }

  // ----- the two alphabets -----------------------------------------------------------------------------------

  datatype Alphabet = Standard | UrlSafe

  function Letter(s: Sextet, alphabet: Alphabet): char
  {
    if s < 26 then 'A' + s as char
    else if s < 52 then 'a' + (s - 26) as char
    else if s < 62 then '0' + (s - 52) as char
    else if s == 62 then (if alphabet.Standard? then '+' else '-')
    else (if alphabet.Standard? then '/' else '_')
  }

  function Value(c: char, alphabet: Alphabet): Option<Sextet>
  {
    if 'A' <= c <= 'Z' then Some((c - 'A') as int)
    else if 'a' <= c <= 'z' then Some((c - 'a') as int + 26)
    else if '0' <= c <= '9' then Some((c - '0') as int + 52)
    else if c == (if alphabet.Standard? then '+' else '-') then Some(62)
    else if c == (if alphabet.Standard? then '/' else '_') then Some(63)
    else None
  }

  lemma LetterInverts(s: Sextet, alphabet: Alphabet)
    ensures Value(Letter(s, alphabet), alphabet) == Some(s) && Letter(s, alphabet) != '='
    ensures 0x21 <= Letter(s, alphabet) as int <= 0x7E
  {
  }

  function Letters(s: seq<Sextet>, alphabet: Alphabet): string
  {
    if s == [] then [] else [Letter(s[0], alphabet)] + Letters(s[1..], alphabet)
  }

  /** None when a character is outside the alphabet. */
  function Values(text: string, alphabet: Alphabet): Option<seq<Sextet>>
  {
    if text == [] then Some([])
    else
      var first, rest := Value(text[0], alphabet), Values(text[1..], alphabet);
      if first.None? || rest.None? then None else Some([first.value] + rest.value)
  }

  lemma {:induction false} LettersInvert(s: seq<Sextet>, alphabet: Alphabet)
    ensures |Letters(s, alphabet)| == |s| && Values(Letters(s, alphabet), alphabet) == Some(s)
    ensures forall i :: 0 <= i < |s| ==>
        Letters(s, alphabet)[i] != '=' && 0x21 <= Letters(s, alphabet)[i] as int <= 0x7E
    decreases |s|
  {
    if s != [] {
      LetterInverts(s[0], alphabet);
      LettersInvert(s[1..], alphabet);
      var text := Letters(s, alphabet);
      assert text[0] == Letter(s[0], alphabet) && text[1..] == Letters(s[1..], alphabet);
      assert Values(text, alphabet) == Some([s[0]] + s[1..]);
      assert s == [s[0]] + s[1..];
    }
  }

  // ----- padded text -----------------------------------------------------------------------------------------

  function Padding(length: nat): string
  {
    if length % 3 == 1 then "==" else if length % 3 == 2 then "=" else ""
  }

  /** `b64encode` and `urlsafe_b64encode`. */
  function Padded(bytes: seq<Byte>, alphabet: Alphabet): string
  {
    Letters(Sextets(bytes), alphabet) + Padding(|bytes|)
  }

  function WithoutPadding(text: string): string
  {
    if text != [] && text[|text| - 1] == '=' then WithoutPadding(text[..|text| - 1]) else text
  }

  lemma PaddingComesOff(letters: string, length: nat)
    requires forall i :: 0 <= i < |letters| ==> letters[i] != '='
    ensures WithoutPadding(letters + Padding(length)) == letters
  {
    if length % 3 == 2 {
      OneComesOff(letters);
    } else if length % 3 == 1 {
      OneComesOff(letters + "=");
      OneComesOff(letters);
      assert letters + "=" + "=" == letters + "==";
    } else {
      assert letters + "" == letters;
    }
  }

  lemma OneComesOff(text: string)
    ensures WithoutPadding(text + "=") == WithoutPadding(text)
  {
    assert (text + "=")[..|text|] == text;
  }

  // ----- unpadded Base64URL ----------------------------------------------------------------------------------

  function UrlEncode(bytes: seq<Byte>): string { WithoutPadding(Padded(bytes, UrlSafe)) }

  /** `b64url_decode`; None raises. */
  function UrlDecode(text: string): Option<seq<Byte>>
  {
    if |text| % 4 == 1 then None
    else match Values(text, UrlSafe)
      case None => None
      case Some(s) => if UrlEncode(Unsextets(s)) != text then None else Some(Unsextets(s))
  }

  lemma UrlEncodeIsLetters(bytes: seq<Byte>)
    ensures UrlEncode(bytes) == Letters(Sextets(bytes), UrlSafe)
  {
    LettersInvert(Sextets(bytes), UrlSafe);
    PaddingComesOff(Letters(Sextets(bytes), UrlSafe), |bytes|);
  }

  /** Decoding undoes encoding, for all bytes. */
  lemma UrlRoundTrip(bytes: seq<Byte>)
    ensures UrlDecode(UrlEncode(bytes)) == Some(bytes)
  {
    UrlEncodeIsLetters(bytes);
    LettersInvert(Sextets(bytes), UrlSafe);
    SextetsInvert(bytes);
    SextetsLength(bytes);
  }

  /** And a text is accepted only as the encoding of what it decodes to, so no two texts decode alike. */
  lemma UrlCanonical(text: string, bytes: seq<Byte>)
    ensures UrlDecode(text) == Some(bytes) <==> text == UrlEncode(bytes)
  {
    UrlRoundTrip(bytes);
  }

  /** Without the comparison on the way back texts would decode alike: the last four bits of a pair do not matter. */
  lemma LenientCollides(p: Sextet, q: Sextet, r: Sextet)
    requires q / 16 == r / 16
    ensures Unsextets([p, q]) == Unsextets([p, r])
    ensures UrlDecode(Letters([p, q], UrlSafe)).Some? <==> q % 16 == 0
  {
    var text := Letters([p, q], UrlSafe);
    LettersInvert([p, q], UrlSafe);
    var byte := Unsextets([p, q]);
    UrlEncodeIsLetters(byte);
    assert Sextets(byte) == [p, q / 16 * 16] by { PairBack(p, q); }
    if q % 16 != 0 {
      LettersInvert(Sextets(byte), UrlSafe);
      assert Sextets(byte)[1] != [p, q][1];
    }
  }

  lemma PairBack(p: Sextet, q: Sextet)
    ensures Sextets(Unsextets([p, q])) == [p, q / 16 * 16]
  {
    var b := Ungroup(p, q, 0, 0)[0];
    assert Unsextets([p, q]) == [b];
    assert Group(b, 0, 0)[..2] == [b / 4, (b % 4) * 16];
  }

  // ----- standard Base64, padded -----------------------------------------------------------------------------

  /** Decoding of a padded text whose letters are sound. */
  function StandardDecode(text: string): Option<seq<Byte>>
  {
    match Values(WithoutPadding(text), Standard)
    case None => None
    case Some(s) => Some(Unsextets(s))
  }

  lemma StandardRoundTrip(bytes: seq<Byte>)
    ensures StandardDecode(Padded(bytes, Standard)) == Some(bytes)
    ensures forall i :: 0 <= i < |Padded(bytes, Standard)| ==> 0x21 <= Padded(bytes, Standard)[i] as int <= 0x7E
  {
    var s := Sextets(bytes);
    LettersInvert(s, Standard);
    var letters := Letters(s, Standard);
    PaddingComesOff(letters, |bytes|);
    SextetsInvert(bytes);
    PaddedPrintable(letters, |bytes|);
  }

  lemma PaddedPrintable(letters: string, length: nat)
    requires forall i :: 0 <= i < |letters| ==> 0x21 <= letters[i] as int <= 0x7E
    ensures forall i :: 0 <= i < |letters + Padding(length)| ==> 0x21 <= (letters + Padding(length))[i] as int <= 0x7E
  {
  }
}
