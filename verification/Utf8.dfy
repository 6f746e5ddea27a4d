/**
  UTF-8 as the transcoder meets it: Go's rune iteration over a string, which
  replaces each byte that starts no character by U+FFFD, and the encoding of a
  code point (sections 3 and 4 of RFC 3629).
*/
module Utf8 {
  import opened Common

  const RUNE_ERROR := 0xFFFD

  predicate Continues(b: Byte) {
    0x80 <= b < 0xC0
  }

  /** Second bytes that rule out overlong forms and surrogates. */
  predicate SecondOfThree(b: Byte, c: Byte) {
    Continues(c) && (b == 0xE0 ==> c >= 0xA0) && (b == 0xED ==> c < 0xA0)
  }

  predicate SecondOfFour(b: Byte, c: Byte) {
    Continues(c) && (b == 0xF0 ==> c >= 0x90) && (b == 0xF4 ==> c < 0x90)
  }

  /** The length of the character s starts with, 0 if it starts with none. */
  function CharSize(s: Bytes): (n: nat)
    requires s != []
    ensures n <= |s|
  {
    var b := s[0];
    if b < 0x80 then 1
    else if 0xC2 <= b < 0xE0 && |s| >= 2 && Continues(s[1]) then 2
    else if 0xE0 <= b < 0xF0 && |s| >= 3 && SecondOfThree(b, s[1]) && Continues(s[2]) then 3
    else if 0xF0 <= b < 0xF5 && |s| >= 4 && SecondOfFour(b, s[1]) && Continues(s[2]) && Continues(s[3]) then 4
    else 0
  }

  function CodePoint(s: Bytes): nat
    requires s != [] && CharSize(s) > 0
  {
    match CharSize(s)
    case 1 => s[0]
    case 2 => Digits(0, 0, s[0] - 0xC0, s[1] - 0x80)
    case 3 => Digits(0, s[0] - 0xE0, s[1] - 0x80, s[2] - 0x80)
    case _ => Digits(s[0] - 0xF0, s[1] - 0x80, s[2] - 0x80, s[3] - 0x80)
  }

  /** Four base-64 digits. */
  function Digits(a: nat, b: nat, c: nat, d: nat): nat {
    a * 0x40000 + b * 0x1000 + c * 0x40 + d
  }

  /** One step of `for _, r := range s`: the rune and how many bytes it took. */
  function NextRune(s: Bytes): (nat, nat)
    requires s != []
  {
    if CharSize(s) > 0 then (CodePoint(s), CharSize(s)) else (RUNE_ERROR, 1)
  }

  /** WriteRune: surrogates and values past U+10FFFF are written as U+FFFD. */
  function EncodeRune(r: nat): Bytes {
    if r < 0x80 then [r]
    else if r < 0x800 then [0xC0 + r / 0x40, 0x80 + r % 0x40]
    else if 0xD800 <= r < 0xE000 || r > 0x10FFFF then [0xEF, 0xBF, 0xBD]
    else if r < 0x10000 then [0xE0 + r / 0x1000, 0x80 + r / 0x40 % 0x40, 0x80 + r % 0x40]
    else [0xF0 + r / 0x40000, 0x80 + r / 0x1000 % 0x40, 0x80 + r / 0x40 % 0x40, 0x80 + r % 0x40]
  }

  predicate Valid(s: Bytes) {
    s == [] || (CharSize(s) > 0 && Valid(s[CharSize(s)..]))
  }

  lemma DigitsOf(a: nat, b: nat, c: nat, d: nat)
    requires b < 0x40 && c < 0x40 && d < 0x40
    ensures var r := Digits(a, b, c, d);
            && r / 0x40000 == a && r / 0x1000 % 0x40 == b && r / 0x40 % 0x40 == c && r % 0x40 == d
            && (a == 0 ==> r / 0x1000 == b) && (a == 0 && b == 0 ==> r / 0x40 == c)
  {
    var r := Digits(a, b, c, d);
    assert r / 0x1000 == a * 0x40 + b;
    assert r / 0x40 == a * 0x1000 + b * 0x40 + c;
  }

  /** Writing back the rune of a character gives the character. */
  lemma EncodeDecoded(s: Bytes)
    requires s != [] && CharSize(s) > 0
    ensures EncodeRune(CodePoint(s)) == s[..CharSize(s)]
    ensures CodePoint(s) < 0x80 <==> CharSize(s) == 1
  {
    if CharSize(s) == 2 {
      DigitsOf(0, 0, s[0] - 0xC0, s[1] - 0x80);
    } else if CharSize(s) == 3 {
      EncodeThree(s);
    } else if CharSize(s) == 4 {
      EncodeFour(s);
    }
  }

  lemma EncodeThree(s: Bytes)
    requires s != [] && CharSize(s) == 3
    ensures EncodeRune(CodePoint(s)) == s[..3] && CodePoint(s) >= 0x800
  {
    DigitsOf(0, s[0] - 0xE0, s[1] - 0x80, s[2] - 0x80);
  }

  lemma EncodeFour(s: Bytes)
    requires s != [] && CharSize(s) == 4
    ensures EncodeRune(CodePoint(s)) == s[..4] && CodePoint(s) >= 0x10000
  {
    DigitsOf(s[0] - 0xF0, s[1] - 0x80, s[2] - 0x80, s[3] - 0x80);
  }

  /** The four base-64 digits of a number below 2^24. */
  lemma DigitsBack(r: nat)
    requires r < 0x100_0000
    ensures r == Digits(r / 0x40000, r / 0x1000 % 0x40, r / 0x40 % 0x40, r % 0x40)
    ensures r < 0x40000 ==> r / 0x1000 == r / 0x1000 % 0x40
    ensures r < 0x1000 ==> r / 0x40 == r / 0x40 % 0x40
  {
    assert r / 0x40 / 0x40 == r / 0x1000 && r / 0x1000 / 0x40 == r / 0x40000;
  }

  /** Every scalar value is written as one character, which is read as that value: with EncodeDecoded, exactly those. */
  lemma ScalarsRoundTrip(r: nat, rest: Bytes)
    requires r < 0xD800 || 0xE000 <= r <= 0x10FFFF
    ensures CharSize(EncodeRune(r) + rest) == |EncodeRune(r)| > 0
    ensures CodePoint(EncodeRune(r) + rest) == r
    ensures |EncodeRune(r)| == if r < 0x80 then 1 else if r < 0x800 then 2 else if r < 0x10000 then 3 else 4
  {
    DigitsBack(r);
    if r < 0x800 {
    } else if r < 0x10000 {
      ThreeRoundTrip(r, rest);
    } else {
      FourRoundTrip(r, rest);
    }
    hide Continues, SecondOfThree, SecondOfFour;
  }

  lemma ThreeRoundTrip(r: nat, rest: Bytes)
    requires 0x800 <= r < 0xD800 || 0xE000 <= r < 0x10000
    ensures CharSize(EncodeRune(r) + rest) == |EncodeRune(r)| == 3
    ensures CodePoint(EncodeRune(r) + rest) == r
  {
    DigitsBack(r);
  }

  lemma FourRoundTrip(r: nat, rest: Bytes)
    requires 0x10000 <= r <= 0x10FFFF
    ensures CharSize(EncodeRune(r) + rest) == |EncodeRune(r)| == 4
    ensures CodePoint(EncodeRune(r) + rest) == r
  {
    DigitsBack(r);
  }

  /** The bytes of a longer character are all at least 0x80; so is a byte that starts none. */
  lemma HighBytes(s: Bytes)
    requires s != [] && CharSize(s) != 1
    ensures s[0] >= 0x80
    ensures forall i :: 0 <= i < CharSize(s) ==> s[i] >= 0x80
  {
  }

  /** s with every byte that belongs to no character replaced by U+FFFD. */
  function Sanitize(s: Bytes): Bytes {
    if s == [] then []
    else if CharSize(s) > 0 then s[..CharSize(s)] + Sanitize(s[CharSize(s)..])
    else [0xEF, 0xBF, 0xBD] + Sanitize(s[1..])
  }

  lemma {:induction false} SanitizeKeepsValid(s: Bytes)
    requires Valid(s)
    ensures Sanitize(s) == s
  {
    if s != [] { SanitizeKeepsValid(s[CharSize(s)..]); }
  }

  /** What sanitizing leaves is valid, so only valid strings survive it unchanged. */
  lemma {:induction false} SanitizeIsValid(s: Bytes)
    ensures Valid(Sanitize(s))
  {
    if s != [] {
      var n := CharSize(s);
      var t := Sanitize(s);
      if n > 0 {
        SanitizeIsValid(s[n..]);
        PrefixChar(s[..n], s, t);
        assert t[n..] == Sanitize(s[n..]);
      } else {
        SanitizeIsValid(s[1..]);
        assert CharSize(t) == 3;
        assert t[3..] == Sanitize(s[1..]);
      }
    }
  }

  /** Whether a string starts with a character depends only on the character's bytes. */
  lemma PrefixChar(c: Bytes, s: Bytes, t: Bytes)
    requires s != [] && |c| == CharSize(s) > 0 && c <= s && c <= t
    ensures CharSize(t) == |c| && CodePoint(t) == CodePoint(s)
  {
    assert forall i :: 0 <= i < |c| ==> t[i] == c[i] == s[i];
  }
}
