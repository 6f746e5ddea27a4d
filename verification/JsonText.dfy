/**
  The text of JSON strings: the transcoder's two escapers and the RFC 8259
  section 7 reader that undoes them.
*/
module JsonText {
  import opened Common
  import opened Utf8

  const QUOTE: Byte := 34
  const BACKSLASH: Byte := 92

  function HexDigit(n: nat): Byte
    requires n < 16
  {
    if n < 10 then 48 + n else 87 + n
  }

  /** The escapes both loops share, for a character below 0x80. */
  function EscapeAscii(c: Byte): Bytes
    requires c < 0x80
  {
    if c == QUOTE then [BACKSLASH, QUOTE]
    else if c == BACKSLASH then [BACKSLASH, BACKSLASH]
    else if c == 10 then [BACKSLASH, 110]
    else if c == 13 then [BACKSLASH, 114]
    else if c == 9 then [BACKSLASH, 116]
    else if c == 8 then [BACKSLASH, 98]
    else if c == 12 then [BACKSLASH, 102]
    else if c < 0x20 then [BACKSLASH, 117, 48, 48, HexDigit(c / 16), HexDigit(c % 16)]
    else [c]
  }

  /** One turn of writeJSONStringBytes. */
  function EscapeByte(b: Byte): Bytes {
    if b < 0x80 then EscapeAscii(b) else [b]
  }

  /** One turn of writeJSONString. */
  function EscapeRune(r: nat): Bytes {
    if r < 0x80 then EscapeAscii(r) else EncodeRune(r)
  }

  function EscapeBytes(s: Bytes): Bytes {
    if s == [] then [] else EscapeByte(s[0]) + EscapeBytes(s[1..])
  }

  function EscapeRunes(s: Bytes): Bytes {
    if s == [] then []
    else
      var (r, n) := NextRune(s);
      EscapeRune(r) + EscapeRunes(s[n..])
  }

  /** The escapes to the byte: seven short ones, lower-case hexadecimal for other control characters, nothing else. */
  lemma EscapesAre(b: Byte)
    ensures EscapeByte(34) == [92, 34] && EscapeByte(92) == [92, 92] && EscapeByte(10) == [92, 110] && EscapeByte(13) == [92, 114]
    ensures EscapeByte(9) == [92, 116] && EscapeByte(8) == [92, 98] && EscapeByte(12) == [92, 102]
    ensures b < 32 && b !in {8, 9, 10, 12, 13} ==>
              |EscapeByte(b)| == 6 && EscapeByte(b)[..5] == [92, 117, 48, 48, 48 + b / 16]
              && EscapeByte(b)[5] == [48, 49, 50, 51, 52, 53, 54, 55, 56, 57, 97, 98, 99, 100, 101, 102][b % 16]
    ensures b >= 32 && b != 34 && b != 92 ==> EscapeByte(b) == [b]
  {
  }

  function Quoted(body: Bytes): Bytes {
    [QUOTE] + body + [QUOTE]
  }

  lemma {:induction false} EscapeBytesConcat(a: Bytes, b: Bytes)
    ensures EscapeBytes(a + b) == EscapeBytes(a) + EscapeBytes(b)
  {
    if a == [] {
      assert a + b == b;
    } else {
      assert (a + b)[1..] == a[1..] + b;
      EscapeBytesConcat(a[1..], b);
    }
  }

  lemma {:induction false} HighBytesUnchanged(s: Bytes)
    requires forall i :: 0 <= i < |s| ==> s[i] >= 0x80
    ensures EscapeBytes(s) == s
  {
    if s != [] { HighBytesUnchanged(s[1..]); }
  }

  /** One rune of the first loop is one character of the second. */
  lemma RuneIsItsBytes(s: Bytes)
    requires s != [] && CharSize(s) > 0
    ensures EscapeRune(CodePoint(s)) == EscapeBytes(s[..CharSize(s)])
  {
    EncodeDecoded(s);
    var c := s[..CharSize(s)];
    if CharSize(s) == 1 {
      assert c[1..] == [];
    } else {
      HighBytes(s);
      HighBytesUnchanged(c);
    }
  }

  /** The rune loop writes what the byte loop writes for the sanitized string. */
  lemma {:induction false} RuneLoopSanitizes(s: Bytes)
    ensures EscapeRunes(s) == EscapeBytes(Sanitize(s))
  {
    if s != [] {
      var n := CharSize(s);
      if n > 0 {
        RuneLoopSanitizes(s[n..]);
        RuneIsItsBytes(s);
        EscapeBytesConcat(s[..n], Sanitize(s[n..]));
      } else {
        RuneLoopSanitizes(s[1..]);
        var e: Bytes := [0xEF, 0xBF, 0xBD];
        HighBytesUnchanged(e);
        EscapeBytesConcat(e, Sanitize(s[1..]));
      }
    }
  }

  /** The two escapers agree on exactly the valid UTF-8 strings. */
  lemma EscapersAgree(s: Bytes)
    ensures EscapeRunes(s) == EscapeBytes(s) <==> Valid(s)
  {
    RuneLoopSanitizes(s);
    if Valid(s) {
      SanitizeKeepsValid(s);
    } else {
      if EscapeRunes(s) == EscapeBytes(s) {
        UnescapeUndoes(s, []);
        UnescapeUndoes(Sanitize(s), []);
        assert Sanitize(s) == s;
        SanitizeIsValid(s);
      }
    }
  }

  // ------------------------------------------------------------------ reading

  /** What a reader has taken off the front of its input. */
  datatype Parsed<+T> = Failed | Parsed(value: T, rest: Bytes)

  function HexValue(b: Byte): Option<nat> {
    if 48 <= b < 58 then Some(b - 48)
    else if 97 <= b < 103 then Some(b - 87)
    else if 65 <= b < 71 then Some(b - 55)
    else None
  }

  /** The four hex digits after \u. */
  function HexFour(s: Bytes): Option<nat> {
    if |s| < 4 then None
    else
      match (HexValue(s[0]), HexValue(s[1]), HexValue(s[2]), HexValue(s[3]))
      case (Some(a), Some(b), Some(c), Some(d)) => Some(a * 4096 + b * 256 + c * 16 + d)
      case _ => None
  }

  /** One escape, after its backslash: the bytes it stands for. */
  function ReadEscape(s: Bytes): (p: Parsed<Bytes>)
    ensures p.Parsed? ==> |p.rest| < |s|
  {
    if s == [] then Failed
    else if s[0] == 34 || s[0] == 92 || s[0] == 47 then Parsed([s[0]], s[1..])
    else if s[0] == 98 then Parsed([8], s[1..])
    else if s[0] == 102 then Parsed([12], s[1..])
    else if s[0] == 110 then Parsed([10], s[1..])
    else if s[0] == 114 then Parsed([13], s[1..])
    else if s[0] == 116 then Parsed([9], s[1..])
    else if s[0] == 117 then
      match HexFour(s[1..])
      case None => Failed
      case Some(hi) =>
        var after := s[5..];
        if 0xD800 <= hi < 0xDC00 && |after| >= 2 && after[0] == 92 && after[1] == 117
           && HexFour(after[2..]).Some? && 0xDC00 <= HexFour(after[2..]).value < 0xE000 then
          Parsed(EncodeRune(0x10000 + (hi - 0xD800) * 0x400 + (HexFour(after[2..]).value - 0xDC00)), after[6..])
        else Parsed(EncodeRune(hi), after)
    else Failed
  }

  /** The rest of a string, after its opening quote: its bytes and what follows the closing quote. */
  function ReadString(s: Bytes): (p: Parsed<Bytes>)
    ensures p.Parsed? ==> |p.rest| < |s|
  {
    if s == [] || s[0] < 0x20 then Failed
    else if s[0] == 34 then Parsed([], s[1..])
    else if s[0] == 92 then
      var e := ReadEscape(s[1..]);
      if e.Failed? then Failed
      else
        var more := ReadString(e.rest);
        if more.Failed? then Failed else Parsed(e.value + more.value, more.rest)
    else
      var more := ReadString(s[1..]);
      if more.Failed? then Failed else Parsed([s[0]] + more.value, more.rest)
  }

  /** One escaped byte in front of anything reads back as that byte. */
  lemma EscapedByteReadsBack(b: Byte, t: Bytes)
    ensures ReadString(EscapeByte(b) + t)
            == match ReadString(t) case Failed => Failed case Parsed(v, rest) => Parsed([b] + v, rest)
  {
    var e := EscapeByte(b);
    var s := e + t;
    if |e| == 1 {
      assert s[1..] == t;
    } else if |e| == 2 {
      assert s[1..][1..] == t;
      assert ReadEscape(s[1..]) == Parsed([b], t);
    } else {
      var u := s[1..];
      assert u[5..] == t;
      assert u[1..][0] == 48 && u[1..][1] == 48 && u[1..][2] == HexDigit(b / 16) && u[1..][3] == HexDigit(b % 16);
      assert HexFour(u[1..]) == Some(b);
      assert ReadEscape(u) == Parsed([b], t);
    }
  }

  /**
    An escaped body and its closing quote form one JSON string that reads back as
    the original and ends exactly there: no quote inside is left unescaped.
  */
  lemma {:induction false} UnescapeUndoes(s: Bytes, rest: Bytes)
    ensures ReadString(EscapeBytes(s) + [QUOTE] + rest) == Parsed(s, rest)
  {
    if s == [] {
      assert EscapeBytes(s) + [QUOTE] + rest == [QUOTE] + rest;
    } else {
      UnescapeUndoes(s[1..], rest);
      assert EscapeBytes(s) + [QUOTE] + rest == EscapeByte(s[0]) + (EscapeBytes(s[1..]) + [QUOTE] + rest);
      EscapedByteReadsBack(s[0], EscapeBytes(s[1..]) + [QUOTE] + rest);
      assert [s[0]] + s[1..] == s;
    }
  }

  /** The key escaper's string reads back as the sanitized key. */
  lemma UnescapeKey(key: Bytes, rest: Bytes)
    ensures ReadString(EscapeRunes(key) + [QUOTE] + rest) == Parsed(Sanitize(key), rest)
    ensures Valid(key) ==> ReadString(EscapeRunes(key) + [QUOTE] + rest) == Parsed(key, rest)
  {
    RuneLoopSanitizes(key);
    UnescapeUndoes(Sanitize(key), rest);
    if Valid(key) { SanitizeKeepsValid(key); }
  }
}
