/** Standard base64 with padding (section 4 of RFC 4648), as written into $bytes. */
module Base64 {
  import opened Common

  const PAD: Byte := 61

  type Sextet = n: int | 0 <= n < 64

  function Symbol(n: Sextet): (b: Byte)
    ensures IsPlain(b)
  {
    if n < 26 then 65 + n
    else if n < 52 then 71 + n
    else if n < 62 then n - 4
    else if n == 62 then 43 else 47
  }

  function Value(b: Byte): Option<Sextet> {
    if 65 <= b < 91 then Some(b - 65)
    else if 97 <= b < 123 then Some(b - 71)
    else if 48 <= b < 58 then Some(b + 4)
    else if b == 43 then Some(62)
    else if b == 47 then Some(63)
    else None
  }

  // The four sextets of three bytes.
  function Sextet0(a: Byte): Sextet { a / 4 }
  function Sextet1(a: Byte, b: Byte): Sextet { a % 4 * 16 + b / 16 }
  function Sextet2(b: Byte, c: Byte): Sextet { b % 16 * 4 + c / 64 }
  function Sextet3(c: Byte): Sextet { c % 64 }

  // The three bytes of four sextets.
  function Byte0(p: Sextet, q: Sextet): Byte { p * 4 + q / 16 }
  function Byte1(q: Sextet, r: Sextet): Byte { q % 16 * 16 + r / 4 }
  function Byte2(r: Sextet, s: Sextet): Byte { r % 4 * 64 + s }

  function Encode(s: Bytes): Bytes {
    if s == [] then []
    else if |s| == 1 then [Symbol(Sextet0(s[0])), Symbol(Sextet1(s[0], 0)), PAD, PAD]
    else if |s| == 2 then
      [Symbol(Sextet0(s[0])), Symbol(Sextet1(s[0], s[1])), Symbol(Sextet2(s[1], 0)), PAD]
    else Quad(s[0], s[1], s[2]) + Encode(s[3..])
  }

  function Quad(a: Byte, b: Byte, c: Byte): Bytes {
    [Symbol(Sextet0(a)), Symbol(Sextet1(a, b)), Symbol(Sextet2(b, c)), Symbol(Sextet3(c))]
  }

  /** A strict reader: padding only at the end, and no stray bits before it. */
  function Decode(t: Bytes): Option<Bytes> {
    if t == [] then Some([])
    else if |t| < 4 then None
    else if Value(t[0]).None? || Value(t[1]).None? then None
    else
      var p, q := Value(t[0]).value, Value(t[1]).value;
      if t[2] == 61 then
        if t[3] == 61 && |t| == 4 && Byte1(q, 0) == 0 then Some([Byte0(p, q)]) else None
      else if Value(t[2]).None? then None
      else
        var r := Value(t[2]).value;
        if t[3] == 61 then
          if |t| == 4 && Byte2(r, 0) == 0 then Some([Byte0(p, q), Byte1(q, r)]) else None
        else if Value(t[3]).None? then None
        else
          match Decode(t[4..])
          case Some(more) => Some([Byte0(p, q), Byte1(q, r), Byte2(r, Value(t[3]).value)] + more)
          case None => None
  }

  /** Table 1 of RFC 4648. */
  lemma SymbolsAreAlphabet(n: Sextet)
    ensures n < 26 ==> Symbol(n) == 'A' as int + n
    ensures 26 <= n < 52 ==> Symbol(n) == 'a' as int + (n - 26)
    ensures 52 <= n < 62 ==> Symbol(n) == '0' as int + (n - 52)
    ensures n == 62 ==> Symbol(n) == '+' as int
    ensures n == 63 ==> Symbol(n) == '/' as int
  {
  }

  lemma SymbolValue(n: Sextet)
    ensures Value(Symbol(n)) == Some(n) && Symbol(n) != PAD
  {
  }

  lemma Recombine(a: Byte, b: Byte, c: Byte)
    ensures Byte0(Sextet0(a), Sextet1(a, b)) == a
    ensures Byte1(Sextet1(a, b), Sextet2(b, c)) == b
    ensures Byte2(Sextet2(b, c), Sextet3(c)) == c
    ensures Byte1(Sextet1(a, 0), 0) == 0 && Byte2(Sextet2(b, 0), 0) == 0
    ensures Byte1(Sextet1(a, b), Sextet2(b, 0)) == b
  {
    hide *;
    RecombineFirst(a, b);
    RecombineSecond(a, b, c);
    RecombineSecond(a, b, 0);
    RecombineThird(b, c);
    NoStrayBits(a, b);
  }

  lemma NoStrayBits(a: Byte, b: Byte)
    ensures Byte1(Sextet1(a, 0), 0) == 0 && Byte2(Sextet2(b, 0), 0) == 0
  {
    NoStrayFour(a);
    NoStrayTwo(b);
    hide *;
  }

  lemma NoStrayFour(a: Byte)
    ensures Byte1(Sextet1(a, 0), 0) == 0
  {
    LowDigit(a % 4, 0);
    assert Sextet1(a, 0) == a % 4 * 16 + 0;
    assert Sextet1(a, 0) % 16 == 0;
    hide Sextet1;
  }

  lemma NoStrayTwo(b: Byte)
    ensures Byte2(Sextet2(b, 0), 0) == 0
  {
    assert Sextet2(b, 0) == b % 16 * 4;
    assert Sextet2(b, 0) % 4 == 0;
    hide Sextet2;
  }

  lemma RecombineFirst(a: Byte, b: Byte)
    ensures Byte0(Sextet0(a), Sextet1(a, b)) == a
  {
  }

  lemma RecombineSecond(a: Byte, b: Byte, c: Byte)
    ensures Byte1(Sextet1(a, b), Sextet2(b, c)) == b
  {
    LowDigit(a % 4, b / 16);
    HighDigit(b % 16, c / 64);
  }

  lemma LowDigit(q: nat, r: nat)
    requires r < 16
    ensures (q * 16 + r) % 16 == r
  {
  }

  lemma HighDigit(q: nat, r: nat)
    requires r < 4
    ensures (q * 4 + r) / 4 == q
  {
  }

  lemma RecombineThird(b: Byte, c: Byte)
    ensures Byte2(Sextet2(b, c), Sextet3(c)) == c
  {
  }

  /** A full quad in front of anything decodes to its three bytes. */
  lemma QuadReadsBack(a: Byte, b: Byte, c: Byte, t: Bytes)
    ensures Decode(Quad(a, b, c) + t)
            == match Decode(t) case None => None case Some(more) => Some([a, b, c] + more)
  {
    Recombine(a, b, c);
    SymbolValue(Sextet0(a));
    SymbolValue(Sextet1(a, b));
    SymbolValue(Sextet2(b, c));
    SymbolValue(Sextet3(c));
    var u := Quad(a, b, c) + t;
    assert u[0] == Symbol(Sextet0(a)) && u[1] == Symbol(Sextet1(a, b));
    assert u[2] == Symbol(Sextet2(b, c)) && u[3] == Symbol(Sextet3(c));
    assert u[4..] == t;
    hide Symbol, Value, Sextet0, Sextet1, Sextet2, Sextet3, Byte0, Byte1, Byte2, Quad;
  }

  lemma PaddedOne(p: Sextet, q: Sextet)
    requires Value(Symbol(p)) == Some(p) && Value(Symbol(q)) == Some(q) && Byte1(q, 0) == 0
    ensures Decode([Symbol(p), Symbol(q), PAD, PAD]) == Some([Byte0(p, q)])
  {
    hide Symbol, Value, Byte0, Byte1, Byte2;
  }

  lemma PaddedTwo(p: Sextet, q: Sextet, r: Sextet)
    requires Value(Symbol(p)) == Some(p) && Value(Symbol(q)) == Some(q)
    requires Value(Symbol(r)) == Some(r) && Symbol(r) != PAD && Byte2(r, 0) == 0
    ensures Decode([Symbol(p), Symbol(q), Symbol(r), PAD]) == Some([Byte0(p, q), Byte1(q, r)])
  {
    hide Symbol, Value, Byte0, Byte1, Byte2;
  }

  lemma OneByteReadsBack(a: Byte)
    ensures Decode(Encode([a])) == Some([a])
  {
    hide Symbol, Value, Sextet0, Sextet1, Byte0, Byte1, Decode;
    Recombine(a, 0, 0);
    SymbolValue(Sextet0(a));
    SymbolValue(Sextet1(a, 0));
    PaddedOne(Sextet0(a), Sextet1(a, 0));
  }

  lemma TwoBytesReadBack(a: Byte, b: Byte)
    ensures Decode(Encode([a, b])) == Some([a, b])
  {
    hide Symbol, Value, Sextet0, Sextet1, Sextet2, Byte0, Byte1, Byte2, Decode;
    Recombine(a, b, 0);
    SymbolValue(Sextet0(a));
    SymbolValue(Sextet1(a, b));
    SymbolValue(Sextet2(b, 0));
    PaddedTwo(Sextet0(a), Sextet1(a, b), Sextet2(b, 0));
  }

  /** Decoding undoes encoding, for every byte string. */
  lemma {:induction false} RoundTrip(s: Bytes)
    ensures Decode(Encode(s)) == Some(s)
  {
    if |s| == 1 {
      OneByteReadsBack(s[0]);
      assert s == [s[0]];
    } else if |s| == 2 {
      TwoBytesReadBack(s[0], s[1]);
      assert s == [s[0], s[1]];
    } else if |s| >= 3 {
      RoundTrip(s[3..]);
      QuadReadsBack(s[0], s[1], s[2], Encode(s[3..]));
      assert [s[0], s[1], s[2]] + s[3..] == s;
      hide Decode, Quad;
    }
  }

  lemma QuadIsPlain(a: Byte, b: Byte, c: Byte)
    ensures AllPlain(Quad(a, b, c))
  {
    hide Symbol, Sextet0, Sextet1, Sextet2, Sextet3, IsPlain;
  }

  lemma PlainConcat(a: Bytes, b: Bytes)
    requires AllPlain(a) && AllPlain(b)
    ensures AllPlain(a + b)
  {
  }

  /** Base64 text needs no escaping in a JSON string. */
  lemma {:induction false} EncodedIsPlain(s: Bytes)
    ensures AllPlain(Encode(s))
  {
    assert IsPlain(PAD);
    hide Symbol, IsPlain, Sextet0, Sextet1, Sextet2, Sextet3, Quad;
    if |s| >= 3 {
      EncodedIsPlain(s[3..]);
      QuadIsPlain(s[0], s[1], s[2]);
      PlainConcat(Quad(s[0], s[1], s[2]), Encode(s[3..]));
      hide AllPlain;
    }
  }

  /** The examples of section 10 of RFC 4648, and the last two symbols. */
  lemma Vectors()
    ensures Encode([]) == []
    ensures Encode([102]) == [90, 103, 61, 61]                                      // f, Zg==
    ensures Encode([102, 111]) == [90, 109, 56, 61]                                 // fo, Zm8=
    ensures Encode([102, 111, 111]) == [90, 109, 57, 118]                           // foo, Zm9v
    ensures Encode([102, 111, 111, 98]) == [90, 109, 57, 118, 89, 103, 61, 61]      // foob, Zm9vYg==
    ensures Encode([102, 111, 111, 98, 97]) == [90, 109, 57, 118, 89, 109, 69, 61]  // fooba, Zm9vYmE=
    ensures Encode([0xFB, 0xEF, 0xBF]) == [43, 43, 43, 47]                          // +++/
  {
    assert [102, 111, 111, 98][3..] == [98] && [102, 111, 111, 98, 97][3..] == [98, 97];
    assert [102, 111, 111][3..] == [] && [0xFB, 0xEF, 0xBF][3..] == [];
    assert Encode([98]) == [89, 103, 61, 61] && Encode([98, 97]) == [89, 109, 69, 61];
  }
}
