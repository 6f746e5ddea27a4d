/**
  A JSON reader (RFC 8259) over bytes, and the proof that it reads back the
  intended value from everything the printer writes.
*/
module JsonParser {
  import opened Common
  import opened Utf8
  import opened JsonText
  import opened CborTree
  import opened JsonPrinter
  import Base64

  datatype Json =
    | JNull
    | JBool(b: bool)
    | JNumber(neg: bool, whole: nat, frac: seq<Digit>, exp: int)
    | JString(s: Bytes)
    | JArray(items: Elements)
    | JObject(members: Members)

  datatype Elements = NoElements | Element(head: Json, tail: Elements)

  datatype Members = NoMembers | Member(key: Bytes, value: Json, more: Members)

  // -------------------------------------------------------------------- numbers

  predicate IsDigit(b: Byte) {
    48 <= b < 58
  }

  function DigitOf(b: Byte): Digit
    requires IsDigit(b)
  {
    var n: int := b;
    n - 48
  }

  function DigitRun(s: Bytes): (n: nat)
    ensures n <= |s|
    ensures forall i :: 0 <= i < n ==> IsDigit(s[i])
  {
    if s == [] || !IsDigit(s[0]) then 0 else 1 + DigitRun(s[1..])
  }

  function DigitsValue(s: Bytes): nat
    requires forall i :: 0 <= i < |s| ==> IsDigit(s[i])
  {
    if s == [] then 0 else DigitsValue(s[..|s| - 1]) * 10 + DigitOf(s[|s| - 1])
  }

  function ToDigits(s: Bytes): seq<Digit>
    requires forall i :: 0 <= i < |s| ==> IsDigit(s[i])
  {
    if s == [] then [] else [DigitOf(s[0])] + ToDigits(s[1..])
  }

  /** The exponent part, if there is one; a lone e is an error. */
  function ReadExp(s: Bytes): (p: Parsed<int>)
    ensures p.Parsed? ==> |p.rest| <= |s|
  {
    if s == [] || (s[0] != 101 && s[0] != 69) then Parsed(0, s)
    else
      var signed := |s| > 1 && (s[1] == 43 || s[1] == 45);
      var t := if signed then s[2..] else s[1..];
      var n := DigitRun(t);
      if n == 0 then Failed
      else
        var e: int := DigitsValue(t[..n]);
        Parsed(if signed && s[1] == 45 then -e else e, t[n..])
  }

  function ReadFrac(s: Bytes): (p: Parsed<seq<Digit>>)
    ensures p.Parsed? ==> |p.rest| <= |s|
  {
    if s == [] || s[0] != 46 then Parsed([], s)
    else
      var n := DigitRun(s[1..]);
      if n == 0 then Failed else Parsed(ToDigits(s[1..][..n]), s[1..][n..])
  }

  /** A number: no leading zeros, digits after a point, digits after an e. */
  function ReadNumber(s: Bytes): (p: Parsed<Json>)
    ensures p.Parsed? ==> |p.rest| < |s|
  {
    if s != [] && s[0] == 45 then ReadUnsigned(true, s[1..]) else ReadUnsigned(false, s)
  }

  function ReadUnsigned(neg: bool, s: Bytes): (p: Parsed<Json>)
    ensures p.Parsed? ==> |p.rest| < |s|
  {
    var n := if s != [] && s[0] == 48 then 1 else DigitRun(s);
    if n == 0 then Failed
    else
      match ReadFrac(s[n..])
      case Failed => Failed
      case Parsed(frac, u) =>
        match ReadExp(u)
        case Failed => Failed
        case Parsed(exp, rest) => Parsed(JNumber(neg, DigitsValue(s[..n]), frac, exp), rest)
  }

  // --------------------------------------------------------------------- values

  function SkipSpace(s: Bytes): (t: Bytes)
    ensures |t| <= |s|
  {
    if s != [] && (s[0] == 32 || s[0] == 9 || s[0] == 10 || s[0] == 13) then SkipSpace(s[1..]) else s
  }

  /** true, false or null. */
  function ReadWord(word: Bytes, v: Json, s: Bytes): (p: Parsed<Json>)
    requires word != []
    ensures p.Parsed? ==> |p.rest| < |s|
  {
    if word <= s then Parsed(v, s[|word|..]) else Failed
  }

  function ReadValue(s: Bytes): (p: Parsed<Json>)
    ensures p.Parsed? ==> |p.rest| < |s|
    decreases |s|, 1
  {
    var t := SkipSpace(s);
    if t == [] then Failed
    else if t[0] == 34 then
      (match ReadString(t[1..]) case Failed => Failed case Parsed(v, rest) => Parsed(JString(v), rest))
    else if t[0] == 91 then ReadArray(t[1..])
    else if t[0] == 123 then ReadObject(t[1..])
    else if t[0] == 116 then ReadWord([116, 114, 117, 101], JBool(true), t)
    else if t[0] == 102 then ReadWord([102, 97, 108, 115, 101], JBool(false), t)
    else if t[0] == 110 then ReadWord([110, 117, 108, 108], JNull, t)
    else ReadNumber(t)
  }

  function ReadArray(s: Bytes): (p: Parsed<Json>)
    ensures p.Parsed? ==> |p.rest| < |s|
    decreases |s|, 3
  {
    var u := SkipSpace(s);
    if u != [] && u[0] == 93 then Parsed(JArray(NoElements), u[1..])
    else match ReadElements(u) case Failed => Failed case Parsed(v, rest) => Parsed(JArray(v), rest)
  }

  function ReadObject(s: Bytes): (p: Parsed<Json>)
    ensures p.Parsed? ==> |p.rest| < |s|
    decreases |s|, 3
  {
    var u := SkipSpace(s);
    if u != [] && u[0] == 125 then Parsed(JObject(NoMembers), u[1..])
    else match ReadMembers(u) case Failed => Failed case Parsed(v, rest) => Parsed(JObject(v), rest)
  }

  /** The items of a non-empty array, after its bracket. */
  function ReadElements(s: Bytes): (p: Parsed<Elements>)
    ensures p.Parsed? ==> |p.rest| < |s|
    decreases |s|, 2
  {
    match ReadValue(s)
    case Failed => Failed
    case Parsed(head, rest) =>
      var t := SkipSpace(rest);
      if t != [] && t[0] == 93 then Parsed(Element(head, NoElements), t[1..])
      else if t != [] && t[0] == 44 then
        (match ReadElements(t[1..]) case Failed => Failed case Parsed(tail, r) => Parsed(Element(head, tail), r))
      else Failed
  }

  /** A member's name and colon. */
  function ReadName(s: Bytes): (p: Parsed<Bytes>)
    ensures p.Parsed? ==> |p.rest| < |s|
  {
    var t := SkipSpace(s);
    if t == [] || t[0] != 34 then Failed
    else
      match ReadString(t[1..])
      case Failed => Failed
      case Parsed(key, rest) =>
        var u := SkipSpace(rest);
        if u == [] || u[0] != 58 then Failed else Parsed(key, u[1..])
  }

  /** The members of a non-empty object, after its brace. */
  function ReadMembers(s: Bytes): (p: Parsed<Members>)
    ensures p.Parsed? ==> |p.rest| < |s|
    decreases |s|, 2
  {
    match ReadName(s)
    case Failed => Failed
    case Parsed(key, afterName) =>
      match ReadValue(afterName)
      case Failed => Failed
      case Parsed(value, rest) =>
        var t := SkipSpace(rest);
        if t != [] && t[0] == 125 then Parsed(Member(key, value, NoMembers), t[1..])
        else if t != [] && t[0] == 44 then
          (match ReadMembers(t[1..]) case Failed => Failed case Parsed(more, r) => Parsed(Member(key, value, more), r))
        else Failed
  }

  /** A whole JSON text: one value and nothing after it but space. */
  function ReadText(s: Bytes): Option<Json> {
    match ReadValue(s)
    case Failed => None
    case Parsed(v, rest) => if SkipSpace(rest) == [] then Some(v) else None
  }

  // ------------------------------------------------------------- intended values

  function Intended(f: Foreign, n: Node): Json {
    match n
    case UInt(x) => JNumber(false, x, [], 0)
    case NInt(x) => JNumber(true, x + 1, [], 0)
    case Text(t) => JString(t)
    case Blob(b) => JObject(Member([36, 98, 121, 116, 101, 115], JString(Base64.Encode(b)), NoMembers))
    case List(items) => JArray(IntendedItems(f, items))
    case Dict(entries) => JObject(IntendedEntries(f, entries))
    case Link(p) => JObject(Member([36, 108, 105, 110, 107], JString(CidText(f, p)), NoMembers))
    case Tagged(_, content) => Intended(f, content)
    case Simple(code) =>
      if code == 20 then JBool(false) else if code == 21 then JBool(true)
      else if code == 22 || code == 23 then JNull else JNumber(false, code, [], 0)
    case Float(_, bits) =>
      match f.float(bits)
      case NotFinite => JNull
      case Finite(neg, whole, frac) => JNumber(neg, whole, frac, 0)
  }

  function IntendedItems(f: Foreign, ns: Nodes): Elements {
    match ns case NoNodes => NoElements case Items(h, t) => Element(Intended(f, h), IntendedItems(f, t))
  }

  /** Members in order, names with invalid UTF-8 replaced. */
  function IntendedEntries(f: Foreign, es: Entries): Members {
    match es
    case NoEntries => NoMembers
    case Entry(k, v, more) => Member(Sanitize(k), Intended(f, v), IntendedEntries(f, more))
  }

  // ----------------------------------------------------------- numbers read back

  /** What may follow a value inside a larger text. */
  predicate Delimited(rest: Bytes) {
    rest == [] || rest[0] == COMMA || rest[0] == CLOSE_LIST || rest[0] == CLOSE_DICT
  }

  lemma {:induction false} RunOfDigits(d: Bytes, rest: Bytes)
    requires forall i :: 0 <= i < |d| ==> IsDigit(d[i])
    requires rest == [] || !IsDigit(rest[0])
    ensures DigitRun(d + rest) == |d|
  {
    if d == [] {
      assert d + rest == rest;
    } else {
      assert (d + rest)[1..] == d[1..] + rest;
      RunOfDigits(d[1..], rest);
    }
  }

  lemma {:induction false} DecimalDigits(n: nat)
    ensures forall i :: 0 <= i < |Decimal(n)| ==> IsDigit(Decimal(n)[i])
    ensures |Decimal(n)| > 0
    ensures DigitsValue(Decimal(n)) == n
    ensures Decimal(n)[0] == 48 <==> n == 0
  {
    if n < 10 {
      assert DigitsValue([]) == 0;
      assert Decimal(n)[..0] == [];
    } else {
      DecimalDigits(n / 10);
      var t := Decimal(n);
      assert t[..|t| - 1] == Decimal(n / 10);
    }
  }

  lemma {:induction false} DigitTextReadsBack(ds: seq<Digit>)
    ensures |DigitText(ds)| == |ds|
    ensures forall i :: 0 <= i < |ds| ==> IsDigit(DigitText(ds)[i])
    ensures ToDigits(DigitText(ds)) == ds
  {
    if ds != [] {
      DigitTextReadsBack(ds[1..]);
      assert DigitText(ds)[1..] == DigitText(ds[1..]);
    }
  }

  lemma FracReadsBack(frac: seq<Digit>, rest: Bytes)
    requires Delimited(rest)
    ensures ReadFrac(FracText(frac) + rest) == Parsed(frac, rest)
  {
    if frac == [] {
      assert FracText(frac) + rest == rest;
    } else {
      var d := DigitText(frac);
      DigitTextReadsBack(frac);
      hide DigitText, ToDigits, DigitRun;
      RunOfDigits(d, rest);
      AfterDot(d, rest);
    }
  }

  lemma AfterDot(d: Bytes, rest: Bytes)
    ensures ([DOT] + d + rest)[0] == DOT && ([DOT] + d + rest)[1..] == d + rest
    ensures (d + rest)[..|d|] == d && (d + rest)[|d|..] == rest
  {
  }

  lemma UnsignedReadsBack(neg: bool, whole: nat, frac: seq<Digit>, rest: Bytes)
    requires Delimited(rest)
    ensures ReadUnsigned(neg, Decimal(whole) + (FracText(frac) + rest)) == Parsed(JNumber(neg, whole, frac, 0), rest)
  {
    var d := Decimal(whole);
    var tail := FracText(frac) + rest;
    DecimalDigits(whole);
    if whole == 0 { assert d == [48]; }
    FracReadsBack(frac, rest);
    assert tail == [] || !IsDigit(tail[0]);
    hide Decimal, DigitRun, DigitsValue, ReadFrac, FracText;
    RunOfDigits(d, tail);
    var s := d + tail;
    assert s[0] == d[0];
    assert s[..|d|] == d && s[|d|..] == tail;
    assert ReadExp(rest) == Parsed(0, rest);
  }

  lemma AfterSign(a: Bytes, b: Bytes, c: Bytes)
    ensures (SignText(true) + a + b + c)[1..] == a + (b + c)
    ensures SignText(false) + a + b + c == a + (b + c)
  {
    assert SignText(true) == [MINUS];
    assert SignText(false) == [];
  }

  /** A printed number reads back digit for digit. */
  lemma NumberReadsBack(neg: bool, whole: nat, frac: seq<Digit>, rest: Bytes)
    requires Delimited(rest)
    ensures ReadNumber(SignText(neg) + Decimal(whole) + FracText(frac) + rest) == Parsed(JNumber(neg, whole, frac, 0), rest)
  {
    hide ReadUnsigned, Decimal, FracText, Delimited;
    UnsignedReadsBack(neg, whole, frac, rest);
    DecimalDigits(whole);
    AfterSign(Decimal(whole), FracText(frac), rest);
    var s := SignText(neg) + Decimal(whole) + FracText(frac) + rest;
    if !neg {
      assert s[0] == Decimal(whole)[0];
    }
  }

  // ------------------------------------------------------------ values read back

  /** Bytes a value starts with: never space and never a closing bracket. */
  predicate StartsValue(b: Byte) {
    b == QUOTE || b == OPEN_LIST || b == OPEN_DICT || b == MINUS || IsDigit(b) || b == 116 || b == 102 || b == 110
  }

  lemma {:induction false} PrintStarts(f: Foreign, n: Node)
    ensures |Print(f, n)| > 0 && StartsValue(Print(f, n)[0])
  {
    match n {
      case UInt(x) => DecimalDigits(x);
      case Simple(code) => DecimalDigits(code);
      case Float(_, bits) =>
        if f.float(bits).Finite? { DecimalDigits(f.float(bits).whole); }
      case Tagged(_, content) => PrintStarts(f, content);
      case _ =>
    }
  }

  lemma NoSpace(s: Bytes)
    requires s == [] || (s[0] != 32 && s[0] != 9 && s[0] != 10 && s[0] != 13)
    ensures SkipSpace(s) == s
  {
  }

  /** Bytes no value other than a number starts with. */
  lemma NumberByItsStart(s: Bytes)
    requires s != [] && (s[0] == MINUS || IsDigit(s[0]))
    ensures ReadValue(s) == ReadNumber(s)
  {
    hide ReadNumber, SkipSpace, ReadString, ReadArray, ReadObject, ReadWord;
    NoSpace(s);
    assert s[0] != QUOTE && s[0] != OPEN_LIST && s[0] != OPEN_DICT && s[0] != 116 && s[0] != 102 && s[0] != 110;
    hide IsDigit;
  }

  lemma NumberValue(neg: bool, whole: nat, frac: seq<Digit>, rest: Bytes)
    requires Delimited(rest)
    ensures ReadValue(SignText(neg) + Decimal(whole) + FracText(frac) + rest) == Parsed(JNumber(neg, whole, frac, 0), rest)
  {
    NumberReadsBack(neg, whole, frac, rest);
    DecimalDigits(whole);
    hide ReadNumber, Decimal, FracText, ReadValue;
    var s := SignText(neg) + Decimal(whole) + FracText(frac) + rest;
    assert s[0] == if neg then MINUS else Decimal(whole)[0];
    NumberByItsStart(s);
  }

  lemma AfterQuote(body: Bytes, rest: Bytes)
    ensures Quoted(body) + rest != []
    ensures (Quoted(body) + rest)[0] == QUOTE && (Quoted(body) + rest)[1..] == body + [QUOTE] + rest
  {
  }

  lemma StringByItsStart(s: Bytes)
    requires s != [] && s[0] == QUOTE
    ensures ReadValue(s) == match ReadString(s[1..]) case Failed => Failed case Parsed(v, rest) => Parsed(JString(v), rest)
  {
    NoSpace(s);
    hide ReadString, SkipSpace, ReadArray, ReadObject, ReadWord, ReadNumber;
  }

  lemma StringValue(body: Bytes, v: Bytes, rest: Bytes)
    requires ReadString(body + [QUOTE] + rest) == Parsed(v, rest)
    ensures ReadValue(Quoted(body) + rest) == Parsed(JString(v), rest)
  {
    hide *;
    AfterQuote(body, rest);
    StringByItsStart(Quoted(body) + rest);
  }

  lemma {:induction false} PlainUnchanged(t: Bytes)
    requires AllPlain(t)
    ensures EscapeBytes(t) == t
  {
    if t != [] { PlainUnchanged(t[1..]); }
  }

  lemma PlainReadsBack(t: Bytes, rest: Bytes)
    requires AllPlain(t)
    ensures ReadString(t + [QUOTE] + rest) == Parsed(t, rest)
  {
    PlainUnchanged(t);
    UnescapeUndoes(t, rest);
  }

  /** A quoted name and its colon. */
  lemma NameReadsBack(body: Bytes, key: Bytes, rest: Bytes)
    requires ReadString(body + [QUOTE] + ([COLON] + rest)) == Parsed(key, [COLON] + rest)
    ensures ReadName(Quoted(body) + [COLON] + rest) == Parsed(key, rest)
  {
    var s := Quoted(body) + ([COLON] + rest);
    AfterQuote(body, [COLON] + rest);
    NoSpace(s);
    NoSpace([COLON] + rest);
    hide ReadString, SkipSpace, Quoted;
    assert Quoted(body) + [COLON] + rest == s;
    assert ([COLON] + rest)[1..] == rest;
  }

  lemma ObjectByItsStart(s: Bytes)
    requires s != [] && s[0] == OPEN_DICT
    ensures ReadValue(s) == ReadObject(s[1..])
  {
    hide ReadNumber, SkipSpace, ReadString, ReadArray, ReadObject, ReadWord;
    NoSpace(s);
  }

  lemma ArrayByItsStart(s: Bytes)
    requires s != [] && s[0] == OPEN_LIST
    ensures ReadValue(s) == ReadArray(s[1..])
  {
    hide ReadNumber, SkipSpace, ReadString, ReadArray, ReadObject, ReadWord;
    NoSpace(s);
  }

  /** The last member of an object. */
  lemma LastMember(s: Bytes, key: Bytes, afterName: Bytes, value: Json, rest: Bytes)
    requires ReadName(s) == Parsed(key, afterName)
    requires ReadValue(afterName) == Parsed(value, [CLOSE_DICT] + rest)
    ensures ReadMembers(s) == Parsed(Member(key, value, NoMembers), rest)
  {
    NoSpace([CLOSE_DICT] + rest);
    hide ReadName, ReadValue, SkipSpace;
    assert ([CLOSE_DICT] + rest)[1..] == rest;
  }

  /** A member that is not the last. */
  lemma OneMember(s: Bytes, key: Bytes, afterName: Bytes, value: Json, next: Bytes, more: Members, rest: Bytes)
    requires ReadName(s) == Parsed(key, afterName)
    requires ReadValue(afterName) == Parsed(value, [COMMA] + next)
    requires ReadMembers(next) == Parsed(more, rest)
    ensures ReadMembers(s) == Parsed(Member(key, value, more), rest)
  {
    NoSpace([COMMA] + next);
    assert ([COMMA] + next)[1..] == next;
    hide ReadName, ReadValue, SkipSpace;
  }

  /** {"name":"text"} reads back as an object of one string. */
  lemma WrappedReadsBack(name: Bytes, text: Bytes, rest: Bytes)
    requires AllPlain(name) && AllPlain(text)
    ensures ReadValue(Wrapped(name, text) + rest) == Parsed(JObject(Member(name, JString(text), NoMembers)), rest)
  {
    hide *;
    var value := Quoted(text) + ([CLOSE_DICT] + rest);
    var inner := Quoted(name) + [COLON] + value;
    var s := Wrapped(name, text) + rest;
    WrappedText(name, text, rest);
    PlainReadsBack(text, [CLOSE_DICT] + rest);
    StringValue(text, text, [CLOSE_DICT] + rest);
    PlainReadsBack(name, [COLON] + value);
    NameReadsBack(name, name, value);
    LastMember(inner, name, value, JString(text), rest);
    ObjectByItsStart(s);
    ObjectOf(inner, Member(name, JString(text), NoMembers), rest);
  }

  lemma WrappedText(name: Bytes, text: Bytes, rest: Bytes)
    ensures var s := Wrapped(name, text) + rest;
            && s != [] && s[0] == OPEN_DICT
            && s[1..] == Quoted(name) + [COLON] + (Quoted(text) + ([CLOSE_DICT] + rest))
    ensures (Quoted(name) + [COLON] + (Quoted(text) + ([CLOSE_DICT] + rest)))[0] == QUOTE
  {
    assert Quoted(name)[0] == QUOTE;
    hide Quoted;
  }

  /** Members that start with a name make an object. */
  lemma ObjectOf(s: Bytes, ms: Members, rest: Bytes)
    requires s != [] && s[0] == QUOTE && ReadMembers(s) == Parsed(ms, rest)
    ensures ReadObject(s) == Parsed(JObject(ms), rest)
  {
    hide ReadMembers, SkipSpace;
    NoSpace(s);
  }

  lemma CidTextPlain(f: Foreign, payload: Bytes)
    ensures AllPlain(CidText(f, payload))
  {
  }

  lemma WordReadsBack(rest: Bytes)
    ensures ReadValue(TRUE_TEXT + rest) == Parsed(JBool(true), rest)
    ensures ReadValue(FALSE_TEXT + rest) == Parsed(JBool(false), rest)
    ensures ReadValue(NULL_TEXT + rest) == Parsed(JNull, rest)
  {
    NoSpace(TRUE_TEXT + rest);
    NoSpace(FALSE_TEXT + rest);
    NoSpace(NULL_TEXT + rest);
    assert (TRUE_TEXT + rest)[4..] == rest;
    assert (FALSE_TEXT + rest)[5..] == rest;
    assert (NULL_TEXT + rest)[4..] == rest;
    hide SkipSpace, ReadNumber, ReadString;
  }

  /**
    Reading what was printed gives the intended value, for every tree: members in
    order, strings unescaped, integers exact, and reading stops at the value's end.
  */
  lemma {:induction false} ReadPrinted(f: Foreign, n: Node, rest: Bytes)
    requires Delimited(rest)
    ensures ReadValue(Print(f, n) + rest) == Parsed(Intended(f, n), rest)
    decreases n, 0
  {
    hide ReadValue, ReadString, EscapeBytes, Quoted, Wrapped, Decimal, PrintItems, PrintEntries, PrintFloat;
    hide IntendedItems, IntendedEntries, Base64.Encode, CidText, SignText, Delimited;
    match n {
      case UInt(x) => PrintedNumber(false, x, rest);
      case NInt(x) => PrintedNumber(true, x + 1, rest);
      case Text(t) =>
        UnescapeUndoes(t, rest);
        StringValue(EscapeBytes(t), t, rest);
      case Blob(b) =>
        Base64.EncodedIsPlain(b);
        WrappedReadsBack(DOLLAR_BYTES, Base64.Encode(b), rest);
      case Link(p) =>
        CidTextPlain(f, p);
        WrappedReadsBack(DOLLAR_LINK, CidText(f, p), rest);
      case List(items) => ReadPrintedList(f, items, rest);
      case Dict(entries) => ReadPrintedDict(f, entries, rest);
      case Tagged(_, content) => ReadPrinted(f, content, rest);
      case Simple(code) =>
        WordReadsBack(rest);
        PrintedNumber(false, code, rest);
      case Float(_, bits) => PrintedFloat(f.float(bits), rest);
    }
  }

  lemma DropEmpty(a: Bytes, b: Bytes, c: Bytes)
    ensures a + b + [] + c == a + b + c
    ensures [] + b == b
  {
  }

  lemma PrintedNumber(neg: bool, n: nat, rest: Bytes)
    requires Delimited(rest)
    ensures ReadValue(SignText(neg) + Decimal(n) + rest) == Parsed(JNumber(neg, n, [], 0), rest)
    ensures !neg ==> ReadValue(Decimal(n) + rest) == Parsed(JNumber(neg, n, [], 0), rest)
  {
    assert FracText([]) == [];
    assert SignText(false) == [];
    hide *;
    NumberValue(neg, n, [], rest);
    DropEmpty(SignText(neg), Decimal(n), rest);
  }

  lemma PrintedFloat(t: FloatText, rest: Bytes)
    requires Delimited(rest)
    ensures ReadValue(PrintFloat(t) + rest)
            == Parsed(match t case NotFinite => JNull case Finite(neg, whole, frac) => JNumber(neg, whole, frac, 0), rest)
  {
    match t {
      case NotFinite => WordReadsBack(rest);
      case Finite(neg, whole, frac) => NumberValue(neg, whole, frac, rest);
    }
    hide ReadValue;
  }

  lemma {:induction false} ReadPrintedList(f: Foreign, items: Nodes, rest: Bytes)
    ensures ReadValue([OPEN_LIST] + PrintItems(f, items, true) + [CLOSE_LIST] + rest)
            == Parsed(JArray(IntendedItems(f, items)), rest)
    decreases items, 1
  {
    var s := [OPEN_LIST] + PrintItems(f, items, true) + [CLOSE_LIST] + rest;
    var u := PrintItems(f, items, true) + [CLOSE_LIST] + rest;
    assert s[1..] == u;
    match items {
      case NoNodes =>
        assert u == [CLOSE_LIST] + rest;
      case Items(h, t) =>
        PrintStarts(f, h);
        assert u[0] == Print(f, h)[0];
        ReadPrintedItems(f, items, rest);
    }
    NoSpace(u);
    hide SkipSpace, ReadElements, ReadValue, Print, PrintItems;
    ArrayByItsStart(s);
  }

  lemma {:induction false} ReadPrintedItems(f: Foreign, items: Nodes, rest: Bytes)
    requires items.Items?
    ensures ReadElements(PrintItems(f, items, true) + [CLOSE_LIST] + rest) == Parsed(IntendedItems(f, items), rest)
    decreases items, 0
  {
    hide *;
    var s := PrintItems(f, items, true) + [CLOSE_LIST] + rest;
    var next := PrintItems(f, items.tail, true) + [CLOSE_LIST] + rest;
    FirstItemText(f, items, rest);
    ListDelimited(rest, next);
    ReadPrinted(f, items.head, PrintItems(f, items.tail, false) + [CLOSE_LIST] + rest);
    match items.tail {
      case NoNodes => LastElement(s, Intended(f, items.head), rest);
      case Items(_, _) =>
        ReadPrintedItems(f, items.tail, rest);
        OneElement(s, Intended(f, items.head), next, IntendedItems(f, items.tail), rest);
    }
  }

  lemma LastElement(s: Bytes, head: Json, rest: Bytes)
    requires ReadValue(s) == Parsed(head, [CLOSE_LIST] + rest)
    ensures ReadElements(s) == Parsed(Element(head, NoElements), rest)
  {
    NoSpace([CLOSE_LIST] + rest);
    hide ReadValue, SkipSpace;
    assert ([CLOSE_LIST] + rest)[1..] == rest;
  }

  lemma OneElement(s: Bytes, head: Json, next: Bytes, tail: Elements, rest: Bytes)
    requires ReadValue(s) == Parsed(head, [COMMA] + next) && ReadElements(next) == Parsed(tail, rest)
    ensures ReadElements(s) == Parsed(Element(head, tail), rest)
  {
    NoSpace([COMMA] + next);
    assert ([COMMA] + next)[1..] == next;
    hide ReadValue, SkipSpace;
  }

  /** The text of some items, cut after the first. */
  lemma FirstItemText(f: Foreign, items: Nodes, rest: Bytes)
    requires items.Items?
    ensures PrintItems(f, items, true) + [CLOSE_LIST] + rest
            == Print(f, items.head) + (PrintItems(f, items.tail, false) + [CLOSE_LIST] + rest)
    ensures items.tail.NoNodes? ==> PrintItems(f, items.tail, false) + [CLOSE_LIST] + rest == [CLOSE_LIST] + rest
    ensures items.tail.Items? ==> PrintItems(f, items.tail, false) + [CLOSE_LIST] + rest
                                  == [COMMA] + (PrintItems(f, items.tail, true) + [CLOSE_LIST] + rest)
    ensures IntendedItems(f, items) == Element(Intended(f, items.head), IntendedItems(f, items.tail))
    ensures IntendedItems(f, NoNodes) == NoElements
  {
    hide Print, Intended;
  }

  lemma ListDelimited(a: Bytes, b: Bytes)
    ensures Delimited([CLOSE_LIST] + a) && Delimited([COMMA] + b)
  {
  }

  lemma {:induction false} ReadPrintedDict(f: Foreign, entries: Entries, rest: Bytes)
    ensures ReadValue([OPEN_DICT] + PrintEntries(f, entries, true) + [CLOSE_DICT] + rest)
            == Parsed(JObject(IntendedEntries(f, entries)), rest)
    decreases entries, 1
  {
    var s := [OPEN_DICT] + PrintEntries(f, entries, true) + [CLOSE_DICT] + rest;
    var u := PrintEntries(f, entries, true) + [CLOSE_DICT] + rest;
    assert s[1..] == u;
    match entries {
      case NoEntries =>
        assert u == [CLOSE_DICT] + rest;
      case Entry(k, v, more) =>
        assert u[0] == QUOTE;
        ReadPrintedEntries(f, entries, rest);
    }
    NoSpace(u);
    hide SkipSpace, ReadMembers, ReadValue, Print, PrintEntries;
    ObjectByItsStart(s);
  }

  /** The text of some entries, cut after the first. */
  lemma FirstEntryText(f: Foreign, entries: Entries, rest: Bytes)
    requires entries.Entry?
    ensures PrintEntries(f, entries, true) + [CLOSE_DICT] + rest
            == Quoted(EscapeRunes(entries.key)) + [COLON]
               + (Print(f, entries.value) + (PrintEntries(f, entries.more, false) + [CLOSE_DICT] + rest))
    ensures entries.more.NoEntries? ==> PrintEntries(f, entries.more, false) + [CLOSE_DICT] + rest == [CLOSE_DICT] + rest
    ensures entries.more.Entry? ==> PrintEntries(f, entries.more, false) + [CLOSE_DICT] + rest
                                    == [COMMA] + (PrintEntries(f, entries.more, true) + [CLOSE_DICT] + rest)
  {
    hide Print, Quoted, EscapeRunes;
  }

  lemma {:induction false} ReadPrintedEntries(f: Foreign, entries: Entries, rest: Bytes)
    requires entries.Entry?
    ensures ReadMembers(PrintEntries(f, entries, true) + [CLOSE_DICT] + rest) == Parsed(IntendedEntries(f, entries), rest)
    decreases entries, 0
  {
    hide *;
    var s := PrintEntries(f, entries, true) + [CLOSE_DICT] + rest;
    var tail := PrintEntries(f, entries.more, false) + [CLOSE_DICT] + rest;
    var value := Print(f, entries.value) + tail;
    var key := Sanitize(entries.key);
    FirstEntryText(f, entries, rest);
    UnescapeKey(entries.key, [COLON] + value);
    NameReadsBack(EscapeRunes(entries.key), key, value);
    FirstIntended(f, entries);
    StartsDelimited(rest, PrintEntries(f, entries.more, true) + [CLOSE_DICT] + rest);
    ReadPrinted(f, entries.value, tail);
    match entries.more {
      case NoEntries => LastMember(s, key, value, Intended(f, entries.value), rest);
      case Entry(_, _, _) =>
        ReadPrintedEntries(f, entries.more, rest);
        OneMember(s, key, value, Intended(f, entries.value), PrintEntries(f, entries.more, true) + [CLOSE_DICT] + rest,
                  IntendedEntries(f, entries.more), rest);
    }
  }

  lemma FirstIntended(f: Foreign, es: Entries)
    requires es.Entry?
    ensures IntendedEntries(f, es) == Member(Sanitize(es.key), Intended(f, es.value), IntendedEntries(f, es.more))
    ensures IntendedEntries(f, NoEntries) == NoMembers
  {
  }

  lemma StartsDelimited(a: Bytes, b: Bytes)
    ensures Delimited([CLOSE_DICT] + a) && Delimited([COMMA] + b)
  {
  }

  /** The whole text is one JSON value, the intended one. */
  lemma TextReadsBack(f: Foreign, n: Node)
    ensures ReadText(Print(f, n)) == Some(Intended(f, n))
  {
    ReadPrinted(f, n, []);
    assert Print(f, n) + [] == Print(f, n);
  }

  /** Trees whose keys are all valid UTF-8. */
  predicate KeysValid(n: Node) {
    match n
    case List(items) => ItemKeysValid(items)
    case Dict(entries) => EntryKeysValid(entries)
    case Tagged(_, content) => KeysValid(content)
    case _ => true
  }

  predicate ItemKeysValid(ns: Nodes) {
    match ns case NoNodes => true case Items(h, t) => KeysValid(h) && ItemKeysValid(t)
  }

  predicate EntryKeysValid(es: Entries) {
    match es case NoEntries => true case Entry(k, v, more) => Valid(k) && KeysValid(v) && EntryKeysValid(more)
  }

  /** The intended value with every map key left as it is. */
  function Verbatim(f: Foreign, n: Node): Json {
    match n
    case List(items) => JArray(VerbatimItems(f, items))
    case Dict(entries) => JObject(VerbatimEntries(f, entries))
    case Tagged(_, content) => Verbatim(f, content)
    case _ => Intended(f, n)
  }

  function VerbatimItems(f: Foreign, ns: Nodes): Elements {
    match ns case NoNodes => NoElements case Items(h, t) => Element(Verbatim(f, h), VerbatimItems(f, t))
  }

  function VerbatimEntries(f: Foreign, es: Entries): Members {
    match es
    case NoEntries => NoMembers
    case Entry(k, v, more) => Member(k, Verbatim(f, v), VerbatimEntries(f, more))
  }

  lemma SanitizeKeepsExactly(k: Bytes)
    ensures Sanitize(k) == k <==> Valid(k)
  {
    SanitizeIsValid(k);
    if Valid(k) { SanitizeKeepsValid(k); }
  }

  /** A tree reads back with its own keys exactly when all of them, at every depth, are valid UTF-8. */
  lemma {:induction false} KeysSurvive(f: Foreign, n: Node)
    ensures Intended(f, n) == Verbatim(f, n) <==> KeysValid(n)
    decreases n, 0
  {
    match n {
      case List(items) => ItemKeysSurvive(f, items);
      case Dict(entries) => EntryKeysSurvive(f, entries);
      case Tagged(_, content) => KeysSurvive(f, content);
      case _ =>
    }
  }

  lemma {:induction false} ItemKeysSurvive(f: Foreign, ns: Nodes)
    ensures IntendedItems(f, ns) == VerbatimItems(f, ns) <==> ItemKeysValid(ns)
    decreases ns
  {
    match ns {
      case NoNodes =>
      case Items(h, t) =>
        KeysSurvive(f, h);
        ItemKeysSurvive(f, t);
    }
  }

  lemma {:induction false} EntryKeysSurvive(f: Foreign, es: Entries)
    ensures IntendedEntries(f, es) == VerbatimEntries(f, es) <==> EntryKeysValid(es)
    decreases es
  {
    match es {
      case NoEntries =>
      case Entry(k, v, more) =>
        SanitizeKeepsExactly(k);
        KeysSurvive(f, v);
        EntryKeysSurvive(f, more);
    }
  }

  /** What is read back is the tree with its own keys if and only if they are all valid UTF-8. */
  lemma TextKeepsKeys(f: Foreign, n: Node)
    ensures ReadText(Print(f, n)) == Some(Verbatim(f, n)) <==> KeysValid(n)
  {
    TextReadsBack(f, n);
    KeysSurvive(f, n);
  }

  /** A key that is not valid UTF-8 is rewritten: the lone byte 80 is read back as U+FFFD. */
  lemma InvalidKeyIsRewritten(f: Foreign)
    ensures var n := Dict(Entry([0x80], UInt(0), NoEntries));
            && ReadText(Print(f, n)) == Some(JObject(Member([0xEF, 0xBF, 0xBD], JNumber(false, 0, [], 0), NoMembers)))
            && ReadText(Print(f, n)) != Some(Verbatim(f, n))
  {
    var key: Bytes := [0x80];
    var rewritten: Bytes := [0xEF, 0xBF, 0xBD];
    assert Sanitize([]) == [];
    assert key[1..] == [] && rewritten + [] == rewritten;
    assert Sanitize(key) == rewritten;
    TextReadsBack(f, Dict(Entry(key, UInt(0), NoEntries)));
    FirstIntended(f, Entry(key, UInt(0), NoEntries));
    assert Intended(f, UInt(0)) == JNumber(false, 0, [], 0);
  }

  /** The member names of an object, in order. */
  function Names(ms: Members): seq<Bytes> {
    match ms case NoMembers => [] case Member(k, _, more) => [k] + Names(more)
  }

  function Keys(es: Entries): seq<Bytes> {
    match es case NoEntries => [] case Entry(k, _, more) => [k] + Keys(more)
  }

  /** An object's names are the map's keys, unchanged exactly when they are valid UTF-8. */
  lemma {:induction false} NamesAreKeys(f: Foreign, es: Entries)
    ensures Names(IntendedEntries(f, es)) == Keys(es) <==> forall i :: 0 <= i < |Keys(es)| ==> Valid(Keys(es)[i])
  {
    match es {
      case NoEntries =>
      case Entry(k, v, more) =>
        NamesAreKeys(f, more);
        SanitizeKeepsExactly(k);
        var ks := Keys(es);
        assert ks[0] == k && ks[1..] == Keys(more);
        var ns := Names(IntendedEntries(f, es));
        assert ns[0] == Sanitize(k) && ns[1..] == Names(IntendedEntries(f, more));
        assert forall i :: 0 <= i < |Keys(more)| ==> ks[i + 1] == Keys(more)[i];
        assert forall i :: 1 <= i < |ks| ==> ks[i] == Keys(more)[i - 1];
        hide Sanitize, Valid;
    }
  }
}
