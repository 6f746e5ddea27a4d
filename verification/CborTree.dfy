/**
  The reference reading of a record: a recursive decoder from CBOR bytes to a
  tree (section 3 of RFC 8949) with the transcoder's limits, and the encoder it
  inverts.
*/
module CborTree {
  import opened Common
  import opened JsonText

  const MAX_STRING := 10 * 1024 * 1024
  const MAX_COLLECTION := 1_000_000

  /** Text the foreign libraries produce: printable ASCII that JSON leaves alone. */
  type PlainByte = b: Byte | IsPlain(b) witness 65

  type Digit = d: int | 0 <= d < 10

  /** strconv's 'f' format of a float, or a NaN or infinity. */
  datatype FloatText = NotFinite | Finite(neg: bool, whole: nat, frac: seq<Digit>)

  /**
    What lies outside this repository: whether the head reader refuses arguments
    that are not in shortest form, CID parsing and printing, float printing.
  */
  datatype Foreign = Foreign(strictHeads: bool, cid: Bytes -> Option<seq<PlainByte>>, float: Bytes -> FloatText)

  // --------------------------------------------------------------------- tree

  datatype Node =
    | UInt(n: U64)
    | NInt(arg: U64)                       // the integer -1 - arg
    | Text(text: Bytes)
    | Blob(bytes: Bytes)
    | List(items: Nodes)
    | Dict(entries: Entries)
    | Link(payload: Bytes)                 // tag 42 around a byte string
    | Tagged(tag: U64, content: Node)
    | Simple(code: U64)
    | Float(code: U64, bits: Bytes)        // 25, 26 or 27 and its 2, 4 or 8 bytes

  datatype Nodes = NoNodes | Items(head: Node, tail: Nodes)

  datatype Entries = NoEntries | Entry(key: Bytes, value: Node, more: Entries)

  function Length(ns: Nodes): nat {
    match ns case NoNodes => 0 case Items(_, tail) => 1 + Length(tail)
  }

  function EntryCount(es: Entries): nat {
    match es case NoEntries => 0 case Entry(_, _, more) => 1 + EntryCount(more)
  }

  // -------------------------------------------------------------------- heads

  /** Big-endian value. */
  function BigEndian(s: Bytes): nat {
    if s == [] then 0 else BigEndian(s[..|s| - 1]) * 256 + s[|s| - 1]
  }

  function ToBigEndian(n: nat, width: nat): Bytes {
    if width == 0 then [] else ToBigEndian(n / 256, width - 1) + [n % 256]
  }

  function Pow256(n: nat): nat {
    if n == 0 then 1 else 256 * Pow256(n - 1)
  }

  lemma {:induction false} BigEndianBound(s: Bytes)
    ensures BigEndian(s) < Pow256(|s|)
  {
    if s != [] { BigEndianBound(s[..|s| - 1]); }
  }

  lemma {:induction false} BigEndianRoundTrip(n: nat, width: nat)
    requires n < Pow256(width)
    ensures |ToBigEndian(n, width)| == width && BigEndian(ToBigEndian(n, width)) == n
  {
    if width > 0 {
      BigEndianRoundTrip(n / 256, width - 1);
      var t := ToBigEndian(n, width);
      assert t[..|t| - 1] == ToBigEndian(n / 256, width - 1);
    }
  }

  /** How many argument bytes follow an initial byte's additional information, if it is well formed. */
  function ArgWidth(info: nat): Option<nat> {
    if info < 24 then Some(0)
    else if info == 24 then Some(1)
    else if info == 25 then Some(2)
    else if info == 26 then Some(4)
    else if info == 27 then Some(8)
    else None
  }

  /** The width section 4.2.1 of RFC 8949 asks for. */
  function ShortestWidth(arg: U64): nat {
    if arg < 24 then 0
    else if arg < 0x100 then 1
    else if arg < 0x1_0000 then 2
    else if arg < 0x1_0000_0000 then 4
    else 8
  }

  datatype Head = Head(major: nat, arg: U64)

  lemma Pow256Small()
    ensures Pow256(0) == 1 && Pow256(1) == 0x100 && Pow256(2) == 0x1_0000 && Pow256(4) == 0x1_0000_0000 && Pow256(8) == TWO64
  {
    assert Pow256(3) == 0x100_0000;
    assert Pow256(5) == 0x100_0000_0000;
    assert Pow256(6) == 0x1_0000_0000_0000;
    assert Pow256(7) == 0x100_0000_0000_0000;
  }

  lemma ArgFits(s: Bytes, width: nat)
    requires width <= 8 && width <= |s|
    ensures BigEndian(s[..width]) < TWO64
  {
    BigEndianBound(s[..width]);
    Pow256Monotone(width, 8);
    Pow256Small();
  }

  lemma {:induction false} Pow256Monotone(m: nat, n: nat)
    requires m <= n
    ensures Pow256(m) <= Pow256(n)
    decreases n - m
  {
    if m < n { Pow256Monotone(m + 1, n); }
  }

  /** CborReadHeaderBuf: takes 1 to 9 bytes. */
  function ReadHead(f: Foreign, s: Bytes): (p: Parsed<Head>)
    ensures p.Parsed? ==> |s| - 9 <= |p.rest| < |s| && p.value.major < 8
  {
    if s == [] then Failed
    else
      var major, info := s[0] / 32, s[0] % 32;
      match ArgWidth(info)
      case None => Failed
      case Some(width) =>
        if |s| < 1 + width then Failed
        else
          ArgFits(s[1..], width);
          var arg := if width == 0 then info else BigEndian(s[1..][..width]);
          if f.strictHeads && ShortestWidth(arg) != width then Failed
          else Parsed(Head(major, arg), s[1 + width..])
  }

  // ------------------------------------------------------------------ decoder

  /** int(extra): the two's-complement reading of a uint64. */
  function AsInt64(x: U64): int {
    if x < TWO63 then x else x - TWO64
  }

  /** readStringToBuffer and readBytes: the next `extra` bytes, within the limit. */
  function ReadRun(extra: U64, s: Bytes): (p: Parsed<Bytes>)
    ensures p.Parsed? ==> |p.value| == extra && p.value + p.rest == s
  {
    var length := AsInt64(extra);
    if length == 0 then Parsed([], s)
    else if length < 0 || length > MAX_STRING || length > |s| then Failed
    else Parsed(s[..length], s[length..])
  }

  /** ATProto puts one zero byte before the CID. */
  function CidBytes(payload: Bytes): Bytes {
    if |payload| > 1 && payload[0] == 0 then payload[1..] else payload
  }

  function FloatWidth(code: U64): nat {
    if code == 25 then 2 else if code == 26 then 4 else if code == 27 then 8 else 0
  }

  function DecodeNode(f: Foreign, s: Bytes): (p: Parsed<Node>)
    ensures p.Parsed? ==> |p.rest| < |s|
    decreases |s|, 0, 0
  {
    match ReadHead(f, s)
    case Failed => Failed
    case Parsed(h, rest) =>
      if h.major == 0 then Parsed(UInt(h.arg), rest)
      else if h.major == 1 then Parsed(NInt(h.arg), rest)
      else if h.major == 2 then
        (match ReadRun(h.arg, rest) case Failed => Failed case Parsed(b, r) => Parsed(Blob(b), r))
      else if h.major == 3 then
        (match ReadRun(h.arg, rest) case Failed => Failed case Parsed(b, r) => Parsed(Text(b), r))
      else if h.major == 4 then
        if h.arg > MAX_COLLECTION then Failed
        else (match DecodeNodes(f, h.arg, rest) case Failed => Failed case Parsed(ns, r) => Parsed(List(ns), r))
      else if h.major == 5 then
        if h.arg > MAX_COLLECTION then Failed
        else (match DecodeEntries(f, h.arg, rest) case Failed => Failed case Parsed(es, r) => Parsed(Dict(es), r))
      else if h.major == 6 then
        if h.arg == 42 then DecodeLink(f, rest)
        else (match DecodeNode(f, rest) case Failed => Failed case Parsed(n, r) => Parsed(Tagged(h.arg, n), r))
      else
        DecodeOther(h.arg, rest)
  }

  /** A byte string that parses as a CID. */
  function DecodeLink(f: Foreign, s: Bytes): (p: Parsed<Node>)
    ensures p.Parsed? ==> |p.rest| < |s|
  {
    match ReadHead(f, s)
    case Failed => Failed
    case Parsed(h, rest) =>
      if h.major != 2 then Failed
      else
        match ReadRun(h.arg, rest)
        case Failed => Failed
        case Parsed(b, r) => if f.cid(CidBytes(b)).None? then Failed else Parsed(Link(b), r)
  }

  function DecodeOther(code: U64, s: Bytes): (p: Parsed<Node>)
    ensures p.Parsed? ==> |p.rest| <= |s|
  {
    if FloatWidth(code) == 0 then Parsed(Simple(code), s)
    else if |s| < FloatWidth(code) then Failed
    else Parsed(Float(code, s[..FloatWidth(code)]), s[FloatWidth(code)..])
  }

  function DecodeNodes(f: Foreign, n: nat, s: Bytes): (p: Parsed<Nodes>)
    ensures p.Parsed? ==> |p.rest| <= |s|
    decreases |s|, 1, n
  {
    if n == 0 then Parsed(NoNodes, s)
    else
      match DecodeNode(f, s)
      case Failed => Failed
      case Parsed(head, rest) =>
        match DecodeNodes(f, n - 1, rest)
        case Failed => Failed
        case Parsed(tail, r) => Parsed(Items(head, tail), r)
  }

  function DecodeKey(f: Foreign, s: Bytes): (p: Parsed<Bytes>)
    ensures p.Parsed? ==> |p.rest| < |s|
  {
    match ReadHead(f, s)
    case Failed => Failed
    case Parsed(h, rest) => if h.major != 3 then Failed else ReadRun(h.arg, rest)
  }

  function DecodeEntries(f: Foreign, n: nat, s: Bytes): (p: Parsed<Entries>)
    ensures p.Parsed? ==> |p.rest| <= |s|
    decreases |s|, 1, n
  {
    if n == 0 then Parsed(NoEntries, s)
    else
      match DecodeKey(f, s)
      case Failed => Failed
      case Parsed(key, afterKey) =>
        match DecodeNode(f, afterKey)
        case Failed => Failed
        case Parsed(value, rest) =>
          match DecodeEntries(f, n - 1, rest)
          case Failed => Failed
          case Parsed(more, r) => Parsed(Entry(key, value, more), r)
  }

  // ------------------------------------------------------------------ encoder

  /** The additional information that announces a width. */
  function InfoOf(width: nat): nat {
    if width == 1 then 24 else if width == 2 then 25 else if width == 4 then 26 else 27
  }

  function WriteHead(major: nat, arg: U64): Bytes
    requires major < 8
  {
    var width := ShortestWidth(arg);
    if width == 0 then [major * 32 + arg] else [major * 32 + InfoOf(width)] + ToBigEndian(arg, width)
  }

  /** Trees the decoder can return: within the limits, links that parse, tags and codes in their own cases. */
  predicate WellFormed(f: Foreign, n: Node) {
    match n
    case UInt(_) => true
    case NInt(_) => true
    case Text(t) => |t| <= MAX_STRING
    case Blob(b) => |b| <= MAX_STRING
    case List(items) => Length(items) <= MAX_COLLECTION && WellFormedNodes(f, items)
    case Dict(entries) => EntryCount(entries) <= MAX_COLLECTION && WellFormedEntries(f, entries)
    case Link(p) => |p| <= MAX_STRING && f.cid(CidBytes(p)).Some?
    case Tagged(tag, content) => tag != 42 && WellFormed(f, content)
    case Simple(code) => FloatWidth(code) == 0
    case Float(code, bits) => FloatWidth(code) != 0 && |bits| == FloatWidth(code)
  }

  predicate WellFormedNodes(f: Foreign, ns: Nodes) {
    match ns case NoNodes => true case Items(h, t) => WellFormed(f, h) && WellFormedNodes(f, t)
  }

  predicate WellFormedEntries(f: Foreign, es: Entries) {
    match es
    case NoEntries => true
    case Entry(k, v, more) => |k| <= MAX_STRING && WellFormed(f, v) && WellFormedEntries(f, more)
  }

  function Encode(f: Foreign, n: Node): Bytes
    requires WellFormed(f, n)
  {
    match n
    case UInt(x) => WriteHead(0, x)
    case NInt(x) => WriteHead(1, x)
    case Blob(b) => WriteHead(2, |b|) + b
    case Text(t) => WriteHead(3, |t|) + t
    case List(items) => WriteHead(4, Length(items)) + EncodeNodes(f, items)
    case Dict(entries) => WriteHead(5, EntryCount(entries)) + EncodeEntries(f, entries)
    case Link(p) => WriteHead(6, 42) + (WriteHead(2, |p|) + p)
    case Tagged(tag, content) => WriteHead(6, tag) + Encode(f, content)
    case Simple(code) => WriteHead(7, code)
    case Float(code, bits) => WriteHead(7, code) + bits
  }

  function EncodeNodes(f: Foreign, ns: Nodes): Bytes
    requires WellFormedNodes(f, ns)
  {
    match ns case NoNodes => [] case Items(h, t) => Encode(f, h) + EncodeNodes(f, t)
  }

  function EncodeEntries(f: Foreign, es: Entries): Bytes
    requires WellFormedEntries(f, es)
  {
    match es
    case NoEntries => []
    case Entry(k, v, more) => WriteHead(3, |k|) + k + (Encode(f, v) + EncodeEntries(f, more))
  }

  // --------------------------------------------------------------- round trip

  /** A shortest-form head reads back, strict or not, leaving what follows it. */
  lemma HeadRoundTrip(f: Foreign, major: nat, arg: U64, rest: Bytes)
    requires major < 8
    ensures ReadHead(f, WriteHead(major, arg) + rest) == Parsed(Head(major, arg), rest)
  {
    var width := ShortestWidth(arg);
    if width == 0 {
      ShortHead(f, major, arg, rest);
    } else {
      WidthFits(arg);
      hide BigEndian, ToBigEndian, Pow256, ReadHead, ShortestWidth, InfoOf, ArgWidth;
      BigEndianRoundTrip(arg, width);
      WideHead(f, major, InfoOf(width), width, ToBigEndian(arg, width), rest);
    }
  }

  /** Four bytes in network byte order. */
  function FourBytes(n: nat): Bytes
    requires n < 0x1_0000_0000
  {
    [n / 0x100_0000, n / 0x1_0000 % 0x100, n / 0x100 % 0x100, n % 0x100]
  }

  /** Section 3 of RFC 8949, byte by byte: the argument follows in network byte order. */
  lemma HeadBytes(major: nat, arg: U64)
    requires major < 8
    ensures arg < 24 ==> WriteHead(major, arg) == [major * 32 + arg]
    ensures 24 <= arg < 0x100 ==> WriteHead(major, arg) == [major * 32 + 24, arg]
    ensures 0x100 <= arg < 0x1_0000 ==> WriteHead(major, arg) == [major * 32 + 25, arg / 0x100, arg % 0x100]
    ensures 0x1_0000 <= arg < 0x1_0000_0000 ==> WriteHead(major, arg) == [major * 32 + 26] + FourBytes(arg)
    ensures 0x1_0000_0000 <= arg ==>
              WriteHead(major, arg) == [major * 32 + 27] + (FourBytes(arg / 0x1_0000_0000) + FourBytes(arg % 0x1_0000_0000))
  {
    hide ToBigEndian, FourBytes;
    LastBytes(arg, 0);
    if 0x1_0000 <= arg < 0x1_0000_0000 {
      LastFour(arg, 0);
      NoBytes(0);
    } else if 0x1_0000_0000 <= arg {
      EightBytes(arg);
    }
  }

  lemma EightBytes(n: U64)
    ensures ToBigEndian(n, 8) == FourBytes(n / 0x1_0000_0000) + FourBytes(n % 0x1_0000_0000)
  {
    hide ToBigEndian, FourBytes;
    LastFour(n, 4);
    LastFour(n / 0x1_0000_0000, 0);
    NoBytes(0);
  }

  lemma NoBytes(n: nat)
    ensures ToBigEndian(n, 0) == [] && forall s: Bytes :: [] + s == s
  {
  }

  lemma LastBytes(n: nat, width: nat)
    ensures ToBigEndian(n, width + 2) == ToBigEndian(n / 0x1_0000, width) + [n / 0x100 % 0x100, n % 0x100]
    ensures ToBigEndian(n, 1) == [n % 0x100] && ToBigEndian(n, 2) == [n / 0x100 % 0x100, n % 0x100]
  {
    assert n / 0x100 / 0x100 == n / 0x1_0000;
    assert ToBigEndian(n / 0x100, width + 1) == ToBigEndian(n / 0x1_0000, width) + [n / 0x100 % 0x100];
    assert ToBigEndian(n, 0) == [] && ToBigEndian(n / 0x100, 0) == [] && ToBigEndian(n / 0x1_0000, 0) == [];
    assert ToBigEndian(n / 0x100, 1) == [n / 0x100 % 0x100];
  }

  lemma LastFour(n: nat, width: nat)
    ensures ToBigEndian(n, width + 4) == ToBigEndian(n / 0x1_0000_0000, width) + FourBytes(n % 0x1_0000_0000)
  {
    LastBytes(n, width + 2);
    LastBytes(n / 0x1_0000, width);
    FourSplit(n);
    hide ToBigEndian, FourBytes;
    Regroup(ToBigEndian(n / 0x1_0000_0000, width), [n / 0x1_0000 / 0x100 % 0x100, n / 0x1_0000 % 0x100], [n / 0x100 % 0x100, n % 0x100]);
  }

  lemma FourSplit(n: nat)
    ensures n / 0x1_0000 / 0x1_0000 == n / 0x1_0000_0000
    ensures FourBytes(n % 0x1_0000_0000)
            == [n / 0x1_0000 / 0x100 % 0x100, n / 0x1_0000 % 0x100] + [n / 0x100 % 0x100, n % 0x100]
  {
    var hi, m := n / 0x1_0000_0000, n % 0x1_0000_0000;
    HighAndLow(hi, m);
    assert n == hi * 0x1_0000_0000 + m;
  }

  lemma HighAndLow(hi: nat, m: nat)
    requires m < 0x1_0000_0000
    ensures var n := hi * 0x1_0000_0000 + m;
            && n / 0x1_0000 / 0x1_0000 == hi
            && n / 0x1_0000 / 0x100 % 0x100 == m / 0x100_0000
            && n / 0x1_0000 % 0x100 == m / 0x1_0000 % 0x100
            && n / 0x100 % 0x100 == m / 0x100 % 0x100
            && n % 0x100 == m % 0x100
  {
    var n := hi * 0x1_0000_0000 + m;
    assert n / 0x1_0000 == hi * 0x1_0000 + m / 0x1_0000;
    assert n / 0x1_0000 / 0x100 == hi * 0x100 + m / 0x100_0000;
    assert n / 0x100 == hi * 0x100_0000 + m / 0x100;
  }

  lemma WidthFits(arg: U64)
    ensures var width := ShortestWidth(arg);
            width > 0 ==> arg < Pow256(width) && InfoOf(width) < 32 && ArgWidth(InfoOf(width)) == Some(width)
  {
    Pow256Small();
  }

  lemma ShortHead(f: Foreign, major: nat, arg: U64, rest: Bytes)
    requires major < 8 && ShortestWidth(arg) == 0
    ensures ReadHead(f, WriteHead(major, arg) + rest) == Parsed(Head(major, arg), rest)
  {
    assert (WriteHead(major, arg) + rest)[1..] == rest;
  }

  lemma WideHead(f: Foreign, major: nat, info: nat, width: nat, digits: Bytes, rest: Bytes)
    requires major < 8 && info < 32 && width > 0 && ArgWidth(info) == Some(width) && |digits| == width
    requires BigEndian(digits) < TWO64 && ShortestWidth(BigEndian(digits)) == width
    ensures ReadHead(f, [major * 32 + info] + digits + rest) == Parsed(Head(major, BigEndian(digits)), rest)
  {
    hide BigEndian, ShortestWidth;
    HeadParts(major * 32 + info, digits, rest);
  }

  lemma HeadParts(b: Byte, arg: Bytes, rest: Bytes)
    ensures var s := [b] + arg + rest;
            s[0] == b && s[1..][..|arg|] == arg && s[1 + |arg|..] == rest
  {
  }

  lemma RunRoundTrip(b: Bytes, rest: Bytes)
    requires |b| <= MAX_STRING
    ensures ReadRun(|b|, b + rest) == Parsed(b, rest)
  {
    assert (b + rest)[..|b|] == b && (b + rest)[|b|..] == rest;
  }

  /** Decoding undoes encoding and stops exactly at the value's end. */
  lemma {:induction false} DecodeEncoded(f: Foreign, n: Node, rest: Bytes)
    requires WellFormed(f, n)
    ensures DecodeNode(f, Encode(f, n) + rest) == Parsed(n, rest)
    decreases n
  {
    hide ReadHead, WriteHead, ReadRun, DecodeNodes, DecodeEntries, EncodeNodes, EncodeEntries, Length, EntryCount;
    hide WellFormedNodes, WellFormedEntries, CidBytes;
    match n {
      case UInt(x) => HeadRoundTrip(f, 0, x, rest);
      case NInt(x) => HeadRoundTrip(f, 1, x, rest);
      case Blob(b) => RunAfterHead(f, 2, b, rest);
      case Text(t) => RunAfterHead(f, 3, t, rest);
      case List(items) =>
        HeadRoundTrip(f, 4, Length(items), EncodeNodes(f, items) + rest);
        Regroup(WriteHead(4, Length(items)), EncodeNodes(f, items), rest);
        DecodeEncodedNodes(f, items, rest);
      case Dict(entries) =>
        HeadRoundTrip(f, 5, EntryCount(entries), EncodeEntries(f, entries) + rest);
        Regroup(WriteHead(5, EntryCount(entries)), EncodeEntries(f, entries), rest);
        DecodeEncodedEntries(f, entries, rest);
      case Link(p) =>
        HeadRoundTrip(f, 6, 42, WriteHead(2, |p|) + p + rest);
        Regroup(WriteHead(6, 42), WriteHead(2, |p|) + p, rest);
        RunAfterHead(f, 2, p, rest);
      case Tagged(tag, content) =>
        HeadRoundTrip(f, 6, tag, Encode(f, content) + rest);
        Regroup(WriteHead(6, tag), Encode(f, content), rest);
        DecodeEncoded(f, content, rest);
      case Simple(code) => HeadRoundTrip(f, 7, code, rest);
      case Float(code, bits) =>
        HeadRoundTrip(f, 7, code, bits + rest);
        Regroup(WriteHead(7, code), bits, rest);
        CutAfter(bits, rest);
    }
  }

  lemma CutAfter(a: Bytes, b: Bytes)
    ensures (a + b)[..|a|] == a && (a + b)[|a|..] == b
  {
  }

  /** A head that announces a run of bytes, and the run. */
  lemma RunAfterHead(f: Foreign, major: nat, b: Bytes, rest: Bytes)
    requires major < 8 && |b| <= MAX_STRING
    ensures ReadHead(f, WriteHead(major, |b|) + b + rest) == Parsed(Head(major, |b|), b + rest)
    ensures ReadRun(|b|, b + rest) == Parsed(b, rest)
  {
    hide ReadHead, WriteHead, ReadRun;
    HeadRoundTrip(f, major, |b|, b + rest);
    Regroup(WriteHead(major, |b|), b, rest);
    RunRoundTrip(b, rest);
  }

  lemma {:induction false} DecodeEncodedNodes(f: Foreign, ns: Nodes, rest: Bytes)
    requires WellFormedNodes(f, ns)
    ensures DecodeNodes(f, Length(ns), EncodeNodes(f, ns) + rest) == Parsed(ns, rest)
    decreases ns
  {
    hide DecodeNode, Encode;
    match ns {
      case NoNodes => assert EncodeNodes(f, ns) + rest == rest;
      case Items(h, t) =>
        DecodeEncoded(f, h, EncodeNodes(f, t) + rest);
        DecodeEncodedNodes(f, t, rest);
        assert EncodeNodes(f, ns) + rest == Encode(f, h) + (EncodeNodes(f, t) + rest);
    }
  }

  lemma {:induction false} DecodeEncodedEntries(f: Foreign, es: Entries, rest: Bytes)
    requires WellFormedEntries(f, es)
    ensures DecodeEntries(f, EntryCount(es), EncodeEntries(f, es) + rest) == Parsed(es, rest)
    decreases es
  {
    hide ReadHead, WriteHead, ReadRun, DecodeNode, Encode;
    match es {
      case NoEntries => assert EncodeEntries(f, es) + rest == rest;
      case Entry(k, v, more) =>
        var tail := Encode(f, v) + (EncodeEntries(f, more) + rest);
        HeadRoundTrip(f, 3, |k|, k + tail);
        RunRoundTrip(k, tail);
        DecodeEncoded(f, v, EncodeEntries(f, more) + rest);
        DecodeEncodedEntries(f, more, rest);
        assert EncodeEntries(f, es) + rest == WriteHead(3, |k|) + (k + tail);
    }
  }

  // ------------------------------------------------------- well-formed results

  /** Everything the decoder returns is within the limits. */
  lemma {:induction false} DecodedIsWellFormed(f: Foreign, s: Bytes)
    ensures DecodeNode(f, s).Parsed? ==> WellFormed(f, DecodeNode(f, s).value)
    decreases |s|, 0, 0
  {
    hide ReadHead, DecodeNodes, DecodeEntries, WellFormedNodes, WellFormedEntries, Length, EntryCount;
    var h := ReadHead(f, s);
    if h.Parsed? {
      if h.value.major == 4 && h.value.arg <= MAX_COLLECTION {
        DecodedNodesWellFormed(f, h.value.arg, h.rest);
      } else if h.value.major == 5 && h.value.arg <= MAX_COLLECTION {
        DecodedEntriesWellFormed(f, h.value.arg, h.rest);
      } else if h.value.major == 6 && h.value.arg != 42 {
        DecodedIsWellFormed(f, h.rest);
      }
    }
  }

  lemma {:induction false} DecodedNodesWellFormed(f: Foreign, n: nat, s: Bytes)
    ensures DecodeNodes(f, n, s).Parsed? ==>
              WellFormedNodes(f, DecodeNodes(f, n, s).value) && Length(DecodeNodes(f, n, s).value) == n
    decreases |s|, 1, n
  {
    if n > 0 && DecodeNode(f, s).Parsed? {
      DecodedIsWellFormed(f, s);
      DecodedNodesWellFormed(f, n - 1, DecodeNode(f, s).rest);
    }
  }

  lemma {:induction false} DecodedEntriesWellFormed(f: Foreign, n: nat, s: Bytes)
    ensures DecodeEntries(f, n, s).Parsed? ==>
              WellFormedEntries(f, DecodeEntries(f, n, s).value) && EntryCount(DecodeEntries(f, n, s).value) == n
    decreases |s|, 1, n
  {
    hide DecodeNode, WellFormed, ReadHead;
    if n > 0 && DecodeKey(f, s).Parsed? && DecodeNode(f, DecodeKey(f, s).rest).Parsed? {
      DecodedIsWellFormed(f, DecodeKey(f, s).rest);
      DecodedEntriesWellFormed(f, n - 1, DecodeNode(f, DecodeKey(f, s).rest).rest);
    }
  }

  // ---------------------------------------------------------- suffix and size

  lemma HeadSuffix(f: Foreign, s: Bytes, t: Bytes)
    requires ReadHead(f, s).Parsed?
    ensures ReadHead(f, s + t) == Parsed(ReadHead(f, s).value, ReadHead(f, s).rest + t)
  {
    var width := ArgWidth(s[0] % 32).value;
    assert (s + t)[1..][..width] == s[1..][..width];
    assert (s + t)[1 + width..] == s[1 + width..] + t;
  }

  lemma RunSuffix(extra: U64, s: Bytes, t: Bytes)
    requires ReadRun(extra, s).Parsed?
    ensures ReadRun(extra, s + t) == Parsed(ReadRun(extra, s).value, ReadRun(extra, s).rest + t)
  {
    var length := AsInt64(extra);
    if length != 0 {
      assert (s + t)[..length] == s[..length] && (s + t)[length..] == s[length..] + t;
    }
  }

  /** A value that decodes keeps decoding the same with anything after it. */
  lemma {:induction false} DecodeIgnoresSuffix(f: Foreign, s: Bytes, t: Bytes)
    requires DecodeNode(f, s).Parsed?
    ensures DecodeNode(f, s + t) == Parsed(DecodeNode(f, s).value, DecodeNode(f, s).rest + t)
    decreases |s|, 0, 0
  {
    hide ReadHead, ReadRun, DecodeNodes, DecodeEntries;
    HeadSuffix(f, s, t);
    var h := ReadHead(f, s).value;
    var rest := ReadHead(f, s).rest;
    if h.major == 2 || h.major == 3 {
      RunSuffix(h.arg, rest, t);
    } else if h.major == 4 {
      NodesIgnoreSuffix(f, h.arg, rest, t);
    } else if h.major == 5 {
      EntriesIgnoreSuffix(f, h.arg, rest, t);
    } else if h.major == 6 && h.arg == 42 {
      HeadSuffix(f, rest, t);
      RunSuffix(ReadHead(f, rest).value.arg, ReadHead(f, rest).rest, t);
    } else if h.major == 6 {
      DecodeIgnoresSuffix(f, rest, t);
    } else if h.major == 7 && FloatWidth(h.arg) != 0 {
      var w := FloatWidth(h.arg);
      assert (rest + t)[..w] == rest[..w] && (rest + t)[w..] == rest[w..] + t;
    }
  }

  lemma {:induction false} NodesIgnoreSuffix(f: Foreign, n: nat, s: Bytes, t: Bytes)
    requires DecodeNodes(f, n, s).Parsed?
    ensures DecodeNodes(f, n, s + t) == Parsed(DecodeNodes(f, n, s).value, DecodeNodes(f, n, s).rest + t)
    decreases |s|, 1, n
  {
    if n > 0 {
      DecodeIgnoresSuffix(f, s, t);
      NodesIgnoreSuffix(f, n - 1, DecodeNode(f, s).rest, t);
    }
  }

  lemma {:induction false} EntriesIgnoreSuffix(f: Foreign, n: nat, s: Bytes, t: Bytes)
    requires DecodeEntries(f, n, s).Parsed?
    ensures DecodeEntries(f, n, s + t) == Parsed(DecodeEntries(f, n, s).value, DecodeEntries(f, n, s).rest + t)
    decreases |s|, 1, n
  {
    hide ReadHead, ReadRun, DecodeNode;
    if n > 0 {
      HeadSuffix(f, s, t);
      RunSuffix(ReadHead(f, s).value.arg, ReadHead(f, s).rest, t);
      var afterKey := DecodeKey(f, s).rest;
      DecodeIgnoresSuffix(f, afterKey, t);
      EntriesIgnoreSuffix(f, n - 1, DecodeNode(f, afterKey).rest, t);
    }
  }

  /** Nodes visited. */
  function Size(n: Node): nat {
    match n
    case List(items) => 1 + SizeNodes(items)
    case Dict(entries) => 1 + SizeEntries(entries)
    case Tagged(_, content) => 1 + Size(content)
    case _ => 1
  }

  function SizeNodes(ns: Nodes): nat {
    match ns case NoNodes => 0 case Items(h, t) => Size(h) + SizeNodes(t)
  }

  function SizeEntries(es: Entries): nat {
    match es case NoEntries => 0 case Entry(_, v, more) => Size(v) + SizeEntries(more)
  }

  // -------------------------------------------------------- visits, failing ones too

  /** How many values are started when one is read, whether or not reading it succeeds. */
  function Visits(f: Foreign, s: Bytes): nat
    decreases |s|, 0, 0
  {
    match ReadHead(f, s)
    case Failed => 1
    case Parsed(h, rest) =>
      if h.major == 4 && h.arg <= MAX_COLLECTION then 1 + VisitsNodes(f, h.arg, rest)
      else if h.major == 5 && h.arg <= MAX_COLLECTION then 1 + VisitsEntries(f, h.arg, rest)
      else if h.major == 6 && h.arg != 42 then 1 + Visits(f, rest)
      else 1
  }

  function VisitsNodes(f: Foreign, n: nat, s: Bytes): nat
    decreases |s|, 1, n
  {
    if n == 0 then 0
    else
      Visits(f, s) + match DecodeNode(f, s) case Failed => 0 case Parsed(_, rest) => VisitsNodes(f, n - 1, rest)
  }

  function VisitsEntries(f: Foreign, n: nat, s: Bytes): nat
    decreases |s|, 1, n
  {
    if n == 0 then 0
    else
      match DecodeKey(f, s)
      case Failed => 0
      case Parsed(_, afterKey) =>
        Visits(f, afterKey)
        + match DecodeNode(f, afterKey) case Failed => 0 case Parsed(_, rest) => VisitsEntries(f, n - 1, rest)
  }

  /**
    Malformed input costs no more than well-formed input: at most one value is started
    per byte, and one more that fails; what succeeds starts no more than it consumes.
  */
  lemma {:induction false} VisitsAreBounded(f: Foreign, s: Bytes)
    ensures Visits(f, s) <= |s| + 1
    ensures DecodeNode(f, s).Parsed? ==> Visits(f, s) <= |s| - |DecodeNode(f, s).rest|
    decreases |s|, 0, 0
  {
    var h := ReadHead(f, s);
    if h.Parsed? {
      if h.value.major == 4 && h.value.arg <= MAX_COLLECTION {
        NodeVisitsAreBounded(f, h.value.arg, h.rest);
      } else if h.value.major == 5 && h.value.arg <= MAX_COLLECTION {
        EntryVisitsAreBounded(f, h.value.arg, h.rest);
      } else if h.value.major == 6 && h.value.arg != 42 {
        VisitsAreBounded(f, h.rest);
      }
    }
  }

  lemma {:induction false} NodeVisitsAreBounded(f: Foreign, n: nat, s: Bytes)
    ensures VisitsNodes(f, n, s) <= |s| + 1
    ensures DecodeNodes(f, n, s).Parsed? ==> VisitsNodes(f, n, s) <= |s| - |DecodeNodes(f, n, s).rest|
    decreases |s|, 1, n
  {
    hide DecodeNode, Visits;
    if n > 0 {
      VisitsAreBounded(f, s);
      if DecodeNode(f, s).Parsed? { NodeVisitsAreBounded(f, n - 1, DecodeNode(f, s).rest); }
    }
  }

  lemma {:induction false} EntryVisitsAreBounded(f: Foreign, n: nat, s: Bytes)
    ensures VisitsEntries(f, n, s) <= |s| + 1
    ensures DecodeEntries(f, n, s).Parsed? ==> VisitsEntries(f, n, s) <= |s| - |DecodeEntries(f, n, s).rest|
    decreases |s|, 1, n
  {
    hide DecodeKey, DecodeNode, Visits;
    if n > 0 && DecodeKey(f, s).Parsed? {
      var afterKey := DecodeKey(f, s).rest;
      VisitsAreBounded(f, afterKey);
      if DecodeNode(f, afterKey).Parsed? { EntryVisitsAreBounded(f, n - 1, DecodeNode(f, afterKey).rest); }
    }
  }

  /** On a record that decodes, the values started are the values of the tree. */
  lemma {:induction false} VisitsAreSize(f: Foreign, s: Bytes)
    requires DecodeNode(f, s).Parsed?
    ensures Visits(f, s) == Size(DecodeNode(f, s).value)
    decreases |s|, 0, 0
  {
    hide ReadHead, ReadRun, DecodeNodes, DecodeEntries, VisitsNodes, VisitsEntries, SizeNodes, SizeEntries;
    var h := ReadHead(f, s).value;
    var rest := ReadHead(f, s).rest;
    if h.major == 4 {
      NodeVisitsAreSize(f, h.arg, rest);
    } else if h.major == 5 {
      EntryVisitsAreSize(f, h.arg, rest);
    } else if h.major == 6 && h.arg != 42 {
      VisitsAreSize(f, rest);
    }
  }

  lemma {:induction false} NodeVisitsAreSize(f: Foreign, n: nat, s: Bytes)
    requires DecodeNodes(f, n, s).Parsed?
    ensures VisitsNodes(f, n, s) == SizeNodes(DecodeNodes(f, n, s).value)
    decreases |s|, 1, n
  {
    hide DecodeNode, Visits, Size;
    if n > 0 {
      VisitsAreSize(f, s);
      NodeVisitsAreSize(f, n - 1, DecodeNode(f, s).rest);
    }
  }

  lemma {:induction false} EntryVisitsAreSize(f: Foreign, n: nat, s: Bytes)
    requires DecodeEntries(f, n, s).Parsed?
    ensures VisitsEntries(f, n, s) == SizeEntries(DecodeEntries(f, n, s).value)
    decreases |s|, 1, n
  {
    hide DecodeKey, DecodeNode, Visits, Size;
    if n > 0 {
      var afterKey := DecodeKey(f, s).rest;
      VisitsAreSize(f, afterKey);
      EntryVisitsAreSize(f, n - 1, DecodeNode(f, afterKey).rest);
    }
  }

  /** The nodes of a tree are no more than the bytes it was read from, however deep the nesting. */
  lemma SizeWithinConsumption(f: Foreign, s: Bytes)
    requires DecodeNode(f, s).Parsed?
    ensures Size(DecodeNode(f, s).value) <= |s| - |DecodeNode(f, s).rest|
  {
    VisitsAreSize(f, s);
    VisitsAreBounded(f, s);
  }
}
