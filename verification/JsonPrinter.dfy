/** What the transcoder writes for a tree, and what it collects from it. */
module JsonPrinter {
  import opened Common
  import opened JsonText
  import opened CborTree
  import Base64

  const COMMA: Byte := 44
  const COLON: Byte := 58
  const MINUS: Byte := 45
  const DOT: Byte := 46
  const OPEN_LIST: Byte := 91
  const CLOSE_LIST: Byte := 93
  const OPEN_DICT: Byte := 123
  const CLOSE_DICT: Byte := 125

  const TRUE_TEXT: Bytes := [116, 114, 117, 101]
  const FALSE_TEXT: Bytes := [102, 97, 108, 115, 101]
  const NULL_TEXT: Bytes := [110, 117, 108, 108]
  const EMPTY_OBJECT: Bytes := [123, 125]
  const DOLLAR_BYTES: Bytes := [36, 98, 121, 116, 101, 115]
  const DOLLAR_LINK: Bytes := [36, 108, 105, 110, 107]
  const CREATED_AT: Bytes := [99, 114, 101, 97, 116, 101, 100, 65, 116]

  // -------------------------------------------------------------------- printing

  /** strconv.FormatUint(n, 10). */
  function Decimal(n: nat): Bytes {
    if n < 10 then [48 + n] else Decimal(n / 10) + [48 + n % 10]
  }

  function DigitByte(d: int): Byte
    requires 0 <= d < 10
  {
    48 + d
  }

  function DigitText(ds: seq<Digit>): Bytes {
    if ds == [] then [] else [DigitByte(ds[0])] + DigitText(ds[1..])
  }

  function FracText(frac: seq<Digit>): Bytes {
    if frac == [] then [] else [DOT] + DigitText(frac)
  }

  function SignText(neg: bool): Bytes {
    if neg then [MINUS] else []
  }

  /** {"name":"text"} for a text that needs no escaping. */
  function Wrapped(name: Bytes, text: Bytes): Bytes {
    [OPEN_DICT] + Quoted(name) + [COLON] + Quoted(text) + [CLOSE_DICT]
  }

  function PrintFloat(t: FloatText): Bytes {
    match t
    case NotFinite => NULL_TEXT
    case Finite(neg, whole, frac) => SignText(neg) + Decimal(whole) + FracText(frac)
  }

  function PrintSimple(code: U64): Bytes {
    if code == 20 then FALSE_TEXT
    else if code == 21 then TRUE_TEXT
    else if code == 22 || code == 23 then NULL_TEXT
    else Decimal(code)
  }

  function CidText(f: Foreign, payload: Bytes): Bytes {
    match f.cid(CidBytes(payload)) case Some(t) => t case None => []
  }

  function Print(f: Foreign, n: Node): Bytes {
    match n
    case UInt(x) => Decimal(x)
    case NInt(x) => SignText(true) + Decimal(x + 1)
    case Text(t) => Quoted(EscapeBytes(t))
    case Blob(b) => Wrapped(DOLLAR_BYTES, Base64.Encode(b))
    case List(items) => [OPEN_LIST] + PrintItems(f, items, true) + [CLOSE_LIST]
    case Dict(entries) => [OPEN_DICT] + PrintEntries(f, entries, true) + [CLOSE_DICT]
    case Link(p) => Wrapped(DOLLAR_LINK, CidText(f, p))
    case Tagged(_, content) => Print(f, content)
    case Simple(code) => PrintSimple(code)
    case Float(_, bits) => PrintFloat(f.float(bits))
  }

  function PrintItems(f: Foreign, ns: Nodes, first: bool): Bytes {
    match ns
    case NoNodes => []
    case Items(h, t) => (if first then [] else [COMMA]) + Print(f, h) + PrintItems(f, t, false)
  }

  function PrintEntries(f: Foreign, es: Entries, first: bool): Bytes {
    match es
    case NoEntries => []
    case Entry(k, v, more) =>
      (if first then [] else [COMMA]) + Quoted(EscapeRunes(k)) + [COLON] + Print(f, v) + PrintEntries(f, more, false)
  }

  // ------------------------------------------------------------------ collecting

  datatype RefType = Did | Uri

  /** Backlink. */
  datatype Backlink = Backlink(ref: Bytes, refType: RefType, path: Bytes)

  const DID_PLC: Bytes := [100, 105, 100, 58, 112, 108, 99, 58]
  const DID_WEB: Bytes := [100, 105, 100, 58, 119, 101, 98, 58]
  const AT_URI: Bytes := [97, 116, 58, 47, 47]

  predicate IsDid(b: Bytes) {
    DID_PLC <= b || DID_WEB <= b
  }

  predicate IsAtUri(b: Bytes) {
    AT_URI <= b
  }

  function ClassifyRef(b: Bytes): RefType {
    if AT_URI <= b then Uri else Did
  }

  /** The path of a list's items. */
  function ItemPath(path: Bytes): Bytes {
    path + [91, 93]
  }

  /** The path of a map's value. */
  function ValuePath(path: Bytes, key: Bytes): Bytes {
    if path != [] then path + [DOT] + key else key
  }

  function TextLinks(t: Bytes, path: Bytes): seq<Backlink> {
    if IsDid(t) || IsAtUri(t) then [Backlink(t, ClassifyRef(t), path)] else []
  }

  /** Every text value that looks like a reference, in the order of the bytes. */
  function Links(n: Node, path: Bytes): seq<Backlink> {
    match n
    case Text(t) => TextLinks(t, path)
    case List(items) => ItemLinks(items, ItemPath(path))
    case Dict(entries) => EntryLinks(entries, path)
    case Tagged(_, content) => Links(content, path)
    case _ => []
  }

  function ItemLinks(ns: Nodes, path: Bytes): seq<Backlink> {
    match ns case NoNodes => [] case Items(h, t) => Links(h, path) + ItemLinks(t, path)
  }

  function EntryLinks(es: Entries, path: Bytes): seq<Backlink> {
    match es
    case NoEntries => []
    case Entry(k, v, more) => Links(v, ValuePath(path, k)) + EntryLinks(more, path)
  }

  /** The last text whose path is createdAt, or what there was before. */
  function CreatedAt(n: Node, path: Bytes, before: Bytes): Bytes {
    match n
    case Text(t) => if path == CREATED_AT then t else before
    case List(items) => ItemsCreatedAt(items, ItemPath(path), before)
    case Dict(entries) => EntriesCreatedAt(entries, path, before)
    case Tagged(_, content) => CreatedAt(content, path, before)
    case _ => before
  }

  function ItemsCreatedAt(ns: Nodes, path: Bytes, before: Bytes): Bytes {
    match ns
    case NoNodes => before
    case Items(h, t) => ItemsCreatedAt(t, path, CreatedAt(h, path, before))
  }

  function EntriesCreatedAt(es: Entries, path: Bytes, before: Bytes): Bytes {
    match es
    case NoEntries => before
    case Entry(k, v, more) => EntriesCreatedAt(more, path, CreatedAt(v, ValuePath(path, k), before))
  }

  /** Total length of the references collected. */
  function RefBytes(ls: seq<Backlink>): nat {
    if ls == [] then 0 else RefBytes(ls[..|ls| - 1]) + |ls[|ls| - 1].ref|
  }

  lemma {:induction false} RefBytesConcat(a: seq<Backlink>, b: seq<Backlink>)
    ensures RefBytes(a + b) == RefBytes(a) + RefBytes(b)
  {
    if b == [] {
      assert a + b == a;
    } else {
      assert (a + b)[..|a + b| - 1] == a + b[..|b| - 1];
      RefBytesConcat(a, b[..|b| - 1]);
    }
  }

  /** The references collected from a value are no longer, in all, than the bytes it was read from. */
  lemma {:induction false} RefsWithinConsumption(f: Foreign, s: Bytes, path: Bytes)
    requires DecodeNode(f, s).Parsed?
    ensures RefBytes(Links(DecodeNode(f, s).value, path)) <= |s| - |DecodeNode(f, s).rest|
    decreases |s|, 0, 0
  {
    hide ReadHead, DecodeNodes, DecodeEntries, ItemLinks, EntryLinks, TextLinks, RefBytes;
    NoRefs();
    var h := ReadHead(f, s).value;
    var rest := ReadHead(f, s).rest;
    if h.major == 3 {
      TextRefBytes(ReadRun(h.arg, rest).value, path);
    } else if h.major == 4 {
      ItemRefsWithinConsumption(f, h.arg, rest, ItemPath(path));
    } else if h.major == 5 {
      EntryRefsWithinConsumption(f, h.arg, rest, path);
    } else if h.major == 6 && h.arg != 42 {
      RefsWithinConsumption(f, rest, path);
    }
  }

  lemma NoRefs()
    ensures RefBytes([]) == 0
  {
  }

  lemma TextRefBytes(t: Bytes, path: Bytes)
    ensures RefBytes(TextLinks(t, path)) <= |t|
  {
    assert RefBytes([]) == 0;
  }

  lemma {:induction false} ItemRefsWithinConsumption(f: Foreign, n: nat, s: Bytes, path: Bytes)
    requires DecodeNodes(f, n, s).Parsed?
    ensures RefBytes(ItemLinks(DecodeNodes(f, n, s).value, path)) <= |s| - |DecodeNodes(f, n, s).rest|
    decreases |s|, 1, n
  {
    hide DecodeNode, Links;
    if n > 0 {
      var p := DecodeNode(f, s);
      RefsWithinConsumption(f, s, path);
      ItemRefsWithinConsumption(f, n - 1, p.rest, path);
      RefBytesConcat(Links(p.value, path), ItemLinks(DecodeNodes(f, n - 1, p.rest).value, path));
    }
  }

  lemma {:induction false} EntryRefsWithinConsumption(f: Foreign, n: nat, s: Bytes, path: Bytes)
    requires DecodeEntries(f, n, s).Parsed?
    ensures RefBytes(EntryLinks(DecodeEntries(f, n, s).value, path)) <= |s| - |DecodeEntries(f, n, s).rest|
    decreases |s|, 1, n
  {
    hide DecodeNode, DecodeKey, Links, ValuePath;
    if n > 0 {
      var k := DecodeKey(f, s);
      var p := DecodeNode(f, k.rest);
      RefsWithinConsumption(f, k.rest, ValuePath(path, k.value));
      EntryRefsWithinConsumption(f, n - 1, p.rest, path);
      RefBytesConcat(Links(p.value, ValuePath(path, k.value)), EntryLinks(DecodeEntries(f, n - 1, p.rest).value, path));
    }
  }
}
