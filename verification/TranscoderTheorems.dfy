/** What a caller of the transcoder can rely on, for every byte string. */
module TranscoderTheorems {
  import opened Common
  import opened JsonText
  import opened CborTree
  import opened JsonPrinter
  import opened JsonParser
  import opened Transcoder
  import Base64

  // ------------------------------------------------------------------ the output

  /** What the output means: the record's value, or the empty object if it does not decode. */
  function Meaning(f: Foreign, data: Bytes): Json {
    match DecodeNode(f, data) case Parsed(n, _) => Intended(f, n) case Failed => JObject(NoMembers)
  }

  /** Whatever the bytes, the output is one whole JSON text and it reads as the record's value. */
  lemma OutputReadsBack(f: Foreign, data: Bytes)
    ensures ReadText(Transcoded(f, data).json) == Some(Meaning(f, data))
  {
    match DecodeNode(f, data) {
      case Parsed(n, _) => TextReadsBack(f, n);
      case Failed =>
        NoSpace(EMPTY_OBJECT);
        NoSpace([CLOSE_DICT]);
        ObjectByItsStart(EMPTY_OBJECT);
        assert EMPTY_OBJECT[1..] == [CLOSE_DICT];
    }
  }

  /** Bytes after a record that decodes change nothing. */
  lemma SuffixIgnored(f: Foreign, data: Bytes, suffix: Bytes)
    requires DecodeNode(f, data).Parsed?
    ensures Transcoded(f, data + suffix) == Transcoded(f, data)
  {
    DecodeIgnoresSuffix(f, data, suffix);
  }

  /**
    The work is bounded by the input, well formed or not: at most one WriteValue call
    per byte and one more, no more than the bytes consumed by a record that decodes,
    and never more reference bytes than input bytes.
  */
  lemma WorkIsBounded(f: Foreign, data: Bytes)
    ensures Visits(f, data) <= |data| + 1
    ensures DecodeNode(f, data).Parsed? ==> Visits(f, data) <= |data| - |DecodeNode(f, data).rest|
    ensures RefBytes(Transcoded(f, data).backlinks) <= |data|
  {
    VisitsAreBounded(f, data);
    if DecodeNode(f, data).Parsed? {
      RefsWithinConsumption(f, data, []);
    }
  }

  /** From a value through CBOR and JSON back to the value, with anything after the record. */
  lemma ValueSurvives(f: Foreign, n: Node, suffix: Bytes)
    requires WellFormed(f, n)
    ensures ReadText(Transcoded(f, Encode(f, n) + suffix).json) == Some(Intended(f, n))
    ensures Transcoded(f, Encode(f, n) + suffix).backlinks == Links(n, [])
  {
    DecodeEncoded(f, n, suffix);
    TextReadsBack(f, n);
  }

  /** A byte string can be recovered from the output. */
  lemma BlobSurvives(f: Foreign, b: Bytes)
    ensures ReadText(Print(f, Blob(b))).Some?
    ensures var v := ReadText(Print(f, Blob(b))).value;
            && v.JObject? && v.members.Member? && v.members.more.NoMembers?
            && v.members.key == [36, 98, 121, 116, 101, 115] && v.members.value.JString?
            && Base64.Decode(v.members.value.s) == Some(b)
  {
    TextReadsBack(f, Blob(b));
    Base64.RoundTrip(b);
  }

  // ------------------------------------------------------------------ the limits

  /** A string of up to ten megabytes is read whole, a longer one refused, whatever follows. */
  lemma StringLimit(f: Foreign, s: Bytes, rest: Bytes)
    requires |s| < TWO64
    ensures DecodeNode(f, WriteHead(2, |s|) + s + rest) == if |s| <= 10485760 then Parsed(Blob(s), rest) else Failed
    ensures DecodeNode(f, WriteHead(3, |s|) + s + rest) == if |s| <= 10485760 then Parsed(Text(s), rest) else Failed
  {
    HeadRoundTrip(f, 2, |s|, s + rest);
    HeadRoundTrip(f, 3, |s|, s + rest);
    Regroup(WriteHead(2, |s|), s, rest);
    Regroup(WriteHead(3, |s|), s, rest);
    CutAfter(s, rest);
    hide ReadHead, WriteHead, DecodeNodes, DecodeEntries, DecodeLink, DecodeOther;
  }

  /** A list or map may announce up to a million items; one more is refused before any is read. */
  lemma CollectionLimit(f: Foreign, n: U64, rest: Bytes)
    ensures DecodeNode(f, WriteHead(4, n) + rest)
            == if n > 1000000 then Failed
               else match DecodeNodes(f, n, rest) case Failed => Failed case Parsed(ns, r) => Parsed(List(ns), r)
    ensures DecodeNode(f, WriteHead(5, n) + rest)
            == if n > 1000000 then Failed
               else match DecodeEntries(f, n, rest) case Failed => Failed case Parsed(es, r) => Parsed(Dict(es), r)
  {
    HeadRoundTrip(f, 4, n, rest);
    HeadRoundTrip(f, 5, n, rest);
    hide ReadHead, WriteHead, ReadRun, DecodeNodes, DecodeEntries, DecodeLink, DecodeOther;
  }

  /** Codes 25, 26 and 27 take 2, 4 and 8 bytes more; every other code stands alone. */
  lemma CodeOperands(f: Foreign, code: U64, bits: Bytes, rest: Bytes)
    requires |bits| == if code == 25 then 2 else if code == 26 then 4 else if code == 27 then 8 else 0
    ensures DecodeNode(f, WriteHead(7, code) + (bits + rest))
            == Parsed(if bits == [] then Simple(code) else Float(code, bits), rest)
    ensures forall i :: 0 <= i < |bits| ==> DecodeNode(f, WriteHead(7, code) + bits[..i]).Failed?
  {
    HeadRoundTrip(f, 7, code, bits + rest);
    CutAfter(bits, rest);
    hide ReadHead, WriteHead, ReadRun, DecodeNodes, DecodeEntries, DecodeLink;
    if bits == [] { assert bits + rest == rest; }
    forall i | 0 <= i < |bits| ensures DecodeNode(f, WriteHead(7, code) + bits[..i]).Failed? {
      HeadRoundTrip(f, 7, code, bits[..i]);
    }
  }

  // -------------------------------------------------------------------- CID links

  /** The tag's bytes decode to a link if they parse as a CID. */
  lemma LinkDecodes(f: Foreign, p: Bytes)
    requires |p| <= 10485760
    ensures DecodeNode(f, WriteHead(6, 42) + WriteHead(2, |p|) + p)
            == if f.cid(CidBytes(p)).Some? then Parsed(Link(p), []) else Failed
  {
    var rest := WriteHead(2, |p|) + p;
    Regroup(WriteHead(6, 42), WriteHead(2, |p|), p);
    HeadRoundTrip(f, 6, 42, rest);
    HeadRoundTrip(f, 2, |p|, p);
    assert p[..|p|] == p && p[|p|..] == [];
    hide ReadHead, WriteHead, DecodeNodes, DecodeEntries, DecodeOther, CidBytes;
  }

  /** What the output reads as, for a tag 42 whose text is given. */
  predicate ReadsAsLink(json: Bytes, cid: Option<seq<PlainByte>>) {
    match cid
    case Some(t) => ReadText(json) == Some(JObject(Member([36, 108, 105, 110, 107], JString(t), NoMembers)))
    case None => json == [123, 125]
  }

  lemma LinkReads(f: Foreign, p: Bytes)
    requires |p| <= 10485760
    ensures ReadsAsLink(Transcoded(f, WriteHead(6, 42) + WriteHead(2, |p|) + p).json, f.cid(CidBytes(p)))
  {
    LinkDecodes(f, p);
    TextReadsBack(f, Link(p));
    hide DecodeNode, CidBytes, ReadText, Print, WriteHead;
  }

  /** A CID link is one zero byte and then the CID: the zero is dropped, and the rest must parse. */
  lemma CidLinkReads(f: Foreign, c: Bytes)
    requires c != [] && |c| < 10485760
    ensures ReadsAsLink(Transcoded(f, WriteHead(6, 42) + WriteHead(2, |c| + 1) + ([0] + c)).json, f.cid(c))
  {
    assert ([0] + c)[1..] == c;
    hide ReadsAsLink, Transcoded, WriteHead;
    LinkReads(f, [0] + c);
  }

  /** Any other payload is taken as it is. */
  lemma BareCidReads(f: Foreign, p: Bytes)
    requires |p| <= 10485760 && (|p| <= 1 || p[0] != 0)
    ensures ReadsAsLink(Transcoded(f, WriteHead(6, 42) + WriteHead(2, |p|) + p).json, f.cid(p))
  {
    LinkReads(f, p);
    hide ReadsAsLink, Transcoded, WriteHead;
  }

  // ----------------------------------------------------------- paths and texts

  /** One step from a container to something inside it. */
  datatype Step = Index | Field(name: Bytes)

  datatype Found = Found(trail: seq<Step>, text: Bytes)

  /** The path text of a trail. */
  function PathText(trail: seq<Step>): Bytes {
    if trail == [] then []
    else
      var before := PathText(trail[..|trail| - 1]);
      match trail[|trail| - 1]
      case Index => ItemPath(before)
      case Field(k) => ValuePath(before, k)
  }

  /** Every text value with its trail, in the order of the bytes. */
  function Texts(n: Node, trail: seq<Step>): seq<Found> {
    match n
    case Text(t) => [Found(trail, t)]
    case List(items) => ItemTexts(items, trail + [Index])
    case Dict(entries) => EntryTexts(entries, trail)
    case Tagged(_, content) => Texts(content, trail)
    case _ => []
  }

  function ItemTexts(ns: Nodes, trail: seq<Step>): seq<Found> {
    match ns case NoNodes => [] case Items(h, t) => Texts(h, trail) + ItemTexts(t, trail)
  }

  function EntryTexts(es: Entries, trail: seq<Step>): seq<Found> {
    match es
    case NoEntries => []
    case Entry(k, v, more) => Texts(v, trail + [Field(k)]) + EntryTexts(more, trail)
  }

  /** A trail as a path: keys joined by dots, items as [], empty keys at the start left out. */
  function Spelled(trail: seq<Step>): Bytes {
    if trail == [] then []
    else if trail[0] == Field([]) then Spelled(trail[1..])
    else (match trail[0] case Index => [91, 93] case Field(k) => k) + SpelledOn(trail[1..])
  }

  /** The same after something. */
  function SpelledOn(trail: seq<Step>): Bytes {
    if trail == [] then []
    else (match trail[0] case Index => [91, 93] case Field(k) => [46] + k) + SpelledOn(trail[1..])
  }

  /** Texts that start with did:plc:, did:web: or at:// are references, of these types. */
  function Reference(x: Found): seq<Backlink> {
    if [100, 105, 100, 58, 112, 108, 99, 58] <= x.text then [Backlink(x.text, Did, Spelled(x.trail))]
    else if [100, 105, 100, 58, 119, 101, 98, 58] <= x.text then [Backlink(x.text, Did, Spelled(x.trail))]
    else if [97, 116, 58, 47, 47] <= x.text then [Backlink(x.text, Uri, Spelled(x.trail))]
    else []
  }

  lemma {:induction false} SpelledOnSnoc(trail: seq<Step>, step: Step)
    ensures SpelledOn(trail + [step]) == SpelledOn(trail) + (match step case Index => [91, 93] case Field(k) => [46] + k)
  {
    if trail == [] {
      assert [step][1..] == [] && trail + [step] == [step];
    } else {
      assert (trail + [step])[1..] == trail[1..] + [step];
      SpelledOnSnoc(trail[1..], step);
    }
  }

  /** Spelling one more step: a dot only after something. */
  lemma {:induction false} SpelledSnoc(trail: seq<Step>, step: Step)
    ensures Spelled(trail + [step])
            == match step
               case Index => Spelled(trail) + [91, 93]
               case Field(k) => if Spelled(trail) == [] then k else Spelled(trail) + [46] + k
  {
    if trail == [] {
      assert trail + [step] == [step] && [step][1..] == [];
    } else {
      assert (trail + [step])[1..] == trail[1..] + [step];
      if trail[0] == Field([]) {
        SpelledSnoc(trail[1..], step);
      } else {
        SpelledOnSnoc(trail[1..], step);
      }
    }
  }

  /** The path text is the spelled trail. */
  lemma {:induction false} PathIsSpelled(trail: seq<Step>)
    ensures PathText(trail) == Spelled(trail)
  {
    if trail != [] {
      var init, last := trail[..|trail| - 1], trail[|trail| - 1];
      assert trail == init + [last];
      PathIsSpelled(init);
      SpelledSnoc(init, last);
      hide Spelled;
    }
  }

  /** The references among some texts. */
  function References(fs: seq<Found>): seq<Backlink> {
    if fs == [] then [] else Reference(fs[0]) + References(fs[1..])
  }

  lemma TextIsReference(trail: seq<Step>, t: Bytes)
    ensures TextLinks(t, PathText(trail)) == Reference(Found(trail, t))
  {
    PathIsSpelled(trail);
    hide PathText, Spelled;
    if AT_URI <= t { assert t[0] == 97; }
    if DID_PLC <= t || DID_WEB <= t { assert t[0] == 100; }
  }

  lemma {:induction false} ReferencesConcat(a: seq<Found>, b: seq<Found>)
    ensures References(a + b) == References(a) + References(b)
  {
    if a == [] {
      assert a + b == b;
    } else {
      assert (a + b)[1..] == a[1..] + b;
      ReferencesConcat(a[1..], b);
    }
  }

  lemma ExtendPath(trail: seq<Step>, k: Bytes)
    ensures PathText(trail + [Index]) == ItemPath(PathText(trail))
    ensures PathText(trail + [Field(k)]) == ValuePath(PathText(trail), k)
  {
    assert (trail + [Index])[..|trail|] == trail;
    assert (trail + [Field(k)])[..|trail|] == trail;
  }

  /** The backlinks are the references among all texts, each with the path of its trail. */
  lemma {:induction false} LinksAreReferences(n: Node, trail: seq<Step>)
    ensures Links(n, PathText(trail)) == References(Texts(n, trail))
    decreases n, 0
  {
    match n {
      case Text(t) =>
        TextIsReference(trail, t);
        assert References([]) == [] && [Found(trail, t)][1..] == [];
      case List(items) =>
        ExtendPath(trail, []);
        ItemLinksAreReferences(items, trail + [Index]);
      case Dict(entries) => EntryLinksAreReferences(entries, trail);
      case Tagged(_, content) => LinksAreReferences(content, trail);
      case _ =>
    }
  }

  lemma {:induction false} ItemLinksAreReferences(ns: Nodes, trail: seq<Step>)
    ensures ItemLinks(ns, PathText(trail)) == References(ItemTexts(ns, trail))
    decreases ns
  {
    match ns {
      case NoNodes =>
      case Items(h, t) =>
        LinksAreReferences(h, trail);
        ItemLinksAreReferences(t, trail);
        ReferencesConcat(Texts(h, trail), ItemTexts(t, trail));
    }
  }

  lemma {:induction false} EntryLinksAreReferences(es: Entries, trail: seq<Step>)
    ensures EntryLinks(es, PathText(trail)) == References(EntryTexts(es, trail))
    decreases es
  {
    match es {
      case NoEntries =>
      case Entry(k, v, more) =>
        ExtendPath(trail, k);
        LinksAreReferences(v, trail + [Field(k)]);
        EntryLinksAreReferences(more, trail);
        ReferencesConcat(Texts(v, trail + [Field(k)]), EntryTexts(more, trail));
    }
  }

  /** Trails that lead to createdAt: its key, under nothing or under empty keys only. */
  predicate LeadsToCreatedAt(trail: seq<Step>) {
    && trail != []
    && trail[|trail| - 1] == Field([99, 114, 101, 97, 116, 101, 100, 65, 116])
    && AllEmpty(trail[..|trail| - 1])
  }

  predicate AllEmpty(trail: seq<Step>) {
    forall i :: 0 <= i < |trail| ==> trail[i] == Field([])
  }

  lemma {:induction false} EmptyPaths(trail: seq<Step>)
    ensures PathText(trail) == [] <==> AllEmpty(trail)
  {
    if trail != [] {
      var init := trail[..|trail| - 1];
      EmptyPaths(init);
      assert forall i :: 0 <= i < |init| ==> init[i] == trail[i];
      if AllEmpty(trail) {
        assert trail[|trail| - 1] == Field([]);
      }
    }
  }

  /**
    A path reads createdAt for exactly these trails. The path text forgets
    structure, but no dotted or bracketed path collides with it.
  */
  lemma CreatedAtTrails(trail: seq<Step>)
    ensures PathText(trail) == CREATED_AT <==> LeadsToCreatedAt(trail)
  {
    if trail != [] {
      var init := trail[..|trail| - 1];
      var before := PathText(init);
      EmptyPaths(init);
      assert PathText(trail) == match trail[|trail| - 1] case Index => ItemPath(before) case Field(k) => ValuePath(before, k);
      hide PathText, AllEmpty;
      match trail[|trail| - 1] {
        case Index => ItemPathDiffers(before);
        case Field(k) => ValuePathDiffers(before, k);
      }
    }
  }

  lemma ItemPathDiffers(before: Bytes)
    ensures ItemPath(before) != CREATED_AT
  {
    assert ItemPath(before)[|before| + 1] == 93;
  }

  /** No dotted path is createdAt. */
  lemma ValuePathDiffers(before: Bytes, k: Bytes)
    ensures ValuePath(before, k) == CREATED_AT <==> before == [] && k == CREATED_AT
  {
    if before != [] {
      assert ValuePath(before, k)[|before|] == DOT;
    }
  }

  /** The last text on a createdAt trail, or what there was before. */
  function LastCreatedAt(fs: seq<Found>, before: Bytes): Bytes {
    if fs == [] then before
    else LastCreatedAt(fs[1..], if LeadsToCreatedAt(fs[0].trail) then fs[0].text else before)
  }

  lemma {:induction false} LastCreatedAtConcat(a: seq<Found>, b: seq<Found>, before: Bytes)
    ensures LastCreatedAt(a + b, before) == LastCreatedAt(b, LastCreatedAt(a, before))
  {
    if a == [] {
      assert a + b == b;
    } else {
      assert (a + b)[1..] == a[1..] + b;
      LastCreatedAtConcat(a[1..], b, if LeadsToCreatedAt(a[0].trail) then a[0].text else before);
    }
  }

  /** The createdAt text is the last text on a createdAt trail. */
  lemma {:induction false} CreatedAtIsLast(n: Node, trail: seq<Step>, before: Bytes)
    ensures CreatedAt(n, PathText(trail), before) == LastCreatedAt(Texts(n, trail), before)
    decreases n, 0
  {
    match n {
      case Text(t) =>
        CreatedAtTrails(trail);
        assert LastCreatedAt([], t) == t && LastCreatedAt([], before) == before;
        assert [Found(trail, t)][1..] == [];
      case List(items) =>
        ExtendPath(trail, []);
        ItemsCreatedAtIsLast(items, trail + [Index], before);
      case Dict(entries) => EntriesCreatedAtIsLast(entries, trail, before);
      case Tagged(_, content) => CreatedAtIsLast(content, trail, before);
      case _ =>
    }
  }

  lemma {:induction false} ItemsCreatedAtIsLast(ns: Nodes, trail: seq<Step>, before: Bytes)
    ensures ItemsCreatedAt(ns, PathText(trail), before) == LastCreatedAt(ItemTexts(ns, trail), before)
    decreases ns
  {
    match ns {
      case NoNodes =>
      case Items(h, t) =>
        CreatedAtIsLast(h, trail, before);
        ItemsCreatedAtIsLast(t, trail, CreatedAt(h, PathText(trail), before));
        LastCreatedAtConcat(Texts(h, trail), ItemTexts(t, trail), before);
    }
  }

  lemma {:induction false} EntriesCreatedAtIsLast(es: Entries, trail: seq<Step>, before: Bytes)
    ensures EntriesCreatedAt(es, PathText(trail), before) == LastCreatedAt(EntryTexts(es, trail), before)
    decreases es
  {
    match es {
      case NoEntries =>
      case Entry(k, v, more) =>
        var inner := trail + [Field(k)];
        ExtendPath(trail, k);
        CreatedAtIsLast(v, inner, before);
        EntriesCreatedAtIsLast(more, trail, CreatedAt(v, PathText(inner), before));
        LastCreatedAtConcat(Texts(v, inner), EntryTexts(more, trail), before);
    }
  }

  /** What the transcoder returns beside the JSON, in terms of the record's texts. */
  lemma CollectedFromTexts(f: Foreign, data: Bytes)
    requires DecodeNode(f, data).Parsed?
    ensures var texts := Texts(DecodeNode(f, data).value, []);
            && Transcoded(f, data).backlinks == References(texts)
            && Transcoded(f, data).createdAt == LastCreatedAt(texts, [])
  {
    LinksAreReferences(DecodeNode(f, data).value, []);
    CreatedAtIsLast(DecodeNode(f, data).value, [], []);
  }

  // ------------------------------------------------ which createdAt a record gets

  /** The trail of the top-level createdAt field. */
  predicate TopLevel(trail: seq<Step>) {
    trail == [Field([99, 114, 101, 97, 116, 101, 100, 65, 116])]
  }

  /** The last top-level createdAt text, if there is one. */
  function TopCreatedAt(fs: seq<Found>): Bytes {
    if fs == [] then []
    else if TopLevel(fs[|fs| - 1].trail) then fs[|fs| - 1].text
    else TopCreatedAt(fs[..|fs| - 1])
  }

  /** Which text is taken for createdAt: the last on a createdAt trail. */
  function Taken(fs: seq<Found>): (i: int)
    ensures -1 <= i < |fs|
    ensures i >= 0 ==> LeadsToCreatedAt(fs[i].trail)
    ensures forall j :: i < j < |fs| ==> !LeadsToCreatedAt(fs[j].trail)
  {
    if fs == [] then -1
    else if LeadsToCreatedAt(fs[|fs| - 1].trail) then |fs| - 1
    else Taken(fs[..|fs| - 1])
  }

  lemma {:induction false} TakenText(fs: seq<Found>)
    ensures LastCreatedAt(fs, []) == if Taken(fs) < 0 then [] else fs[Taken(fs)].text
  {
    if fs != [] {
      var init, last := fs[..|fs| - 1], fs[|fs| - 1];
      TakenText(init);
      LastCreatedAtConcat(init, [last], []);
      OneText(last, LastCreatedAt(init, []));
      assert fs == init + [last];
    }
  }

  lemma OneText(x: Found, before: Bytes)
    ensures LastCreatedAt([x], before) == if LeadsToCreatedAt(x.trail) then x.text else before
  {
    assert [x][1..] == [];
  }

  lemma TopLeads()
    ensures LeadsToCreatedAt([Field(CREATED_AT)])
  {
    assert [Field(CREATED_AT)][..0] == [];
  }

  /** The text taken is the top-level field's unless it lies under empty keys. */
  lemma {:induction false} TakenIsTop(fs: seq<Found>)
    ensures Taken(fs) < 0 ==> TopCreatedAt(fs) == []
    ensures Taken(fs) >= 0 && TopLevel(fs[Taken(fs)].trail) ==> TopCreatedAt(fs) == fs[Taken(fs)].text
  {
    if fs != [] {
      TopLeads();
      TakenIsTop(fs[..|fs| - 1]);
    }
  }

  /** Text i is the one taken, and it lies under empty keys. */
  predicate Shadows(fs: seq<Found>, i: int) {
    && 0 <= i < |fs|
    && LeadsToCreatedAt(fs[i].trail) && !TopLevel(fs[i].trail)
    && forall j :: i < j < |fs| ==> !LeadsToCreatedAt(fs[j].trail)
  }

  /**
    The createdAt text is the record's top-level field exactly when no text under
    empty keys comes after it, or that text is the same.
  */
  lemma CreatedAtIsTopLevel(f: Foreign, data: Bytes)
    requires DecodeNode(f, data).Parsed?
    ensures var texts := Texts(DecodeNode(f, data).value, []);
            Transcoded(f, data).createdAt == TopCreatedAt(texts) <==>
              forall i :: Shadows(texts, i) ==> texts[i].text == TopCreatedAt(texts)
  {
    CollectedFromTexts(f, data);
    var texts := Texts(DecodeNode(f, data).value, []);
    TakenText(texts);
    TakenIsTop(texts);
    forall i | Shadows(texts, i) ensures i == Taken(texts) {}
    assert Taken(texts) >= 0 && !TopLevel(texts[Taken(texts)].trail) ==> Shadows(texts, Taken(texts));
    hide Transcoded, Texts, TopCreatedAt, LastCreatedAt;
  }

  /** The keys of the record's own map. */
  function RootKeys(n: Node): seq<Bytes> {
    match n
    case Dict(entries) => Keys(entries)
    case Tagged(_, content) => RootKeys(content)
    case _ => []
  }

  lemma {:induction false} TrailsExtend(n: Node, trail: seq<Step>)
    ensures forall i :: 0 <= i < |Texts(n, trail)| ==> trail <= Texts(n, trail)[i].trail
    decreases n, 0
  {
    match n {
      case List(items) => ItemTrailsExtend(items, trail + [Index]);
      case Dict(entries) => EntryTrailsExtend(entries, trail);
      case Tagged(_, content) => TrailsExtend(content, trail);
      case _ =>
    }
  }

  lemma {:induction false} ItemTrailsExtend(ns: Nodes, trail: seq<Step>)
    ensures forall i :: 0 <= i < |ItemTexts(ns, trail)| ==> trail <= ItemTexts(ns, trail)[i].trail
    decreases ns
  {
    match ns {
      case NoNodes =>
      case Items(h, t) =>
        TrailsExtend(h, trail);
        ItemTrailsExtend(t, trail);
    }
  }

  /** The text lies inside trail, under one of the keys. */
  predicate UnderKey(x: Found, trail: seq<Step>, keys: seq<Bytes>) {
    |x.trail| > |trail| && trail <= x.trail && x.trail[|trail|].Field? && x.trail[|trail|].name in keys
  }

  /** Every text of a map lies under one of its keys. */
  lemma {:induction false} EntryTrailsExtend(es: Entries, trail: seq<Step>)
    ensures forall i :: 0 <= i < |EntryTexts(es, trail)| ==> UnderKey(EntryTexts(es, trail)[i], trail, Keys(es))
    decreases es
  {
    match es {
      case NoEntries =>
      case Entry(k, v, more) =>
        TrailsExtend(v, trail + [Field(k)]);
        EntryTrailsExtend(more, trail);
        var a, b := Texts(v, trail + [Field(k)]), EntryTexts(more, trail);
        forall i | 0 <= i < |EntryTexts(es, trail)| ensures UnderKey(EntryTexts(es, trail)[i], trail, Keys(es)) {
          if i < |a| {
            assert trail + [Field(k)] <= a[i].trail;
            assert a[i].trail[|trail|] == (trail + [Field(k)])[|trail|];
          } else {
            assert UnderKey(b[i - |a|], trail, Keys(more));
          }
        }
    }
  }

  /** Without an empty key in the record's own map, only the top-level field is on a createdAt trail. */
  lemma {:induction false} NoEmptyKeyNoShadow(n: Node, i: nat)
    requires [] !in RootKeys(n) && i < |Texts(n, [])| && LeadsToCreatedAt(Texts(n, [])[i].trail)
    ensures TopLevel(Texts(n, [])[i].trail)
  {
    var trail := Texts(n, [])[i].trail;
    match n {
      case List(items) =>
        ItemTrailsExtend(items, [] + [Index]);
        assert trail[0] == Index;
        FirstStepIsEmpty(trail);
      case Dict(entries) =>
        EntryTrailsExtend(entries, []);
        FirstStepIsEmpty(trail);
      case Tagged(_, content) => NoEmptyKeyNoShadow(content, i);
      case _ =>
    }
  }

  lemma FirstStepIsEmpty(trail: seq<Step>)
    requires LeadsToCreatedAt(trail)
    ensures trail[0] == Field([]) || TopLevel(trail)
  {
    if |trail| > 1 {
      assert trail[..|trail| - 1][0] == trail[0];
    }
  }

  /** A caller's guard: a record whose own map has no empty key gets its top-level createdAt. */
  lemma NoEmptyKeyIsTopLevel(f: Foreign, data: Bytes)
    requires DecodeNode(f, data).Parsed? && [] !in RootKeys(DecodeNode(f, data).value)
    ensures Transcoded(f, data).createdAt == TopCreatedAt(Texts(DecodeNode(f, data).value, []))
  {
    CreatedAtIsTopLevel(f, data);
    var n := DecodeNode(f, data).value;
    forall i ensures !Shadows(Texts(n, []), i) {
      if Shadows(Texts(n, []), i) { NoEmptyKeyNoShadow(n, i); }
    }
  }

  /** A record without a top-level createdAt that gets one all the same, from under an empty key. */
  lemma EmptyKeyIsTaken(f: Foreign, t: Bytes)
    requires |t| <= MAX_STRING
    ensures var n := Dict(Entry([], Dict(Entry(CREATED_AT, Text(t), NoEntries)), NoEntries));
            && WellFormed(f, n)
            && Transcoded(f, Encode(f, n)).createdAt == t
            && TopCreatedAt(Texts(n, [])) == []
  {
    var inner := Dict(Entry(CREATED_AT, Text(t), NoEntries));
    var n := Dict(Entry([], inner, NoEntries));
    OneEntry(f, CREATED_AT, Text(t), [] + [Field([])]);
    OneEntry(f, [], inner, []);
    DecodeEncoded(f, n, []);
    assert Encode(f, n) + [] == Encode(f, n);
    var trail := [] + [Field([])] + [Field(CREATED_AT)];
    CreatedAtIsLast(n, [], []);
    OneText(Found(trail, t), []);
    assert trail[..1] == [Field([])];
    assert !TopLevel(trail);
    assert TopCreatedAt([]) == [] && [Found(trail, t)][..0] == [];
    hide Encode, DecodeNode, Texts, WellFormed;
  }

  lemma OneEntry(f: Foreign, k: Bytes, v: Node, trail: seq<Step>)
    ensures Texts(Dict(Entry(k, v, NoEntries)), trail) == Texts(v, trail + [Field(k)])
    ensures |k| <= MAX_STRING && WellFormed(f, v) ==> WellFormed(f, Dict(Entry(k, v, NoEntries)))
  {
    var es := Entry(k, v, NoEntries);
    assert EntryTexts(NoEntries, trail) == [];
    assert EntryTexts(es, trail) == Texts(v, trail + [Field(k)]) + [];
    assert WellFormedEntries(f, NoEntries);
    assert EntryCount(es) == 1;
    assert |k| <= MAX_STRING && WellFormed(f, v) ==> WellFormedEntries(f, es);
  }
}
