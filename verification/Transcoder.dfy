/**
  The single-pass transcoder: it prints while it reads, threads the path, the
  createdAt text and the reference list through the recursion, and reuses one
  string buffer for every key and text value. It is proved to do what decoding to
  a tree, then printing and collecting from the tree, does.
*/
module Transcoder {
  import opened Common
  import opened Utf8
  import opened JsonText
  import opened CborTree
  import opened JsonPrinter
  import Base64

  // --------------------------------------------------------------- reference

  /** The reader, the output and the two accumulators. */
  datatype Progress = Progress(unread: Bytes, out: Bytes, createdAt: Bytes, backlinks: seq<Backlink>)

  /** Decode one value to a tree, then print the tree and collect from it. */
  function AfterNode(f: Foreign, path: Bytes, st: Progress): Option<Progress> {
    match DecodeNode(f, st.unread)
    case Failed => None
    case Parsed(n, rest) =>
      Some(Progress(rest, st.out + Print(f, n), CreatedAt(n, path, st.createdAt), st.backlinks + Links(n, path)))
  }

  function AfterItems(f: Foreign, path: Bytes, n: nat, first: bool, st: Progress): Option<Progress> {
    match DecodeNodes(f, n, st.unread)
    case Failed => None
    case Parsed(ns, rest) =>
      Some(Progress(rest, st.out + PrintItems(f, ns, first), ItemsCreatedAt(ns, path, st.createdAt),
                    st.backlinks + ItemLinks(ns, path)))
  }

  function AfterEntries(f: Foreign, path: Bytes, n: nat, first: bool, st: Progress): Option<Progress> {
    match DecodeEntries(f, n, st.unread)
    case Failed => None
    case Parsed(es, rest) =>
      Some(Progress(rest, st.out + PrintEntries(f, es, first), EntriesCreatedAt(es, path, st.createdAt),
                    st.backlinks + EntryLinks(es, path)))
  }

  function Separator(first: bool): Bytes {
    if first then [] else [COMMA]
  }

  function Wrote(st: Progress, text: Bytes): Progress {
    st.(out := st.out + text)
  }

  /** Printing the items one by one as they are read is printing the decoded items. */
  lemma ItemsFuse(f: Foreign, path: Bytes, n: nat, first: bool, st: Progress)
    requires n > 0
    ensures AfterItems(f, path, n, first, st)
            == match AfterNode(f, path, Wrote(st, Separator(first)))
               case None => None
               case Some(mid) => AfterItems(f, path, n - 1, false, mid)
  {
    hide DecodeNode, Print, Links, CreatedAt;
    var p := DecodeNode(f, st.unread);
    if p.Parsed? && DecodeNodes(f, n - 1, p.rest).Parsed? {
      var t := DecodeNodes(f, n - 1, p.rest).value;
      assert st.out + PrintItems(f, Items(p.value, t), first)
          == st.out + Separator(first) + Print(f, p.value) + PrintItems(f, t, false);
      assert st.backlinks + ItemLinks(Items(p.value, t), path)
          == st.backlinks + Links(p.value, path) + ItemLinks(t, path);
    }
  }

  /** The state between a key and its value. */
  function AfterKey(key: Bytes, rest: Bytes, first: bool, st: Progress): Progress {
    Wrote(st, Separator(first) + Quoted(EscapeRunes(key)) + [COLON]).(unread := rest)
  }

  lemma EntriesFuse(f: Foreign, path: Bytes, n: nat, first: bool, st: Progress)
    requires n > 0
    ensures AfterEntries(f, path, n, first, st)
            == match DecodeKey(f, st.unread)
               case Failed => None
               case Parsed(key, rest) =>
                 match AfterNode(f, ValuePath(path, key), AfterKey(key, rest, first, st))
                 case None => None
                 case Some(mid) => AfterEntries(f, path, n - 1, false, mid)
  {
    hide DecodeKey, DecodeNode, Print, Links, CreatedAt, ValuePath, Quoted, EscapeRunes;
    var k := DecodeKey(f, st.unread);
    if k.Parsed? && DecodeNode(f, k.rest).Parsed? {
      var p := DecodeNode(f, k.rest);
      if DecodeEntries(f, n - 1, p.rest).Parsed? {
        var t := DecodeEntries(f, n - 1, p.rest).value;
        var name := Quoted(EscapeRunes(k.value));
        hide DecodeEntries;
        assert PrintEntries(f, Entry(k.value, p.value, t), first)
            == Separator(first) + name + [COLON] + Print(f, p.value) + PrintEntries(f, t, false);
        hide PrintEntries, Separator;
        Regroup(st.out, Separator(first) + name + [COLON], Print(f, p.value));
        Regroup(st.out, Separator(first) + name + [COLON] + Print(f, p.value), PrintEntries(f, t, false));
        assert st.backlinks + EntryLinks(Entry(k.value, p.value, t), path)
            == st.backlinks + Links(p.value, ValuePath(path, k.value)) + EntryLinks(t, path);
      }
    }
  }

  lemma NoItemsLeft(f: Foreign, path: Bytes, first: bool, st: Progress)
    ensures AfterItems(f, path, 0, first, st) == Some(st)
    ensures AfterEntries(f, path, 0, first, st) == Some(st)
  {
    assert st.out + [] == st.out;
    assert st.backlinks + [] == st.backlinks;
  }

  /** A value, by the head it starts with. */
  lemma ByHead(f: Foreign, path: Bytes, st: Progress)
    requires ReadHead(f, st.unread).Parsed?
    ensures var h := ReadHead(f, st.unread).value;
            var now := st.(unread := ReadHead(f, st.unread).rest);
            && (h.major == 0 ==> AfterNode(f, path, st) == Some(Wrote(now, Decimal(h.arg))))
            && (h.major == 1 ==> AfterNode(f, path, st) == Some(Wrote(now, SignText(true) + Decimal(h.arg + 1))))
            && (h.major == 2 ==> AfterNode(f, path, st) == AfterBlob(h.arg, now))
            && (h.major == 3 ==> AfterNode(f, path, st) == AfterText(h.arg, path, now))
            && (h.major == 4 ==> AfterNode(f, path, st) == AfterList(f, path, h.arg, now))
            && (h.major == 5 ==> AfterNode(f, path, st) == AfterDict(f, path, h.arg, now))
            && (h.major == 6 && h.arg == 42 ==> AfterNode(f, path, st) == AfterLink(f, now))
            && (h.major == 6 && h.arg != 42 ==> AfterNode(f, path, st) == AfterNode(f, path, now))
            && (h.major == 7 ==> AfterNode(f, path, st) == AfterOther(f, h.arg, now))
  {
    hide ReadHead, Decimal, EscapeBytes, Wrapped, Base64.Encode, PrintFloat, PrintSimple, TextLinks;
    hide DecodeNodes, DecodeEntries, PrintItems, PrintEntries, ItemLinks, EntryLinks, ItemsCreatedAt, EntriesCreatedAt;
    assert st.backlinks + [] == st.backlinks;
    var h := ReadHead(f, st.unread).value;
    var rest := ReadHead(f, st.unread).rest;
    if h.major == 4 && h.arg <= MAX_COLLECTION && DecodeNodes(f, h.arg, rest).Parsed? {
      var ns := DecodeNodes(f, h.arg, rest).value;
      assert st.out + ([OPEN_LIST] + PrintItems(f, ns, true) + [CLOSE_LIST])
          == st.out + [OPEN_LIST] + PrintItems(f, ns, true) + [CLOSE_LIST];
    } else if h.major == 5 && h.arg <= MAX_COLLECTION && DecodeEntries(f, h.arg, rest).Parsed? {
      var es := DecodeEntries(f, h.arg, rest).value;
      assert st.out + ([OPEN_DICT] + PrintEntries(f, es, true) + [CLOSE_DICT])
          == st.out + [OPEN_DICT] + PrintEntries(f, es, true) + [CLOSE_DICT];
    }
  }

  function AfterText(arg: U64, path: Bytes, now: Progress): Option<Progress> {
    match ReadRun(arg, now.unread)
    case Failed => None
    case Parsed(t, rest) =>
      Some(Progress(rest, now.out + Quoted(EscapeBytes(t)), if path == CREATED_AT then t else now.createdAt,
                    now.backlinks + TextLinks(t, path)))
  }

  function AfterBlob(arg: U64, now: Progress): Option<Progress> {
    match ReadRun(arg, now.unread)
    case Failed => None
    case Parsed(b, rest) => Some(Wrote(now, Wrapped(DOLLAR_BYTES, Base64.Encode(b))).(unread := rest))
  }

  function AfterList(f: Foreign, path: Bytes, arg: U64, now: Progress): Option<Progress> {
    if arg > MAX_COLLECTION then None
    else
      match AfterItems(f, ItemPath(path), arg, true, Wrote(now, [OPEN_LIST]))
      case None => None
      case Some(end) => Some(Wrote(end, [CLOSE_LIST]))
  }

  function AfterDict(f: Foreign, path: Bytes, arg: U64, now: Progress): Option<Progress> {
    if arg > MAX_COLLECTION then None
    else
      match AfterEntries(f, path, arg, true, Wrote(now, [OPEN_DICT]))
      case None => None
      case Some(end) => Some(Wrote(end, [CLOSE_DICT]))
  }

  function AfterLink(f: Foreign, now: Progress): Option<Progress> {
    match DecodeLink(f, now.unread)
    case Failed => None
    case Parsed(n, rest) => Some(Wrote(now, Print(f, n)).(unread := rest))
  }

  function AfterOther(f: Foreign, code: U64, now: Progress): Option<Progress> {
    match DecodeOther(code, now.unread)
    case Failed => None
    case Parsed(n, rest) => Some(Wrote(now, Print(f, n)).(unread := rest))
  }

  lemma FourDigits(n: nat, a: nat, b: nat, c: nat, d: nat)
    requires n > 0 && a < 10 && b < 10 && c < 10 && d < 10
    ensures Decimal(n * 10000 + a * 1000 + b * 100 + c * 10 + d) == Decimal(n) + [48 + a, 48 + b, 48 + c, 48 + d]
  {
    LastDigit(n, a);
    LastDigit(n * 10 + a, b);
    LastDigit(n * 100 + a * 10 + b, c);
    LastDigit(n * 1000 + a * 100 + b * 10 + c, d);
    hide Decimal;
  }

  lemma LastDigit(n: nat, d: nat)
    requires n > 0 && d < 10
    ensures Decimal(n * 10 + d) == Decimal(n) + [48 + d]
  {
  }

  /** The one integer whose text the code spells out. */
  lemma LargestMagnitude()
    ensures Decimal(TWO64) == [49, 56, 52, 52, 54, 55, 52, 52, 48, 55, 51, 55, 48, 57, 53, 53, 49, 54, 49, 54]
  {
    assert Decimal(1) == [49];
    hide Decimal;
    LastDigit(1, 8);
    LastDigit(18, 4);
    LastDigit(184, 4);
    FourDigits(1844, 6, 7, 4, 4);
    FourDigits(18446744, 0, 7, 3, 7);
    FourDigits(184467440737, 0, 9, 5, 5);
    FourDigits(1844674407370955, 1, 6, 1, 6);
  }

  /** FastCBORToJSON, through the tree. */
  datatype CborResult = CborResult(json: Bytes, createdAt: Bytes, backlinks: seq<Backlink>)

  function Transcoded(f: Foreign, data: Bytes): CborResult {
    match DecodeNode(f, data)
    case Failed => CborResult(EMPTY_OBJECT, [], [])
    case Parsed(n, _) => CborResult(Print(f, n), CreatedAt(n, [], []), Links(n, []))
  }

  /** strconv.FormatInt(z, 10). */
  function FormatInt(z: int): Bytes {
    if z < 0 then [MINUS] + Decimal(-z) else Decimal(z)
  }

  lemma NothingEscaped()
    ensures EscapeRunes([]) == [] && EscapeBytes([]) == []
  {
  }

  lemma RegroupFour(a: Bytes, b: Bytes, c: Bytes, d: Bytes)
    ensures a + b + c + d == a + (b + c + d)
  {
  }

  /** An object of one string, written piece by piece. */
  lemma WrappedPieces(before: Bytes, name: Bytes, text: Bytes)
    ensures before + [OPEN_DICT] + Quoted(name) + [COLON, QUOTE] + text + [QUOTE, CLOSE_DICT] == before + Wrapped(name, text)
  {
    assert Wrapped(name, text) == [OPEN_DICT] + Quoted(name) + [COLON, QUOTE] + text + [QUOTE, CLOSE_DICT];
  }

  lemma RuneStep(s: Bytes)
    requires s != []
    ensures var (r, n) := NextRune(s);
            && 1 <= n <= |s|
            && EscapeRunes(s) == EscapeRune(r) + EscapeRunes(s[n..])
            && (r < 0x80 ==> EscapeRune(r) == EscapeAscii(r))
            && (r >= 0x80 ==> EscapeRune(r) == EncodeRune(r))
  {
    hide EscapeAscii, EncodeRune, CharSize, CodePoint;
  }

  lemma ByteStep(s: Bytes, i: nat)
    requires i < |s|
    ensures EscapeBytes(s[i..]) == EscapeByte(s[i]) + EscapeBytes(s[i + 1..])
    ensures s[i] < 0x80 ==> EscapeByte(s[i]) == EscapeAscii(s[i])
    ensures s[i] >= 0x80 ==> EscapeByte(s[i]) == [s[i]]
  {
    assert s[i..][1..] == s[i + 1..];
  }

  // -------------------------------------------------------------- the machine

  class Transcoder {
    const foreign: Foreign
    var unread: Bytes
    var out: Bytes
    var createdAt: Bytes
    var backlinks: seq<Backlink>
    /** How often WriteValue was called. */
    ghost var visits: nat

    constructor (f: Foreign, data: Bytes)
      ensures foreign == f && unread == data && out == [] && createdAt == [] && backlinks == [] && visits == 0
    {
      foreign := f;
      unread, out, createdAt, backlinks, visits := data, [], [], [], 0;
    }

    function Now(): Progress
      reads this
    {
      Progress(unread, out, createdAt, backlinks)
    }

    /** CborReadHeaderBuf. */
    method TakeHead() returns (ok: bool, major: nat, extra: U64)
      modifies this`unread
      ensures ok == ReadHead(foreign, old(unread)).Parsed?
      ensures ok ==> ReadHead(foreign, old(unread)) == Parsed(Head(major, extra), unread)
    {
      match ReadHead(foreign, unread) {
        case Failed => ok, major, extra := false, 0, 0;
        case Parsed(h, rest) =>
          ok, major, extra := true, h.major, h.arg;
          unread := rest;
      }
    }

    /** io.ReadFull into buf[:n]: what there is overwrites the buffer even when it is too little. */
    method ReadFull(buf: array<Byte>, n: nat) returns (ok: bool)
      requires n <= buf.Length
      modifies this`unread, buf
      ensures ok == (n <= |old(unread)|)
      ensures ok ==> buf[..n] == old(unread)[..n] && unread == old(unread)[n..]
      ensures ok ==> buf[n..] == old(buf[n..])
    {
      var got := Min(n, |unread|);
      forall i | 0 <= i < got {
        buf[i] := unread[i];
      }
      unread := unread[got..];
      ok := got == n;
    }

    /**
      The bytes land at the front of the given buffer if it is large enough and in
      a new one otherwise; the caller's buffer may be overwritten either way.
    */
    method ReadStringToBuffer(length: int, buf: array<Byte>) returns (ok: bool, data: array<Byte>, n: nat)
      modifies this`unread, buf
      ensures data == buf || fresh(data)
      ensures ok <==> 0 <= length <= MAX_STRING && length <= |old(unread)|
      ensures ok ==> n == length <= data.Length && data[..n] == old(unread)[..n] && unread == old(unread)[n..]
    {
      if length == 0 {
        return true, buf, 0;
      }
      if length < 0 || length > MAX_STRING {
        return false, buf, 0;
      }
      data, n := buf, length;
      if buf.Length < length {
        data := new Byte[length];
      }
      ok := ReadFull(data, n);
    }

    method ReadBytes(length: int) returns (ok: bool, data: array<Byte>)
      modifies this`unread
      ensures fresh(data)
      ensures ok <==> 0 <= length <= MAX_STRING && length <= |old(unread)|
      ensures ok ==> data[..] == old(unread)[..length] && unread == old(unread)[length..]
    {
      data := new Byte[0];
      if length == 0 {
        return true, data;
      }
      if length < 0 || length > MAX_STRING {
        return false, data;
      }
      data := new Byte[length];
      ok := ReadFull(data, length);
      assert data[..] == data[..length];
    }

    /** The key is copied out of the buffer before anything can overwrite it. */
    method ReadMapKey(buf: array<Byte>) returns (ok: bool, key: Bytes, data: array<Byte>)
      modifies this`unread, buf
      ensures data == buf || fresh(data)
      ensures ok == DecodeKey(foreign, old(unread)).Parsed?
      ensures ok ==> DecodeKey(foreign, old(unread)) == Parsed(key, unread)
    {
      key, data := [], buf;
      var major, extra;
      ok, major, extra := TakeHead();
      if !ok {
        return;
      }
      if major != 3 {
        return false, key, buf;
      }
      var n;
      ok, data, n := ReadStringToBuffer(AsInt64(extra), buf);
      if ok {
        key := data[..n];
      }
    }

    /** The switch both string loops share. */
    method WriteAscii(c: Byte)
      requires c < 0x80
      modifies this`out
      ensures out == old(out) + EscapeAscii(c)
    {
      if c == QUOTE {
        out := out + [BACKSLASH, QUOTE];
      } else if c == BACKSLASH {
        out := out + [BACKSLASH, BACKSLASH];
      } else if c == 10 {
        out := out + [BACKSLASH, 110];
      } else if c == 13 {
        out := out + [BACKSLASH, 114];
      } else if c == 9 {
        out := out + [BACKSLASH, 116];
      } else if c == 8 {
        out := out + [BACKSLASH, 98];
      } else if c == 12 {
        out := out + [BACKSLASH, 102];
      } else if c < 0x20 {
        out := out + [BACKSLASH, 117, 48, 48] + [HexDigit(c / 16), HexDigit(c % 16)];
      } else {
        out := out + [c];
      }
    }

    /** writeJSONString: rune by rune. */
    method WriteJsonString(s: Bytes)
      modifies this`out
      ensures out == old(out) + Quoted(EscapeRunes(s))
    {
      NothingEscaped();
      hide EscapeRunes, EscapeRune, EscapeAscii, CharSize, CodePoint;
      out := out + [QUOTE];
      var i := 0;
      assert s[0..] == s;
      while i < |s|
        invariant 0 <= i <= |s|
        invariant out + EscapeRunes(s[i..]) == old(out) + [QUOTE] + EscapeRunes(s)
        decreases |s| - i
      {
        RuneStep(s[i..]);
        var (r, n) := NextRune(s[i..]);
        assert s[i..][n..] == s[i + n..];
        ghost var before := out;
        if r < 0x80 {
          WriteAscii(r);
        } else {
          out := out + EncodeRune(r);
        }
        assert out == before + EscapeRune(r);
        Regroup(before, EscapeRune(r), EscapeRunes(s[i + n..]));
        i := i + n;
      }
      assert s[i..] == [];
      assert out + [] == out;
      out := out + [QUOTE];
    }

    /** writeJSONStringBytes: byte by byte, over a slice of the shared buffer. */
    method WriteJsonStringBytes(data: array<Byte>, n: nat)
      requires n <= data.Length
      modifies this`out
      ensures out == old(out) + Quoted(EscapeBytes(data[..n]))
    {
      NothingEscaped();
      hide EscapeBytes, EscapeByte, EscapeAscii;
      out := out + [QUOTE];
      ghost var s := data[..n];
      var i := 0;
      assert s[0..] == s;
      while i < n
        invariant 0 <= i <= n
        invariant out + EscapeBytes(s[i..]) == old(out) + [QUOTE] + EscapeBytes(s)
      {
        ghost var before := out;
        var b := data[i];
        ByteStep(s, i);
        if b < 0x80 {
          WriteAscii(b);
        } else {
          out := out + [b];
        }
        assert out == before + EscapeByte(b);
        Regroup(before, EscapeByte(b), EscapeBytes(s[i + 1..]));
        i := i + 1;
      }
      assert s[i..] == [];
      assert out + [] == out;
      out := out + [QUOTE];
    }

    method WriteNegative(extra: U64)
      modifies this`out
      ensures out == old(out) + (SignText(true) + Decimal(extra + 1))
    {
      hide Decimal;
      if extra > TWO63 - 1 {
        if extra == TWO64 - 1 {
          LargestMagnitude();
          out := out + [45, 49, 56, 52, 52, 54, 55, 52, 52, 48, 55, 51, 55, 48, 57, 53, 53, 49, 54, 49, 54];
        } else {
          out := out + [MINUS];
          out := out + Decimal((extra + 1) % TWO64);
        }
      } else {
        out := out + FormatInt(-1 - AsInt64(extra));
      }
    }

    method WriteCid() returns (ok: bool)
      modifies this`unread, this`out
      ensures ok == AfterLink(foreign, old(Now())).Some?
      ensures ok ==> Some(Now()) == AfterLink(foreign, old(Now()))
    {
      hide ReadHead, Quoted, Wrapped;
      var major, extra;
      ok, major, extra := TakeHead();
      if !ok || major != 2 {
        return false;
      }
      var data;
      ok, data := ReadBytes(AsInt64(extra));
      if !ok {
        return;
      }
      ghost var payload := data[..];
      var cidBytes := data[..];
      if |cidBytes| > 1 && cidBytes[0] == 0 {
        cidBytes := cidBytes[1..];
      }
      match foreign.cid(cidBytes) {
        case None => ok := false;
        case Some(text) =>
          assert DecodeLink(foreign, old(unread)) == Parsed(Link(payload), unread);
          out := out + [OPEN_DICT] + Quoted(DOLLAR_LINK) + [COLON, QUOTE];
          out := out + text;
          out := out + [QUOTE, CLOSE_DICT];
          WrappedPieces(old(out), DOLLAR_LINK, text);
      }
    }

    method WriteOther(extra: U64) returns (ok: bool)
      modifies this`unread, this`out
      ensures ok == AfterOther(foreign, extra, old(Now())).Some?
      ensures ok ==> Some(Now()) == AfterOther(foreign, extra, old(Now()))
    {
      ok := true;
      if extra == 20 {
        out := out + FALSE_TEXT;
      } else if extra == 21 {
        out := out + TRUE_TEXT;
      } else if extra == 22 || extra == 23 {
        out := out + NULL_TEXT;
      } else if extra == 25 || extra == 26 || extra == 27 {
        var data := new Byte[if extra == 25 then 2 else if extra == 26 then 4 else 8];
        ok := ReadFull(data, data.Length);
        if ok {
          assert data[..] == data[..data.Length];
          out := out + PrintFloat(foreign.float(data[..]));
        }
      } else {
        out := out + Decimal(extra);
      }
    }

    method WriteText(extra: U64, path: Bytes, buf: array<Byte>) returns (ok: bool)
      modifies this, buf
      ensures ok == AfterText(extra, path, old(Now())).Some? && visits == old(visits)
      ensures ok ==> Some(Now()) == AfterText(extra, path, old(Now()))
    {
      var data, n;
      ok, data, n := ReadStringToBuffer(AsInt64(extra), buf);
      if !ok {
        return;
      }
      WriteJsonStringBytes(data, n);
      var text := data[..n];
      assert ReadRun(extra, old(unread)) == Parsed(text, unread);
      if path == CREATED_AT {
        createdAt := text;
      }
      if IsDid(text) || IsAtUri(text) {
        backlinks := backlinks + [Backlink(text, ClassifyRef(text), path)];
      }
      assert backlinks == old(backlinks) + TextLinks(text, path);
    }

    method WriteBlob(extra: U64) returns (ok: bool)
      modifies this`unread, this`out
      ensures ok == AfterBlob(extra, old(Now())).Some?
      ensures ok ==> Some(Now()) == AfterBlob(extra, old(Now()))
    {
      var data;
      ok, data := ReadBytes(AsInt64(extra));
      if !ok {
        return;
      }
      var text := Base64.Encode(data[..]);
      out := out + [OPEN_DICT] + Quoted(DOLLAR_BYTES) + [COLON, QUOTE];
      out := out + text;
      out := out + [QUOTE, CLOSE_DICT];
      WrappedPieces(old(out), DOLLAR_BYTES, text);
    }

    method WriteList(extra: U64, path: Bytes, buf: array<Byte>) returns (ok: bool)
      modifies this, buf
      ensures ok == AfterList(foreign, path, extra, old(Now())).Some?
      ensures ok ==> Some(Now()) == AfterList(foreign, path, extra, old(Now()))
      ensures visits == old(visits) + if extra > MAX_COLLECTION then 0 else VisitsNodes(foreign, extra, old(unread))
      decreases |unread|, 1
    {
      hide AfterNode, AfterItems, Visits, VisitsNodes;
      if extra > MAX_COLLECTION {
        return false;
      }
      out := out + [OPEN_LIST];
      ghost var start := Now();
      var i := 0;
      while i < extra
        invariant 0 <= i <= extra && |unread| <= |old(unread)|
        invariant AfterItems(foreign, ItemPath(path), extra - i, i == 0, Now())
               == AfterItems(foreign, ItemPath(path), extra, true, start)
        invariant visits + VisitsNodes(foreign, extra - i, unread) == old(visits) + VisitsNodes(foreign, extra, start.unread)
      {
        NodesVisited(foreign, ItemPath(path), extra - i, Wrote(Now(), Separator(i == 0)));
        ItemsFuse(foreign, ItemPath(path), extra - i, i == 0, Now());
        ghost var before := Now();
        if i > 0 {
          out := out + [COMMA];
        }
        assert Now() == Wrote(before, Separator(i == 0));
        ok := WriteValue(path + [91, 93], buf);
        if !ok {
          return;
        }
        i := i + 1;
      }
      NoItemsLeft(foreign, ItemPath(path), i == 0, Now());
      NothingVisited(foreign, unread);
      out := out + [CLOSE_LIST];
      ok := true;
    }

    /** The comma before an entry, its key and its colon. */
    method WriteKey(first: bool, buf: array<Byte>) returns (ok: bool, key: Bytes, data: array<Byte>)
      modifies this`unread, this`out, buf
      ensures data == buf || fresh(data)
      ensures ok == DecodeKey(foreign, old(unread)).Parsed?
      ensures ok ==> DecodeKey(foreign, old(unread)) == Parsed(key, unread)
      ensures ok ==> Now() == AfterKey(key, unread, first, old(Now()))
    {
      hide DecodeKey, Quoted, EscapeRunes;
      if !first {
        out := out + [COMMA];
      }
      assert out == old(out) + Separator(first);
      ok, key, data := ReadMapKey(buf);
      if !ok {
        return;
      }
      WriteJsonString(key);
      out := out + [COLON];
      RegroupFour(old(out), Separator(first), Quoted(EscapeRunes(key)), [COLON]);
    }

    method WriteMap(extra: U64, path: Bytes, buf: array<Byte>) returns (ok: bool)
      modifies this, buf
      ensures ok == AfterDict(foreign, path, extra, old(Now())).Some?
      ensures ok ==> Some(Now()) == AfterDict(foreign, path, extra, old(Now()))
      ensures visits == old(visits) + if extra > MAX_COLLECTION then 0 else VisitsEntries(foreign, extra, old(unread))
      decreases |unread|, 1
    {
      hide AfterNode, AfterEntries, DecodeKey, AfterKey, Visits, VisitsEntries;
      if extra > MAX_COLLECTION {
        return false;
      }
      out := out + [OPEN_DICT];
      ghost var start := Now();
      var i := 0;
      while i < extra
        invariant 0 <= i <= extra && |unread| <= |old(unread)|
        invariant AfterEntries(foreign, path, extra - i, i == 0, Now())
               == AfterEntries(foreign, path, extra, true, start)
        invariant visits + VisitsEntries(foreign, extra - i, unread) == old(visits) + VisitsEntries(foreign, extra, start.unread)
      {
        EntriesVisited(foreign, path, extra - i, i == 0, Now());
        EntriesFuse(foreign, path, extra - i, i == 0, Now());
        var key, inner;
        ok, key, inner := WriteKey(i == 0, buf);
        if !ok {
          return;
        }
        var valuePath := key;
        if path != [] {
          valuePath := path + [DOT] + key;
        }
        ok := WriteValue(valuePath, inner);
        if !ok {
          return;
        }
        i := i + 1;
      }
      NoItemsLeft(foreign, path, i == 0, Now());
      NothingVisited(foreign, unread);
      out := out + [CLOSE_DICT];
      ok := true;
    }

    /** writeValueAsJSON: reads one value and leaves what decode-then-print leaves. */
    method WriteValue(path: Bytes, buf: array<Byte>) returns (ok: bool)
      modifies this, buf
      ensures ok == AfterNode(foreign, path, old(Now())).Some?
      ensures ok ==> Some(Now()) == AfterNode(foreign, path, old(Now()))
      ensures ok ==> |unread| < |old(unread)|
      ensures visits == old(visits) + Visits(foreign, old(unread))
      decreases |unread|, 0
    {
      hide DecodeNode, ReadHead, VisitsNodes, VisitsEntries, AfterText, AfterList, AfterDict, AfterBlob, AfterLink, AfterOther, Decimal;
      ghost var st := Now();
      visits := visits + 1;
      var major, extra;
      ok, major, extra := TakeHead();
      if !ok {
        HeadFails(foreign, st.unread);
        return;
      }
      ByHead(foreign, path, st);
      match major {
        case 0 => out := out + Decimal(extra);
        case 1 => WriteNegative(extra);
        case 2 => ok := WriteBlob(extra);
        case 3 => ok := WriteText(extra, path, buf);
        case 4 => ok := WriteList(extra, path, buf);
        case 5 => ok := WriteMap(extra, path, buf);
        case 6 =>
          if extra == 42 {
            ok := WriteCid();
          } else {
            ok := WriteValue(path, buf);
          }
        case _ => ok := WriteOther(extra);
      }
    }
  }

  /** The values started by the items: those of the first, then, if it succeeds, those of the others. */
  lemma NodesVisited(f: Foreign, path: Bytes, n: nat, st: Progress)
    requires n > 0
    ensures VisitsNodes(f, n, st.unread)
            == Visits(f, st.unread) + match AfterNode(f, path, st) case None => 0 case Some(mid) => VisitsNodes(f, n - 1, mid.unread)
  {
    hide DecodeNode, Visits, Print, CreatedAt, Links;
  }

  lemma EntriesVisited(f: Foreign, path: Bytes, n: nat, first: bool, st: Progress)
    requires n > 0
    ensures VisitsEntries(f, n, st.unread)
            == match DecodeKey(f, st.unread)
               case Failed => 0
               case Parsed(key, rest) =>
                 Visits(f, rest)
                 + match AfterNode(f, ValuePath(path, key), AfterKey(key, rest, first, st))
                   case None => 0
                   case Some(mid) => VisitsEntries(f, n - 1, mid.unread)
  {
    hide DecodeKey, DecodeNode, Visits, Print, CreatedAt, Links, ValuePath;
  }

  lemma NothingVisited(f: Foreign, s: Bytes)
    ensures VisitsNodes(f, 0, s) == 0 && VisitsEntries(f, 0, s) == 0
  {
  }

  lemma HeadFails(f: Foreign, s: Bytes)
    requires ReadHead(f, s).Failed?
    ensures DecodeNode(f, s).Failed?
  {
  }

  /** FastCBORToJSON, before its createdAt text is parsed as a time: never a partial result. */
  method FastCborToJson(f: Foreign, data: Bytes) returns (r: CborResult)
    ensures r == Transcoded(f, data)
  {
    var t := new Transcoder(f, data);
    var strBuf := new Byte[0];
    var ok := t.WriteValue([], strBuf);
    if !ok {
      return CborResult(EMPTY_OBJECT, [], []);
    }
    r := CborResult(t.out, t.createdAt, t.backlinks);
  }
}
