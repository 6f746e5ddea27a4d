/**
  Exactly which bytes decode: with a head reader that insists on shortest heads, the
  encodings of the trees within the limits and nothing else.
*/
module CborCanonical {
  import opened Common
  import opened JsonText
  import opened CborTree

  lemma {:induction false} BigEndianBack(s: Bytes)
    ensures ToBigEndian(BigEndian(s), |s|) == s
  {
    if s != [] {
      var init, last := s[..|s| - 1], s[|s| - 1];
      BigEndianBack(init);
      LastDigit(BigEndian(init), last);
      assert s == init + [last];
    }
  }

  lemma LastDigit(n: nat, b: Byte)
    ensures (n * 256 + b) / 256 == n && (n * 256 + b) % 256 == b
  {
  }

  /** A head that was accepted is the shortest head of what it says. */
  lemma StrictHead(f: Foreign, s: Bytes)
    requires f.strictHeads && ReadHead(f, s).Parsed?
    ensures var h := ReadHead(f, s);
            s == WriteHead(h.value.major, h.value.arg) + h.rest
  {
    var major, info := s[0] / 32, s[0] % 32;
    var width := ArgWidth(info).value;
    var arg := ReadHead(f, s).value.arg;
    HeadCut(s, width);
    assert s[0] == major * 32 + info;
    if width > 0 {
      BigEndianBack(s[1..][..width]);
      assert InfoOf(width) == info;
    }
    assert WriteHead(major, arg) == [s[0]] + s[1..][..width];
  }

  lemma HeadCut(s: Bytes, width: nat)
    requires |s| >= 1 + width
    ensures s == [s[0]] + s[1..][..width] + s[1 + width..]
  {
  }

  /** What a decoded prefix of s looks like. */
  ghost predicate IsEncoding(f: Foreign, s: Bytes, n: Node, rest: Bytes) {
    WellFormed(f, n) && s == Encode(f, n) + rest
  }

  lemma RunIsPrefix(extra: U64, s: Bytes)
    requires ReadRun(extra, s).Parsed?
    ensures |ReadRun(extra, s).value| == extra <= MAX_STRING && s == ReadRun(extra, s).value + ReadRun(extra, s).rest
  {
  }

  lemma Behind(s: Bytes, head: Bytes, after: Bytes, body: Bytes, rest: Bytes)
    requires s == head + after && after == body + rest
    ensures s == head + body + rest
  {
    Regroup(head, body, rest);
  }

  /** Whatever a strict reader decodes is the encoding of what it returns. */
  lemma {:induction false} StrictIsEncoded(f: Foreign, s: Bytes)
    requires f.strictHeads && DecodeNode(f, s).Parsed?
    ensures IsEncoding(f, s, DecodeNode(f, s).value, DecodeNode(f, s).rest)
    decreases |s|, 0, 0
  {
    hide ReadHead, WriteHead, ReadRun, DecodeNodes, DecodeEntries, EncodeNodes, EncodeEntries, DecodeLink, DecodeOther;
    hide WellFormedNodes, WellFormedEntries, Length, EntryCount;
    var h, after, n, rest := ReadHead(f, s).value, ReadHead(f, s).rest, DecodeNode(f, s).value, DecodeNode(f, s).rest;
    StrictHead(f, s);
    var head := WriteHead(h.major, h.arg);
    if h.major == 2 || h.major == 3 {
      RunIsPrefix(h.arg, after);
      Behind(s, head, after, ReadRun(h.arg, after).value, rest);
    } else if h.major == 4 {
      StrictNodes(f, h.arg, after);
      Behind(s, head, after, EncodeNodes(f, n.items), rest);
    } else if h.major == 5 {
      StrictEntries(f, h.arg, after);
      Behind(s, head, after, EncodeEntries(f, n.entries), rest);
    } else if h.major == 6 && h.arg == 42 {
      StrictLink(f, after);
      Behind(s, head, after, WriteHead(2, |n.payload|) + n.payload, rest);
    } else if h.major == 6 {
      StrictIsEncoded(f, after);
      Behind(s, head, after, Encode(f, n.content), rest);
    } else if h.major == 7 {
      StrictOther(h.arg, after);
      if n.Float? { Behind(s, head, after, n.bits, rest); }
    }
  }

  lemma StrictOther(code: U64, s: Bytes)
    requires DecodeOther(code, s).Parsed?
    ensures var n, rest := DecodeOther(code, s).value, DecodeOther(code, s).rest;
            if FloatWidth(code) == 0 then n == Simple(code) && s == rest
            else n.Float? && n.code == code && |n.bits| == FloatWidth(code) && s == n.bits + rest
  {
  }

  lemma StrictLink(f: Foreign, s: Bytes)
    requires f.strictHeads && DecodeLink(f, s).Parsed?
    ensures DecodeLink(f, s).value.Link?
    ensures var p, rest := DecodeLink(f, s).value.payload, DecodeLink(f, s).rest;
            |p| <= MAX_STRING && f.cid(CidBytes(p)).Some? && s == WriteHead(2, |p|) + p + rest
  {
    hide ReadHead, WriteHead, ReadRun, CidBytes;
    var h := ReadHead(f, s);
    StrictHead(f, s);
    RunIsPrefix(h.value.arg, h.rest);
    Behind(s, WriteHead(2, h.value.arg), h.rest, ReadRun(h.value.arg, h.rest).value, ReadRun(h.value.arg, h.rest).rest);
  }

  lemma StrictKey(f: Foreign, s: Bytes)
    requires f.strictHeads && DecodeKey(f, s).Parsed?
    ensures var k, rest := DecodeKey(f, s).value, DecodeKey(f, s).rest;
            |k| <= MAX_STRING && s == WriteHead(3, |k|) + k + rest
  {
    hide ReadHead, WriteHead, ReadRun;
    var h := ReadHead(f, s);
    StrictHead(f, s);
    RunIsPrefix(h.value.arg, h.rest);
    Behind(s, WriteHead(3, h.value.arg), h.rest, ReadRun(h.value.arg, h.rest).value, ReadRun(h.value.arg, h.rest).rest);
  }

  lemma {:induction false} StrictNodes(f: Foreign, n: nat, s: Bytes)
    requires f.strictHeads && DecodeNodes(f, n, s).Parsed?
    ensures var ns := DecodeNodes(f, n, s).value;
            WellFormedNodes(f, ns) && Length(ns) == n && s == EncodeNodes(f, ns) + DecodeNodes(f, n, s).rest
    decreases |s|, 1, n
  {
    hide DecodeNode, WellFormed, Encode;
    if n > 0 {
      StrictIsEncoded(f, s);
      StrictNodes(f, n - 1, DecodeNode(f, s).rest);
      Behind(s, Encode(f, DecodeNode(f, s).value), DecodeNode(f, s).rest,
             EncodeNodes(f, DecodeNodes(f, n - 1, DecodeNode(f, s).rest).value), DecodeNodes(f, n, s).rest);
    }
  }

  lemma {:induction false} StrictEntries(f: Foreign, n: nat, s: Bytes)
    requires f.strictHeads && DecodeEntries(f, n, s).Parsed?
    ensures var es := DecodeEntries(f, n, s).value;
            WellFormedEntries(f, es) && EntryCount(es) == n && s == EncodeEntries(f, es) + DecodeEntries(f, n, s).rest
    decreases |s|, 1, n
  {
    hide DecodeKey, DecodeNode, WellFormed, Encode, WriteHead;
    if n > 0 {
      StrictKey(f, s);
      var k, afterKey := DecodeKey(f, s).value, DecodeKey(f, s).rest;
      StrictIsEncoded(f, afterKey);
      var v, after := DecodeNode(f, afterKey).value, DecodeNode(f, afterKey).rest;
      StrictEntries(f, n - 1, after);
      var more := EncodeEntries(f, DecodeEntries(f, n - 1, after).value);
      Behind(afterKey, Encode(f, v), after, more, DecodeEntries(f, n, s).rest);
      Behind(s, WriteHead(3, |k|) + k, afterKey, Encode(f, v) + more, DecodeEntries(f, n, s).rest);
    }
  }

  /**
    A strict reader decodes a value exactly from its encoding: every tree within the
    limits has one encoding, and every byte string starts with at most one.
  */
  lemma DecodesExactly(f: Foreign, s: Bytes, n: Node, rest: Bytes)
    requires f.strictHeads
    ensures DecodeNode(f, s) == Parsed(n, rest) <==> IsEncoding(f, s, n, rest)
  {
    if IsEncoding(f, s, n, rest) {
      DecodeEncoded(f, n, rest);
    } else if DecodeNode(f, s) == Parsed(n, rest) {
      StrictIsEncoded(f, s);
    }
    hide DecodeNode, Encode, WellFormed;
  }

  /** A reader that is not strict accepts all of that, with the same result. */
  lemma LaxAcceptsStrict(f: Foreign, s: Bytes)
    requires DecodeNode(f.(strictHeads := true), s).Parsed?
    ensures DecodeNode(f.(strictHeads := false), s) == DecodeNode(f.(strictHeads := true), s)
  {
    var strict, lax := f.(strictHeads := true), f.(strictHeads := false);
    var n, rest := DecodeNode(strict, s).value, DecodeNode(strict, s).rest;
    StrictIsEncoded(strict, s);
    SameEncoding(strict, lax, n);
    DecodeEncoded(lax, n, rest);
    hide DecodeNode, Encode, WellFormed;
  }

  lemma {:induction false} SameEncoding(f: Foreign, g: Foreign, n: Node)
    requires g == f.(strictHeads := g.strictHeads) && WellFormed(f, n)
    ensures WellFormed(g, n) && Encode(g, n) == Encode(f, n)
    decreases n, 0
  {
    hide WriteHead, CidBytes, FloatWidth;
    match n {
      case List(items) => SameNodes(f, g, items);
      case Dict(entries) => SameEntries(f, g, entries);
      case Tagged(_, content) => SameEncoding(f, g, content);
      case _ =>
    }
  }

  lemma {:induction false} SameNodes(f: Foreign, g: Foreign, ns: Nodes)
    requires g == f.(strictHeads := g.strictHeads) && WellFormedNodes(f, ns)
    ensures WellFormedNodes(g, ns) && EncodeNodes(g, ns) == EncodeNodes(f, ns)
    decreases ns
  {
    match ns {
      case NoNodes =>
      case Items(h, t) =>
        SameEncoding(f, g, h);
        SameNodes(f, g, t);
    }
  }

  lemma {:induction false} SameEntries(f: Foreign, g: Foreign, es: Entries)
    requires g == f.(strictHeads := g.strictHeads) && WellFormedEntries(f, es)
    ensures WellFormedEntries(g, es) && EncodeEntries(g, es) == EncodeEntries(f, es)
    decreases es
  {
    match es {
      case NoEntries =>
      case Entry(_, v, more) =>
        SameEncoding(f, g, v);
        SameEntries(f, g, more);
    }
  }
}
