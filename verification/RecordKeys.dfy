/**
  Record keys in the vals zone: collection first, so that a collection is one
  contiguous range of the store's byte order, and the key a delete derives from a
  record's URI.
*/
module RecordKeys {
  import opened Common

  const SLASH: Byte := 47
  const AT_SCHEME: Bytes := [97, 116, 58, 47, 47]

  /** {collection}/{did}/{rkey}. */
  function RecordKey(collection: Bytes, did: Bytes, rkey: Bytes): Bytes {
    collection + [SLASH] + did + [SLASH] + rkey
  }

  /** The position of the first slash, or the length if there is none. */
  function FirstSlash(s: Bytes): (i: nat)
    ensures i <= |s|
    ensures forall j :: 0 <= j < i ==> s[j] != SLASH
    ensures i < |s| ==> s[i] == SLASH
  {
    if s == [] || s[0] == SLASH then 0 else 1 + FirstSlash(s[1..])
  }

  /** strings.SplitN(s, "/", n) for n > 0. */
  function SplitN(s: Bytes, n: nat): (parts: seq<Bytes>)
    requires n > 0
    ensures 0 < |parts| <= n
    decreases n
  {
    var i := FirstSlash(s);
    if n == 1 || i == |s| then [s] else [s[..i]] + SplitN(s[i + 1..], n - 1)
  }

  /** strings.Join(parts, "/"). */
  function Join(parts: seq<Bytes>): Bytes
    requires parts != []
  {
    if |parts| == 1 then parts[0] else parts[0] + [SLASH] + Join(parts[1..])
  }

  /** fmt.Sprintf("at://%s/%s", repo, path). */
  function RecordUri(repo: Bytes, path: Bytes): Bytes {
    AT_SCHEME + (repo + [SLASH] + path)
  }

  /** The URI a delete operation is queued under: at://repo/collection/rkey. */
  function DeleteUri(repo: Bytes, collection: Bytes, rkey: Bytes): Bytes {
    AT_SCHEME + (repo + [SLASH] + (collection + [SLASH] + rkey))
  }

  function UriToRecordKey(uri: Bytes): Option<Bytes> {
    if !(AT_SCHEME <= uri) then None
    else
      var parts := SplitN(uri[|AT_SCHEME|..], 3);
      if |parts| != 3 then None else Some(RecordKey(parts[1], parts[0], parts[2]))
  }

  predicate NoSlash(s: Bytes) {
    forall i :: 0 <= i < |s| ==> s[i] != 47
  }

  // ------------------------------------------------------------------- splitting

  lemma {:induction false} SlashAfter(a: Bytes, b: Bytes)
    requires NoSlash(a)
    ensures FirstSlash(a + [SLASH] + b) == |a|
  {
    if a != [] {
      assert (a + [SLASH] + b)[1..] == a[1..] + [SLASH] + b;
      SlashAfter(a[1..], b);
    }
  }

  lemma {:induction false} NoSlashFound(s: Bytes)
    ensures NoSlash(s) <==> FirstSlash(s) == |s|
  {
    if s != [] && s[0] != SLASH {
      NoSlashFound(s[1..]);
      assert forall i :: 0 <= i < |s[1..]| ==> s[1..][i] == s[i + 1];
      if NoSlash(s[1..]) {
        assert forall i :: 1 <= i < |s| ==> s[i] == s[1..][i - 1];
      }
    }
  }

  lemma FirstOfMany(first: Bytes, rest: seq<Bytes>)
    requires rest != []
    ensures Join([first] + rest) == first + [SLASH] + Join(rest)
    ensures ([first] + rest)[|rest|] == rest[|rest| - 1]
    ensures forall k :: 0 < k <= |rest| ==> ([first] + rest)[k] == rest[k - 1]
  {
    assert ([first] + rest)[1..] == rest;
  }

  /** The last part is all that is left; the others end before a slash. */
  lemma SplitStep(s: Bytes, n: nat)
    requires n > 0
    ensures n == 1 || FirstSlash(s) == |s| ==> SplitN(s, n) == [s]
    ensures n > 1 && FirstSlash(s) < |s| ==> SplitN(s, n) == [s[..FirstSlash(s)]] + SplitN(s[FirstSlash(s) + 1..], n - 1)
  {
    hide FirstSlash;
  }

  predicate InnerPartsPlain(parts: seq<Bytes>) {
    forall k :: 0 <= k < |parts| - 1 ==> NoSlash(parts[k])
  }

  predicate LastPartPlain(parts: seq<Bytes>) {
    parts != [] && NoSlash(parts[|parts| - 1])
  }

  lemma OnePart(s: Bytes)
    ensures Join([s]) == s && InnerPartsPlain([s]) && (LastPartPlain([s]) <==> NoSlash(s))
  {
  }

  lemma MoreParts(first: Bytes, rest: seq<Bytes>)
    requires rest != [] && NoSlash(first) && InnerPartsPlain(rest)
    ensures Join([first] + rest) == first + [SLASH] + Join(rest)
    ensures InnerPartsPlain([first] + rest) && (LastPartPlain([first] + rest) <==> LastPartPlain(rest))
  {
    FirstOfMany(first, rest);
    hide NoSlash, Join;
  }

  lemma CutAtSlash(s: Bytes, i: nat)
    requires i < |s| && s[i] == SLASH
    ensures s == s[..i] + [SLASH] + s[i + 1..]
  {
    assert [s[i]] == [SLASH];
    assert s == s[..i] + [s[i]] + s[i + 1..];
  }

  lemma BeforeFirstSlash(s: Bytes)
    ensures NoSlash(s[..FirstSlash(s)])
  {
  }

  /** Splitting undone: the parts, joined, are the text, and only the last may hold a slash. */
  lemma {:induction false} SplitJoins(s: Bytes, n: nat)
    requires n > 0
    ensures Join(SplitN(s, n)) == s && InnerPartsPlain(SplitN(s, n))
    ensures |SplitN(s, n)| < n ==> LastPartPlain(SplitN(s, n))
    decreases n
  {
    hide *;
    SplitStep(s, n);
    NoSlashFound(s);
    var i := FirstSlash(s);
    if n > 1 && i < |s| {
      BeforeFirstSlash(s);
      CutAtSlash(s, i);
      var first, tail := s[..i], s[i + 1..];
      SplitJoins(tail, n - 1);
      MoreParts(first, SplitN(tail, n - 1));
    } else {
      OnePart(s);
    }
  }

  /** A slash-free first part is cut off whole. */
  lemma SplitFirst(a: Bytes, b: Bytes, n: nat)
    requires NoSlash(a) && n > 1
    ensures SplitN(a + [SLASH] + b, n) == [a] + SplitN(b, n - 1)
  {
    var s := a + [SLASH] + b;
    SlashAfter(a, b);
    assert s[..|a|] == a && s[|a| + 1..] == b;
  }

  // ------------------------------------------------------------------- agreement

  /** A commit path handled as a create or delete: two parts, the collection and the record key. */
  function PathParts(path: Bytes): Option<(Bytes, Bytes)> {
    var parts := SplitN(path, 2);
    if |parts| != 2 then None else Some((parts[0], parts[1]))
  }

  /**
    A delete reaches the key a create of the same path wrote, for every repo whose
    name holds no slash, as no DID does.
  */
  lemma DeleteFindsCreate(repo: Bytes, path: Bytes)
    requires NoSlash(repo) && PathParts(path).Some?
    ensures var (collection, rkey) := PathParts(path).value;
            && UriToRecordKey(DeleteUri(repo, collection, rkey)) == Some(RecordKey(collection, repo, rkey))
            && RecordUri(repo, path) == DeleteUri(repo, collection, rkey)
  {
    var (collection, rkey) := PathParts(path).value;
    SplitJoins(path, 2);
    assert SplitN(path, 2)[1..] == [rkey];
    assert path == collection + [SLASH] + rkey;
    assert RecordUri(repo, path) == DeleteUri(repo, collection, rkey);
    ThreeParts(repo, collection, rkey);
  }

  /** A URI of three parts has their key. */
  lemma ThreeParts(d: Bytes, c: Bytes, r: Bytes)
    requires NoSlash(d) && NoSlash(c)
    ensures UriToRecordKey(DeleteUri(d, c, r)) == Some(RecordKey(c, d, r))
  {
    var tail := d + [SLASH] + (c + [SLASH] + r);
    assert (AT_SCHEME + tail)[|AT_SCHEME|..] == tail;
    SplitFirst(d, c + [SLASH] + r, 3);
    SplitFirst(c, r, 2);
    assert SplitN(r, 1) == [r];
  }

  lemma KeyedUriParts(uri: Bytes) returns (d: Bytes, c: Bytes, r: Bytes)
    requires UriToRecordKey(uri).Some?
    ensures NoSlash(d) && NoSlash(c) && uri == DeleteUri(d, c, r)
  {
    var rest := uri[|AT_SCHEME|..];
    var parts := SplitN(rest, 3);
    SplitJoins(rest, 3);
    d, c, r := parts[0], parts[1], parts[2];
    assert Join(parts[1..]) == c + [SLASH] + r;
    assert uri == AT_SCHEME + rest;
  }

  /** at://d/c/r and its key c/d/r, to the byte. */
  lemma UriAndKeyBytes(d: Bytes, c: Bytes, r: Bytes)
    requires NoSlash(d) && NoSlash(c)
    ensures DeleteUri(d, c, r) == [97, 116, 58, 47, 47] + d + [47] + c + [47] + r
    ensures UriToRecordKey([97, 116, 58, 47, 47] + d + [47] + c + [47] + r) == Some(c + [47] + d + [47] + r)
  {
    hide UriToRecordKey, NoSlash;
    ThreeParts(d, c, r);
    Regroup([97, 116, 58, 47, 47] + d + [47], c + [47], r);
    Regroup([97, 116, 58, 47, 47], d + [47], c + [47] + r);
    Regroup([97, 116, 58, 47, 47], d, [47]);
    Regroup([97, 116, 58, 47, 47] + d + [47], c, [47]);
  }

  /** A URI has a record key exactly when it names a repo, a collection and a record key. */
  lemma KeyedUris(uri: Bytes)
    ensures UriToRecordKey(uri).Some? <==>
            exists d, c, r :: NoSlash(d) && NoSlash(c) && uri == DeleteUri(d, c, r)
  {
    hide UriToRecordKey, DeleteUri, NoSlash;
    if UriToRecordKey(uri).Some? {
      var d, c, r := KeyedUriParts(uri);
    }
    forall d, c, r | NoSlash(d) && NoSlash(c) && uri == DeleteUri(d, c, r) ensures UriToRecordKey(uri).Some? {
      ThreeParts(d, c, r);
    }
  }

  /** Distinct records have distinct keys. */
  lemma KeysAreDistinct(c1: Bytes, d1: Bytes, r1: Bytes, c2: Bytes, d2: Bytes, r2: Bytes)
    requires NoSlash(c1) && NoSlash(d1) && NoSlash(c2) && NoSlash(d2)
    ensures RecordKey(c1, d1, r1) == RecordKey(c2, d2, r2) <==> c1 == c2 && d1 == d2 && r1 == r2
  {
    KeyParts(c1, d1, r1);
    KeyParts(c2, d2, r2);
    hide RecordKey, SplitN;
    var p, q := [c1, d1, r1], [c2, d2, r2];
    assert p[0] == c1 && p[1] == d1 && p[2] == r1 && q[0] == c2 && q[1] == d2 && q[2] == r2;
  }

  lemma KeyParts(c: Bytes, d: Bytes, r: Bytes)
    requires NoSlash(c) && NoSlash(d)
    ensures SplitN(RecordKey(c, d, r), 3) == [c, d, r]
  {
    assert RecordKey(c, d, r) == c + [SLASH] + (d + [SLASH] + r);
    SplitFirst(c, d + [SLASH] + r, 3);
    SplitFirst(d, r, 2);
  }

  // ------------------------------------------------------------------ contiguity

  /** Byte order: bytes.Compare(a, b) <= 0. */
  predicate AtMost(a: Bytes, b: Bytes) {
    a == [] || (b != [] && (a[0] < b[0] || (a[0] == b[0] && AtMost(a[1..], b[1..]))))
  }

  /** Whatever lies between two texts with a prefix has it too. */
  lemma {:induction false} PrefixIsContiguous(p: Bytes, a: Bytes, x: Bytes, b: Bytes)
    requires p <= a && p <= b && AtMost(a, x) && AtMost(x, b)
    ensures p <= x
  {
    if p != [] {
      assert x[0] == p[0];
      PrefixIsContiguous(p[1..], a[1..], x[1..], b[1..]);
    }
  }

  /** A key starts with a collection's prefix exactly when it is in that collection. */
  lemma PrefixIsCollection(collection: Bytes, c: Bytes, d: Bytes, r: Bytes)
    requires NoSlash(collection) && NoSlash(c)
    ensures collection + [SLASH] <= RecordKey(c, d, r) <==> c == collection
  {
    var key := RecordKey(c, d, r);
    var prefix := collection + [SLASH];
    assert key == c + [SLASH] + (d + [SLASH] + r);
    SlashAfter(c, d + [SLASH] + r);
    if prefix <= key {
      assert key == collection + [SLASH] + key[|prefix|..];
      SlashAfter(collection, key[|prefix|..]);
      assert key[..|c|] == c && key[..|collection|] == collection;
    }
  }

  /** Between two keys of a collection there are only keys of that collection. */
  lemma CollectionsAreRanges(collection: Bytes, a: (Bytes, Bytes), x: (Bytes, Bytes, Bytes), b: (Bytes, Bytes))
    requires NoSlash(collection) && NoSlash(x.0)
    requires AtMost(RecordKey(collection, a.0, a.1), RecordKey(x.0, x.1, x.2))
    requires AtMost(RecordKey(x.0, x.1, x.2), RecordKey(collection, b.0, b.1))
    ensures x.0 == collection
  {
    PrefixIsCollection(collection, collection, a.0, a.1);
    PrefixIsCollection(collection, collection, b.0, b.1);
    PrefixIsCollection(collection, x.0, x.1, x.2);
    PrefixIsContiguous(collection + [SLASH], RecordKey(collection, a.0, a.1), RecordKey(x.0, x.1, x.2),
                       RecordKey(collection, b.0, b.1));
  }
}
