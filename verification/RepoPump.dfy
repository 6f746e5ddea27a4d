/**
  The initial repo pump: it walks a paged listing, hands every repo of its shard
  to the job store, and keeps a checkpoint row, through crashes, interrupts,
  failed writes and restarts.
*/
module RepoPump {
  import opened Common

  // ------------------------------------------------------------------ sharding

  /** shardN of shardK. */
  datatype Shard = Shard(n: int, k: int)

  function FnvStep(h: bv32, b: Byte): bv32 {
    (h ^ (b as bv32)) * 16777619
  }

  /** FNV-1a, 32 bits. */
  function Fnv1a(s: Bytes): bv32 {
    if s == [] then 2166136261 else FnvStep(Fnv1a(s[..|s| - 1]), s[|s| - 1])
  }

  /** Published values of the hash: of nothing and of "a". */
  lemma Fnv1aVectors()
    ensures Fnv1a([]) == 0x811C9DC5 && Fnv1a([97]) == 0xE40C292C
  {
    assert [97][..0] == [];
  }

  predicate InShard(sh: Shard, did: Bytes) {
    sh.k <= 1 || (Fnv1a(did) as int) % sh.k == sh.n
  }

  /** The K shards 0..K-1 split the repos: each repo is in exactly one. */
  lemma ShardsPartition(k: int, did: Bytes)
    requires k >= 1
    ensures exists n :: 0 <= n < k && InShard(Shard(n, k), did)
    ensures forall m, n :: 0 <= m < k && 0 <= n < k && InShard(Shard(m, k), did) && InShard(Shard(n, k), did) ==> m == n
  {
    var n := (Fnv1a(did) as int) % k;
    assert InShard(Shard(n, k), did);
  }

  // ------------------------------------------------------------------- listing

  /** The relay's listing: page i is fetched with token i, the first with the empty token. */
  datatype Listing = Listing(pages: seq<seq<Bytes>>, tokens: seq<Bytes>)

  predicate ValidListing(l: Listing) {
    && 1 <= |l.pages| == |l.tokens|
    && l.tokens[0] == []
    && forall i, j :: 0 <= i < j < |l.tokens| ==> l.tokens[i] != l.tokens[j]
  }

  function Find(tokens: seq<Bytes>, token: Bytes): (i: nat)
    requires token in tokens
    ensures i < |tokens| && tokens[i] == token
  {
    if tokens[0] == token then 0 else 1 + Find(tokens[1..], token)
  }

  datatype Response = Response(repos: seq<Bytes>, next: Option<Bytes>)

  /** SyncListRepos: the page of a token and the token of the next page. */
  function ListRepos(l: Listing, token: Bytes): Response
    requires ValidListing(l) && token in l.tokens
  {
    var i := Find(l.tokens, token);
    Response(l.pages[i], if i + 1 < |l.pages| then Some(l.tokens[i + 1]) else None)
  }

  /** The repos of the first k pages, in listing order. */
  function ReposBefore(l: Listing, k: nat): seq<Bytes>
    requires k <= |l.pages|
  {
    if k == 0 then [] else ReposBefore(l, k - 1) + l.pages[k - 1]
  }

  function CountInShard(sh: Shard, dids: seq<Bytes>): nat {
    if dids == [] then 0
    else CountInShard(sh, dids[..|dids| - 1]) + (if InShard(sh, dids[|dids| - 1]) then 1 else 0)
  }

  /** The repos of the shard, in order. */
  function Selected(sh: Shard, dids: seq<Bytes>): seq<Bytes> {
    if dids == [] then []
    else Selected(sh, dids[..|dids| - 1]) + (if InShard(sh, dids[|dids| - 1]) then [dids[|dids| - 1]] else [])
  }

  lemma {:induction false} CountInShardConcat(sh: Shard, a: seq<Bytes>, b: seq<Bytes>)
    ensures CountInShard(sh, a + b) == CountInShard(sh, a) + CountInShard(sh, b)
  {
    if b == [] {
      assert a + b == a;
    } else {
      assert (a + b)[..|a + b| - 1] == a + b[..|b| - 1];
      CountInShardConcat(sh, a, b[..|b| - 1]);
    }
  }

  // ---------------------------------------------------------------- checkpoint

  /** PumpProgress. */
  datatype Row = Row(cursor: Bytes, total: int, completed: bool)

  /** Every in-shard repo of the list was handed to EnqueueJob. */
  predicate Handed(sh: Shard, dids: seq<Bytes>, handed: seq<Bytes>) {
    forall i :: 0 <= i < |dids| && InShard(sh, dids[i]) ==> dids[i] in handed
  }

  /** The first k pages are covered and counted exactly. */
  predicate Covers(l: Listing, sh: Shard, k: nat, total: int, handed: seq<Bytes>)
    requires k <= |l.pages|
  {
    Handed(sh, ReposBefore(l, k), handed) && total == CountInShard(sh, ReposBefore(l, k))
  }

  /** What a checkpoint row claims. */
  predicate RowSound(l: Listing, sh: Shard, r: Row, handed: seq<Bytes>)
    requires ValidListing(l)
  {
    && r.cursor in l.tokens
    && if r.completed then Covers(l, sh, |l.pages|, r.total, handed)
       else Covers(l, sh, Find(l.tokens, r.cursor), r.total, handed)
  }

  predicate PumpInv(l: Listing, sh: Shard, row: Option<Row>, handed: seq<Bytes>)
    requires ValidListing(l)
  {
    && (row.Some? ==> RowSound(l, sh, row.value, handed))
    && (forall d :: d in handed ==> InShard(sh, d) && d in ReposBefore(l, |l.pages|))
  }

  // ---------------------------------------------------------------- the process

  /** How a run begins: the read of the row and, if that fails, the insert. */
  datatype Start = Start(loadOk: bool, createOk: bool)

  /** What the world does to one turn of the pump's loop. */
  datatype Turn =
    | Cancelled(saved: bool)                 // ctx.Done; whether the write took effect
    | ListFails                              // SyncListRepos error
    | Listed(saveDue: bool, saved: bool)     // 30 s passed or not; whether the write took effect
    | DiesInPage(after: nat)                 // the process dies after so many repos of the page

  /** Pages fetched in these turns. */
  function PagesListed(ts: seq<Turn>): nat {
    if ts == [] then 0 else PagesListed(ts[..|ts| - 1]) + (if ts[|ts| - 1].Listed? then 1 else 0)
  }

  /** Pages fetched up to the last save between pages that took effect. */
  function PagesSaved(ts: seq<Turn>): (n: nat)
    ensures n <= PagesListed(ts)
  {
    if ts == [] then 0
    else if ts[|ts| - 1] == Listed(true, true) then PagesListed(ts)
    else PagesSaved(ts[..|ts| - 1])
  }

  /** No turn interrupts or kills the process, and every write takes effect. */
  predicate Undisturbed(ts: seq<Turn>) {
    forall i :: 0 <= i < |ts| ==> ts[i].ListFails? || (ts[i].Listed? && ts[i].saved)
  }

  /** The page a run starts from. */
  function StartPage(l: Listing, row: Option<Row>): nat
    requires ValidListing(l) && (row.Some? ==> row.value.cursor in l.tokens)
  {
    if row.Some? then Find(l.tokens, row.value.cursor) else 0
  }

  predicate Starts(row: Option<Row>, start: Start) {
    if row.Some? then start.loadOk && !row.value.completed else start.createOk
  }

  /** An undisturbed run that fetches every page that is left. */
  predicate Completes(l: Listing, row: Option<Row>, start: Start, turns: seq<Turn>)
    requires ValidListing(l) && (row.Some? ==> row.value.cursor in l.tokens)
  {
    Starts(row, start) && Undisturbed(turns) && StartPage(l, row) + PagesListed(turns) >= |l.pages|
  }

  /** A run that is cancelled at turn n, before the last page, with a working write. */
  predicate InterruptedAt(l: Listing, row: Option<Row>, start: Start, turns: seq<Turn>, n: nat)
    requires ValidListing(l) && (row.Some? ==> row.value.cursor in l.tokens)
  {
    && n < |turns| && Starts(row, start) && Undisturbed(turns[..n]) && turns[n] == Cancelled(true)
    && StartPage(l, row) + PagesListed(turns[..n]) < |l.pages|
  }

  /** The process lives to see turn n, or the end of the turns, before the last page. */
  predicate Reaches(l: Listing, row: Option<Row>, start: Start, turns: seq<Turn>, n: nat)
    requires ValidListing(l) && (row.Some? ==> row.value.cursor in l.tokens)
  {
    && n <= |turns| && Starts(row, start)
    && (forall m :: 0 <= m < n ==> turns[m].ListFails? || turns[m].Listed?)
    && StartPage(l, row) + PagesListed(turns[..n]) < |l.pages|
  }

  /**
    The row a process leaves behind that ends at turn n: the page of its last save
    between pages, unless it wrote the row as it was cancelled or done.
  */
  predicate LeavesRow(l: Listing, first: nat, turns: seq<Turn>, n: nat, row: Option<Row>)
    requires ValidListing(l) && n <= |turns| && first + PagesListed(turns[..n]) < |l.pages|
  {
    var here, kept := first + PagesListed(turns[..n]), first + PagesSaved(turns[..n]);
    if n == |turns| || turns[n].DiesInPage? then row.Some? && !row.value.completed && row.value.cursor == l.tokens[kept]
    else if turns[n].Cancelled? then
      row.Some? && !row.value.completed && row.value.cursor == l.tokens[if turns[n].saved then here else kept]
    else if turns[n].Listed? && here + 1 == |l.pages| then
      row.Some? && row.value.completed == turns[n].saved && row.value.cursor == l.tokens[if turns[n].saved then here else kept]
    else true
  }

  class RepoPump {
    const listing: Listing
    const shard: Shard
    var row: Option<Row>
    var handed: seq<Bytes>   // every call of EnqueueJob, in order

    constructor (listing: Listing, shard: Shard)
      requires ValidListing(listing)
      ensures this.listing == listing && this.shard == shard && row == None && handed == []
      ensures PumpInv(listing, shard, row, handed)
    {
      this.listing, this.shard, row, handed := listing, shard, None, [];
    }

    method SaveProgress(cursor: Bytes, total: int, completed: bool, tookEffect: bool)
      requires ValidListing(listing) && PumpInv(listing, shard, row, handed)
      requires RowSound(listing, shard, Row(cursor, total, completed), handed)
      modifies this`row
      ensures row == if tookEffect then Some(Row(cursor, total, completed)) else old(row)
      ensures PumpInv(listing, shard, row, handed)
    {
      if tookEffect {
        row := Some(Row(cursor, total, completed));
      }
    }

    /** Hands the first `upTo` repos of a page to EnqueueJob, skipping other shards. */
    method PumpPage(repos: seq<Bytes>, upTo: nat, total0: int) returns (total: int)
      requires upTo <= |repos|
      modifies this`handed
      ensures handed == old(handed) + Selected(shard, repos[..upTo])
      ensures Handed(shard, repos[..upTo], handed)
      ensures forall d :: d in handed ==> d in old(handed) || (InShard(shard, d) && d in repos)
      ensures total == total0 + CountInShard(shard, repos[..upTo])
    {
      hide InShard;
      total := total0;
      for i := 0 to upTo
        invariant handed == old(handed) + Selected(shard, repos[..i])
        invariant Handed(shard, repos[..i], handed)
        invariant forall d :: d in handed ==> d in old(handed) || (InShard(shard, d) && d in repos)
        invariant total == total0 + CountInShard(shard, repos[..i])
      {
        assert repos[..i + 1][..i] == repos[..i];
        if !InShard(shard, repos[i]) {
          continue;
        }
        handed := handed + [repos[i]];
        total := total + 1;
      }
    }

    /** A page of which the process hands out only the first repos before it dies. */
    method PartOfPage(cursor: Bytes, total: int, after: nat)
      requires ValidListing(listing) && cursor in listing.tokens && PumpInv(listing, shard, row, handed)
      modifies this`handed
      ensures PumpInv(listing, shard, row, handed) && old(handed) <= handed
    {
      hide PumpInv, InShard, ListRepos;
      var resp := ListRepos(listing, cursor);
      var _ := PumpPage(resp.repos, Min(after, |resp.repos|), total);
      PageKeepsRow(listing, shard, cursor, row, old(handed), handed);
    }

    /** A page fetched and handed out whole: one page more is covered, and the next one's token is known. */
    method WholePage(cursor: Bytes, total0: int) returns (total: int, next: Option<Bytes>)
      requires ValidListing(listing) && cursor in listing.tokens && PumpInv(listing, shard, row, handed)
      requires Covers(listing, shard, Find(listing.tokens, cursor), total0, handed)
      modifies this`handed
      ensures PumpInv(listing, shard, row, handed) && old(handed) <= handed
      ensures Covers(listing, shard, Find(listing.tokens, cursor) + 1, total, handed)
      ensures next == None <==> Find(listing.tokens, cursor) + 1 == |listing.pages|
      ensures next.Some? ==> next.value in listing.tokens && Find(listing.tokens, next.value) == Find(listing.tokens, cursor) + 1
    {
      hide PumpInv, InShard, ListRepos, Covers, Find, CountInShard, Handed;
      var resp := ListRepos(listing, cursor);
      total := PumpPage(resp.repos, |resp.repos|, total0);
      assert resp.repos[..|resp.repos|] == resp.repos;
      PageKeepsRow(listing, shard, cursor, row, old(handed), handed);
      PageExtendsCover(listing, shard, cursor, total0, old(handed), handed);
      LastPage(listing, cursor);
      next := resp.next;
      if next.Some? {
        NextTokenIsNextPage(listing, cursor);
      }
    }

    /**
      One process: pumpRepos from its start until it returns or dies.  Whatever
      happens keeps PumpInv; an undisturbed run that fetches the rest of the
      listing completes the row; an interrupt saves the page it had reached.
    */
    method Pump(start: Start, turns: seq<Turn>)
      requires ValidListing(listing) && PumpInv(listing, shard, row, handed)
      modifies this
      ensures PumpInv(listing, shard, row, handed)
      ensures old(row).Some? ==> row.Some?
      ensures old(row).Some? && old(row).value.completed ==> row == old(row)
      ensures !Starts(old(row), start) ==> row == old(row) && handed == old(handed)
      ensures old(handed) <= handed
      ensures Completes(listing, old(row), start, turns) ==> row.Some? && row.value.completed
      ensures forall n: nat :: InterruptedAt(listing, old(row), start, turns, n) ==>
                row.Some? && !row.value.completed
                && row.value.cursor == listing.tokens[StartPage(listing, old(row)) + PagesListed(turns[..n])]
      ensures forall n: nat :: Reaches(listing, old(row), start, turns, n) ==>
                LeavesRow(listing, StartPage(listing, old(row)), turns, n, row)
    {
      hide ValidListing, RowSound, StartPage, PagesSaved, Completes, InterruptedAt, Reaches, CountInShard, Covers, Handed, PumpInv, Undisturbed, PagesListed, Find, ListRepos, InShard, ReposBefore;
      var progress := Row([], 0, false);
      MustStart(listing, shard, row, handed, start, turns);
      if row.Some? && start.loadOk {
        progress := row.value;
        if progress.completed {
          return;
        }
      } else {
        if row.Some? || !start.createOk {
          return;
        }
        FreshRow(listing, shard, handed);
        SaveProgress([], 0, false, true);
      }
      var cursor, total := progress.cursor, progress.total;
      StartCovered(listing, shard, Row(cursor, total, false), row, handed);
      ghost var first := StartPage(listing, old(row));
      NoPages(turns);
      FirstPage(listing, old(row), cursor);
      for t := 0 to |turns|
        invariant cursor in listing.tokens && Covers(listing, shard, Find(listing.tokens, cursor), total, handed)
        invariant PumpInv(listing, shard, row, handed)
        invariant row.Some? && !row.value.completed
        invariant old(handed) <= handed
        invariant first + PagesListed(turns[..t]) == Find(listing.tokens, cursor) < |listing.pages|
        invariant row.value.cursor == listing.tokens[first + PagesSaved(turns[..t])]
        invariant Reaches(listing, old(row), start, turns, t)
      {
        PagesListedStep(turns, t);
        ReachesNext(listing, old(row), start, turns, t);
        match turns[t] {
          case Cancelled(saved) =>
            SaveProgress(cursor, total, false, saved);
            EndsAt(listing, old(row), start, turns, t, row);
            return;
          case ListFails =>
          case DiesInPage(after) =>
            PartOfPage(cursor, total, after);
            EndsAt(listing, old(row), start, turns, t, row);
            return;
          case Listed(saveDue, saved) =>
            var next;
            total, next := WholePage(cursor, total);
            if next == None {
              SaveProgress(cursor, total, true, saved);
              EndsAt(listing, old(row), start, turns, t, row);
              return;
            }
            cursor := next.value;
            if saveDue {
              SaveProgress(cursor, total, false, saved);
            }
        }
      }
      assert turns[..|turns|] == turns;
      EndsAt(listing, old(row), start, turns, |turns|, row);
    }

    /** Any number of processes, one after another, each ended by whatever its world did. */
    method Lifetime(runs: seq<(Start, seq<Turn>)>)
      requires ValidListing(listing) && PumpInv(listing, shard, row, handed)
      modifies this
      ensures PumpInv(listing, shard, row, handed)
      ensures old(row).Some? && old(row).value.completed ==> row == old(row)
    {
      for i := 0 to |runs|
        invariant PumpInv(listing, shard, row, handed)
        invariant old(row).Some? && old(row).value.completed ==> row == old(row)
      {
        Pump(runs[i].0, runs[i].1);
      }
    }
  }

  // ------------------------------------------------------------- turn reasoning

  /** A process that ends at turn t leaves the row it has then; no other turn is its last. */
  lemma EndsAt(l: Listing, was: Option<Row>, start: Start, turns: seq<Turn>, t: nat, row: Option<Row>)
    requires ValidListing(l) && (was.Some? ==> was.value.cursor in l.tokens)
    requires Reaches(l, was, start, turns, t) && LeavesRow(l, StartPage(l, was), turns, t, row)
    requires t < |turns| ==> !turns[t].ListFails? && (turns[t].Listed? ==> StartPage(l, was) + PagesListed(turns[..t]) + 1 == |l.pages|)
    ensures forall n: nat :: Reaches(l, was, start, turns, n) ==> LeavesRow(l, StartPage(l, was), turns, n, row)
    ensures Completes(l, was, start, turns) ==> row.Some? && row.value.completed
    ensures forall n: nat :: InterruptedAt(l, was, start, turns, n) ==>
              row.Some? && !row.value.completed
              && row.value.cursor == l.tokens[StartPage(l, was) + PagesListed(turns[..n])]
  {
    hide PagesListed, PagesSaved, StartPage;
    assert turns[..|turns|] == turns;
    forall n: nat | InterruptedAt(l, was, start, turns, n) ensures Reaches(l, was, start, turns, n) {
      assert forall m :: 0 <= m < n ==> turns[..n][m] == turns[m];
    }
    forall n: nat | Reaches(l, was, start, turns, n) ensures LeavesRow(l, StartPage(l, was), turns, n, row) {
      if n < t {
        PagesListedStep(turns, n);
        PagesListedMonotone(turns, n + 1, t);
      } else if t < n {
        PagesListedStep(turns, t);
        PagesListedMonotone(turns, t + 1, n);
      }
    }
  }

  lemma MustStart(l: Listing, sh: Shard, was: Option<Row>, handed: seq<Bytes>, start: Start, turns: seq<Turn>)
    requires ValidListing(l) && PumpInv(l, sh, was, handed)
    ensures was.Some? ==> was.value.cursor in l.tokens
    ensures !Starts(was, start) ==>
              !Completes(l, was, start, turns)
              && forall n: nat :: !InterruptedAt(l, was, start, turns, n) && !Reaches(l, was, start, turns, n)
    ensures Starts(was, start) ==> Reaches(l, was, start, turns, 0)
  {
    NoPages(turns);
    hide PagesListed, Find;
  }

  lemma ReachesNext(l: Listing, was: Option<Row>, start: Start, turns: seq<Turn>, t: nat)
    requires ValidListing(l) && (was.Some? ==> was.value.cursor in l.tokens)
    requires Reaches(l, was, start, turns, t) && t < |turns|
    ensures turns[t].ListFails? || (turns[t].Listed? && StartPage(l, was) + PagesListed(turns[..t]) + 1 < |l.pages|) ==>
              Reaches(l, was, start, turns, t + 1)
  {
    PagesListedStep(turns, t);
    hide PagesListed, StartPage;
  }

  lemma FirstPage(l: Listing, was: Option<Row>, cursor: Bytes)
    requires ValidListing(l) && cursor in l.tokens
    requires if was.Some? then was.value.cursor == cursor else Find(l.tokens, cursor) == 0
    ensures StartPage(l, was) == Find(l.tokens, cursor) && |l.tokens| == |l.pages|
    ensures Find(l.tokens, cursor) < |l.tokens| && l.tokens[Find(l.tokens, cursor)] == cursor
  {
    hide Find;
  }

  lemma NoPages(turns: seq<Turn>)
    ensures PagesListed(turns[..0]) == 0 && PagesSaved(turns[..0]) == 0
  {
  }

  lemma PagesListedStep(turns: seq<Turn>, t: nat)
    requires t < |turns|
    ensures PagesListed(turns[..t + 1]) == PagesListed(turns[..t]) + (if turns[t].Listed? then 1 else 0)
    ensures PagesSaved(turns[..t + 1]) == if turns[t] == Listed(true, true) then PagesListed(turns[..t + 1]) else PagesSaved(turns[..t])
  {
    assert turns[..t + 1][..t] == turns[..t];
  }

  lemma {:induction false} PagesListedMonotone(turns: seq<Turn>, m: nat, n: nat)
    requires m <= n <= |turns|
    ensures PagesListed(turns[..m]) <= PagesListed(turns[..n])
    decreases n - m
  {
    if m < n {
      PagesListedMonotone(turns, m, n - 1);
      assert turns[..n][..n - 1] == turns[..n - 1];
    }
  }

  // ------------------------------------------------------------- page reasoning

  lemma FreshRow(l: Listing, sh: Shard, handed: seq<Bytes>)
    requires ValidListing(l)
    ensures RowSound(l, sh, Row([], 0, false), handed)
  {
    assert l.tokens[0] in l.tokens;
  }

  lemma StartCovered(l: Listing, sh: Shard, r: Row, row: Option<Row>, handed: seq<Bytes>)
    requires ValidListing(l) && PumpInv(l, sh, row, handed) && row == Some(r) && !r.completed
    ensures r.cursor in l.tokens && Covers(l, sh, Find(l.tokens, r.cursor), r.total, handed)
    ensures r.cursor == [] ==> Find(l.tokens, r.cursor) == 0
  {
  }

  lemma PageInListing(l: Listing, k: nat)
    requires k < |l.pages|
    ensures forall d :: d in l.pages[k] ==> d in ReposBefore(l, |l.pages|)
  {
    PrefixInListing(l, k + 1, |l.pages|);
  }

  lemma {:induction false} PrefixInListing(l: Listing, k: nat, m: nat)
    requires k <= m <= |l.pages|
    ensures forall d :: d in ReposBefore(l, k) ==> d in ReposBefore(l, m)
    decreases m - k
  {
    if k < m { PrefixInListing(l, k, m - 1); }
  }

  /** Handing out in-shard repos of a page keeps what the row claims. */
  lemma PageKeepsRow(l: Listing, sh: Shard, cursor: Bytes, row: Option<Row>, before: seq<Bytes>, after: seq<Bytes>)
    requires ValidListing(l) && cursor in l.tokens && PumpInv(l, sh, row, before) && before <= after
    requires forall d :: d in after ==> d in before || (InShard(sh, d) && d in ListRepos(l, cursor).repos)
    ensures PumpInv(l, sh, row, after)
  {
    PageInListing(l, Find(l.tokens, cursor));
    assert forall d :: d in before ==> d in after;
  }

  /** A whole page handed out extends the covered prefix by that page. */
  lemma PageExtendsCover(l: Listing, sh: Shard, cursor: Bytes, total: int, before: seq<Bytes>, after: seq<Bytes>)
    requires ValidListing(l) && cursor in l.tokens && before <= after
    requires Covers(l, sh, Find(l.tokens, cursor), total, before)
    requires Handed(sh, ListRepos(l, cursor).repos, after)
    ensures Covers(l, sh, Find(l.tokens, cursor) + 1, total + CountInShard(sh, ListRepos(l, cursor).repos), after)
  {
    var k := Find(l.tokens, cursor);
    assert forall d :: d in before ==> d in after;
    CountInShardConcat(sh, ReposBefore(l, k), l.pages[k]);
  }

  lemma LastPage(l: Listing, cursor: Bytes)
    requires ValidListing(l) && cursor in l.tokens
    ensures ListRepos(l, cursor).next.None? <==> Find(l.tokens, cursor) + 1 == |l.pages|
    ensures ListRepos(l, cursor).repos == l.pages[Find(l.tokens, cursor)]
  {
  }

  lemma NextTokenIsNextPage(l: Listing, cursor: Bytes)
    requires ValidListing(l) && cursor in l.tokens && ListRepos(l, cursor).next.Some?
    ensures ListRepos(l, cursor).next.value in l.tokens
    ensures Find(l.tokens, ListRepos(l, cursor).next.value) == Find(l.tokens, cursor) + 1
  {
    var i := Find(l.tokens, cursor);
    assert l.tokens[i + 1] in l.tokens;
  }

  // ------------------------------------------------------------- what it means

  /**
    A checkpoint at page k vouches for the pages before it; a completed row for
    the whole listing; and the saved total is the exact in-shard count either way.
  */
  lemma CheckpointMeaning(l: Listing, sh: Shard, row: Row, handed: seq<Bytes>, k: nat, d: Bytes)
    requires ValidListing(l) && PumpInv(l, sh, Some(row), handed)
    requires k < |l.pages| && d in l.pages[k] && InShard(sh, d)
    requires row.completed || k < Find(l.tokens, row.cursor)
    ensures d in handed
    ensures row.completed ==> row.total == CountInShard(sh, ReposBefore(l, |l.pages|))
    ensures !row.completed ==> row.total == CountInShard(sh, ReposBefore(l, Find(l.tokens, row.cursor)))
  {
    var m := if row.completed then |l.pages| else Find(l.tokens, row.cursor);
    PrefixInListing(l, k + 1, m);
    assert d in ReposBefore(l, k + 1);
    var i :| 0 <= i < |ReposBefore(l, m)| && ReposBefore(l, m)[i] == d;
  }

  /** Once the K shards' pumps have all completed, every listed repo was handed out by exactly one of them. */
  lemma CompletedShardsCover(l: Listing, k: int, rows: seq<Row>, handed: seq<seq<Bytes>>, page: nat, d: Bytes)
    requires ValidListing(l) && 2 <= k == |rows| == |handed|
    requires forall n :: 0 <= n < k ==> rows[n].completed && PumpInv(l, Shard(n, k), Some(rows[n]), handed[n])
    requires page < |l.pages| && d in l.pages[page]
    ensures exists n :: 0 <= n < k && d in handed[n]
    ensures forall m, n :: 0 <= m < k && 0 <= n < k && d in handed[m] && d in handed[n] ==> m == n
  {
    ShardsPartition(k, d);
    var n :| 0 <= n < k && InShard(Shard(n, k), d);
    CheckpointMeaning(l, Shard(n, k), rows[n], handed[n], page, d);
  }
}
