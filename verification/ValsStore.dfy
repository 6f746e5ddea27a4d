/**
  The store object itself: the fields ValsStore keeps, and its methods cut at the
  mutex.  Each method is one critical section (or a loop of them), proved to have
  exactly the effect the protocol's transition functions describe.
*/
module ValsStore {
  import opened Common
  import opened ValsModel
  import opened ValsRetry

  /** How one turn of push's critical section ends. */
  datatype PushTurn = MustWait | Refused | Accepted(full: bool)

  /** The identity of a context: whose deadline a shutdown shares. */
  type Ctx = nat

  /** ValsShutdownStats. */
  datatype Stats = Stats(records: Shelf, links: Shelf)

  function RemainingOf(s: Stats): nat {
    |s.records.buffer| + |s.links.buffer| + s.records.inflight + s.links.inflight
  }

  function LostOf(s: Stats): nat {
    s.records.dropped + s.links.dropped + s.records.rejected + s.links.rejected
  }

  /** Accounting for several chunks, in order. */
  function AccountAll(s: Shelf, cs: seq<Chunk>): Shelf {
    if cs == [] then s
    else Account(AccountAll(s, cs[..|cs| - 1]), |cs[|cs| - 1].entries|, cs[|cs| - 1].ok)
  }

  lemma AccountOne(s: Shelf, entries: nat, ok: bool)
    requires entries <= s.inflight
    ensures Account(s, entries, ok)
            == if ok then s.(inflight := s.inflight - entries, persisted := s.persisted + entries)
               else s.(inflight := s.inflight - entries, dropped := s.dropped + entries)
  {
  }

  /** Accounting moves entries from in flight to persisted or dropped and loses none. */
  lemma {:induction false} AccountAllConserves(s: Shelf, cs: seq<Chunk>)
    requires |Entries(cs)| <= s.inflight
    ensures var s' := AccountAll(s, cs);
            && s'.inflight == s.inflight - |Entries(cs)|
            && s'.persisted == s.persisted + CountSettled(cs, true)
            && s'.dropped == s.dropped + CountSettled(cs, false)
            && s'.admitted == s.admitted && s'.rejected == s.rejected && s'.buffer == s.buffer
    ensures CountSettled(cs, true) + CountSettled(cs, false) == |Entries(cs)|
  {
    if cs != [] {
      var init, last := cs[..|cs| - 1], cs[|cs| - 1];
      AccountAllConserves(s, init);
      AccountOne(AccountAll(s, init), |last.entries|, last.ok);
      hide Account;
    }
  }

  /** These turns end the chunk's loop, in this way. */
  ghost predicate Decides(turns: seq<Turn>, ok: bool) {
    exists used: nat :: StopsAt(turns, used, ok)
  }

  ghost predicate AllDecided(cs: seq<Chunk>, env: seq<seq<Turn>>) {
    |cs| <= |env| && forall i :: 0 <= i < |cs| ==> Decides(env[i], cs[i].ok)
  }

  lemma NothingSettled(s: Shelf, kvs: seq<KV>, env: seq<seq<Turn>>)
    ensures Slices([], kvs) && AllDecided([], env) && AccountAll(s, []) == s
  {
  }

  lemma DecidedSnoc(cs: seq<Chunk>, env: seq<seq<Turn>>, used: nat, c: Chunk)
    requires AllDecided(cs, env) && |cs| < |env| && StopsAt(env[|cs|], used, c.ok)
    ensures AllDecided(cs + [c], env)
  {
    assert Decides(env[|cs|], c.ok);
  }

  lemma AccountAllSnoc(s: Shelf, cs: seq<Chunk>, c: Chunk)
    ensures AccountAll(s, cs + [c]) == Account(AccountAll(s, cs), |c.entries|, c.ok)
  {
    assert (cs + [c])[..|cs|] == cs;
  }

  /** The chunks are the consecutive slices of 1000 from the front of kvs. */
  predicate Slices(cs: seq<Chunk>, kvs: seq<KV>) {
    && Entries(cs) == kvs[..Min(|cs| * 1000, |kvs|)]
    && (forall i :: 0 <= i < |cs| ==>
          && i * 1000 < |kvs|
          && cs[i].entries == kvs[i * 1000..Min(i * 1000 + 1000, |kvs|)])
  }

  lemma SliceSnoc(cs: seq<Chunk>, kvs: seq<KV>, ok: bool)
    requires Slices(cs, kvs) && |cs| * MAX_BATCH < |kvs|
    ensures var start := |cs| * MAX_BATCH;
            Slices(cs + [Chunk(kvs[start..Min(start + MAX_BATCH, |kvs|)], ok)], kvs)
  {
    var start := |cs| * MAX_BATCH;
    var end := Min(start + MAX_BATCH, |kvs|);
    var c := Chunk(kvs[start..end], ok);
    var all := cs + [c];
    EntriesSnoc(cs, c);
    SlicesMeet(kvs, start, end);
    hide Entries;
    assert |all| * MAX_BATCH == start + MAX_BATCH;
    forall i | 0 <= i < |all|
      ensures i * MAX_BATCH < |kvs| && all[i].entries == kvs[i * MAX_BATCH..Min(i * MAX_BATCH + MAX_BATCH, |kvs|)]
    {
      assert i < |cs| ==> all[i] == cs[i];
    }
  }

  lemma SlicesMeet(kvs: seq<KV>, start: nat, end: nat)
    requires start <= end <= |kvs|
    ensures kvs[..start] + kvs[start..end] == kvs[..end]
  {
  }

  /** The slices are all of kvs exactly when they reach its end. */
  lemma SlicesComplete(cs: seq<Chunk>, kvs: seq<KV>)
    requires Slices(cs, kvs)
    ensures Entries(cs) == kvs <==> |cs| * MAX_BATCH >= |kvs|
  {
  }

  function Other(z: Zone): Zone {
    if z == Records then Backlinks else Records
  }

  class ValsStore {
    var records: seq<KV>
    var links: seq<KV>
    var closed: bool
    var shutdownCtx: Option<Ctx>
    var wakeCloses: nat           // how often shutdownWake was closed
    var doneClosed: bool          // done is closed
    var token: bool               // flushNow holds a token
    var broadcasts: nat           // how often drain was broadcast

    var admittedRecords: nat
    var admittedBacklinks: nat
    var persistedRecords: nat
    var persistedLinks: nat
    var droppedRecords: nat
    var droppedLinks: nat
    var rejectedRecords: nat
    var rejectedLinks: nat
    var inflightRecords: U64
    var inflightLinks: U64

    /** The zone's shelf, as the protocol sees it. */
    function View(z: Zone): Shelf
      reads this
    {
      if z == Records then
        Shelf(records, admittedRecords, persistedRecords, droppedRecords, rejectedRecords, inflightRecords)
      else
        Shelf(links, admittedBacklinks, persistedLinks, droppedLinks, rejectedLinks, inflightLinks)
    }

    constructor ()
      ensures View(Records) == EMPTY_SHELF && View(Backlinks) == EMPTY_SHELF
      ensures !closed && shutdownCtx == None && wakeCloses == 0 && !doneClosed && !token
    {
      records, links := [], [];
      closed, doneClosed, token := false, false, false;
      shutdownCtx, wakeCloses, broadcasts := None, 0, 0;
      admittedRecords, admittedBacklinks, persistedRecords, persistedLinks := 0, 0, 0, 0;
      droppedRecords, droppedLinks, rejectedRecords, rejectedLinks := 0, 0, 0, 0;
      inflightRecords, inflightLinks := 0, 0;
    }

    /** push between Lock and Wait or Unlock: wait at the cap, refuse once closed, otherwise append and count. */
    method PushLocked(kv: KV, backlink: bool) returns (turn: PushTurn)
      modifies this
      ensures var z := if backlink then Backlinks else Records;
              var total := old(|records| + |links|);
              && View(Other(z)) == old(View(Other(z)))
              && (turn == MustWait <==> !old(closed) && total >= 50000)
              && (turn == Refused <==> old(closed))
              && (turn.MustWait? ==> View(z) == old(View(z)))
              && (turn.Refused? ==> View(z) == Reject(old(View(z))))
              && (turn.Accepted? ==> View(z) == Admit(old(View(z)), kv) && (turn.full <==> total + 1 >= 2000))
      ensures closed == old(closed) && token == old(token) && broadcasts == old(broadcasts)
      ensures shutdownCtx == old(shutdownCtx) && wakeCloses == old(wakeCloses) && doneClosed == old(doneClosed)
    {
      if !closed && |records| + |links| >= BUFFER_CAP {
        return MustWait;
      }
      if closed {
        if backlink {
          rejectedLinks := rejectedLinks + 1;
        } else {
          rejectedRecords := rejectedRecords + 1;
        }
        return Refused;
      }
      if backlink {
        links := links + [kv];
        admittedBacklinks := admittedBacklinks + 1;
      } else {
        records := records + [kv];
        admittedRecords := admittedRecords + 1;
      }
      return Accepted(|records| + |links| >= FLUSH_SIZE);
    }

    /** push after Unlock: leave a token unless one is there already. */
    method SignalFlush()
      modifies this`token
      ensures token
    {
      if !token {
        token := true;
      }
    }

    /** One pass of push, up to its wait or its return: the token is left after the unlock. */
    method Push(kv: KV, backlink: bool) returns (turn: PushTurn)
      modifies this
      ensures turn == MustWait <==> !old(closed) && old(|records| + |links|) >= 50000
      ensures turn == Refused <==> old(closed)
      ensures var z := if backlink then Backlinks else Records;
              && View(Other(z)) == old(View(Other(z)))
              && View(z) == match turn case MustWait => old(View(z)) case Refused => Reject(old(View(z)))
                                       case Accepted(_) => Admit(old(View(z)), kv)
      ensures turn.Accepted? ==> |records| + |links| == old(|records| + |links|) + 1
      ensures token <==> old(token) || (turn.Accepted? && |records| + |links| >= 2000)
    {
      turn := PushLocked(kv, backlink);
      if turn == Accepted(true) {
        SignalFlush();
      }
    }

    /** flush between Lock and Unlock: both buffers leave together and every waiter is woken. */
    method TakeLocked() returns (recordsTaken: seq<KV>, linksTaken: seq<KV>)
      modifies this
      ensures recordsTaken == old(records) && linksTaken == old(links)
      ensures View(Records) == TakeAll(old(View(Records)))
      ensures View(Backlinks) == TakeAll(old(View(Backlinks)))
      ensures broadcasts == old(broadcasts) + 1
      ensures closed == old(closed) && token == old(token)
      ensures shutdownCtx == old(shutdownCtx) && wakeCloses == old(wakeCloses) && doneClosed == old(doneClosed)
    {
      hide AddU64;
      recordsTaken, linksTaken := records, links;
      records, links := [], [];
      inflightRecords := AddU64(inflightRecords, |recordsTaken|);
      inflightLinks := AddU64(inflightLinks, |linksTaken|);
      broadcasts := broadcasts + 1;
    }

    method AccountChunk(zone: Zone, entries: nat, ok: bool)
      modifies this`inflightRecords, this`inflightLinks, this`persistedRecords, this`persistedLinks,
               this`droppedRecords, this`droppedLinks
      ensures View(zone) == Account(old(View(zone)), entries, ok)
      ensures View(Other(zone)) == old(View(Other(zone)))
    {
      if zone == Records {
        inflightRecords := SubU64(inflightRecords, entries);
        if ok {
          persistedRecords := persistedRecords + entries;
        } else {
          droppedRecords := droppedRecords + entries;
        }
      } else {
        inflightLinks := SubU64(inflightLinks, entries);
        if ok {
          persistedLinks := persistedLinks + entries;
        } else {
          droppedLinks := droppedLinks + entries;
        }
      }
    }

    /**
      flushBatch, against what the cluster and the clock do for each chunk.  The
      chunks it settles are consecutive slices of at most 1000 entries from
      the front of kvs, each accounted for once; it finishes exactly when they
      are all of kvs.
    */
    method FlushBatch(zone: Zone, kvs: seq<KV>, env: seq<seq<Turn>>) returns (settled: seq<Chunk>, finished: bool)
      modifies this`inflightRecords, this`inflightLinks, this`persistedRecords, this`persistedLinks,
               this`droppedRecords, this`droppedLinks
      ensures Slices(settled, kvs)
      ensures finished <==> Entries(settled) == kvs
      ensures View(zone) == AccountAll(old(View(zone)), settled)
      ensures View(Other(zone)) == old(View(Other(zone)))
      ensures AllDecided(settled, env)
    {
      hide Slices, AllDecided, AccountAll, Account, StopsAt, StillTrying;
      NothingSettled(View(zone), kvs, env);
      settled := [];
      var start := 0;
      while start < |kvs|
        invariant start == |settled| * MAX_BATCH && Slices(settled, kvs)
        invariant View(zone) == AccountAll(old(View(zone)), settled)
        invariant View(Other(zone)) == old(View(Other(zone)))
        invariant AllDecided(settled, env)
      {
        var end := start + MAX_BATCH;
        if end > |kvs| {
          end := |kvs|;
        }
        SlicesComplete(settled, kvs);
        if |settled| >= |env| {
          return settled, false;
        }
        var r, used, _ := FlushChunk(env[|settled|]);
        if r == Trying {
          return settled, false;
        }
        assert (r == Persisted) || (r == Dropped);
        var c := Chunk(kvs[start..end], r == Persisted);
        DecidedSnoc(settled, env, used, c);
        SliceSnoc(settled, kvs, c.ok);
        AccountAllSnoc(old(View(zone)), settled, c);
        AccountChunk(zone, end - start, c.ok);
        settled := settled + [c];
        start := start + MAX_BATCH;
      }
      SlicesComplete(settled, kvs);
      finished := true;
    }

    /** BeginShutdown: the first context wins, and the wake channel closes once however often it is called. */
    method BeginShutdown(ctx: Ctx)
      modifies this`shutdownCtx, this`wakeCloses
      ensures shutdownCtx == Some(match old(shutdownCtx) case None => ctx case Some(first) => first)
      ensures wakeCloses == if old(wakeCloses) == 0 then 1 else old(wakeCloses)
    {
      if shutdownCtx == None {
        shutdownCtx := Some(ctx);
      }
      if wakeCloses == 0 {
        wakeCloses := wakeCloses + 1;
      }
    }

    /** CloseContext's critical section: close once, wake waiters, tell the flusher. */
    method CloseLocked()
      modifies this`closed, this`doneClosed, this`broadcasts
      ensures closed
      ensures !old(closed) ==> doneClosed && broadcasts == old(broadcasts) + 1
      ensures old(closed) ==> doneClosed == old(doneClosed) && broadcasts == old(broadcasts)
    {
      if !closed {
        closed := true;
        broadcasts := broadcasts + 1;
        doneClosed := true;
      }
    }

    method Snapshot() returns (s: Stats)
      ensures s == Stats(View(Records), View(Backlinks))
    {
      s := Stats(Shelf(records, admittedRecords, persistedRecords, droppedRecords, rejectedRecords, inflightRecords),
                 Shelf(links, admittedBacklinks, persistedLinks, droppedLinks, rejectedLinks, inflightLinks));
    }

    /** CloseContext's verdict: nil only without a deadline error, a leftover or a loss. */
    method CloseVerdict(deadlineExpired: bool) returns (nil: bool)
      ensures nil <==>
                && !deadlineExpired
                && records == [] && links == [] && inflightRecords == 0 && inflightLinks == 0
                && droppedRecords == 0 && droppedLinks == 0 && rejectedRecords == 0 && rejectedLinks == 0
    {
      var stats := Snapshot();
      if deadlineExpired {
        return false;
      }
      if RemainingOf(stats) != 0 || LostOf(stats) != 0 {
        return false;
      }
      return true;
    }
  }
}
