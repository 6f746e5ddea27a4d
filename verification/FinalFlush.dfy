/**
  What Close leaves behind when producers do not stop before it: how many rows stay
  in the buffers, and exactly when every row written is in a settled batch.
*/
module FinalFlush {
  import opened PartitionLedger
  import opened InsertDrain

  // ------------------------------------------------------------- after the flush

  /** l has grown from an earlier ledger by writes only: every batch cut since is full. */
  predicate GrownFrom(size: nat, before: Ledger, l: Ledger) {
    && before.written <= l.written
    && before.batches <= l.batches
    && forall i :: |before.batches| <= i < |l.batches| ==> |l.batches[i]| == size
  }

  /** Once the flush loop has drained, only writes change the ledger. */
  lemma DrainedStep(c: Config, s: State, step: Step, t: State)
    requires s.flusher != Polling && Next(c, s, step, t)
    ensures t.flusher != Polling
    ensures if step.Write? then Adds(c.key, c.size, s.ledger, step.rows, t.ledger) else t.ledger == s.ledger
  {
    hide Adds, Takes, Empty, Idle, NewlyHeld;
  }

  lemma DrainedStepGrows(c: Config, flushed: Ledger, s: State, step: Step, t: State)
    requires s.flusher != Polling && Next(c, s, step, t) && GrownFrom(c.size, flushed, s.ledger)
    ensures t.flusher != Polling && GrownFrom(c.size, flushed, t.ledger)
  {
    DrainedStep(c, s, step, t);
    hide Next, Kept;
    if step.Write? {
      forall i | |flushed.batches| <= i < |t.ledger.batches| ensures |t.ledger.batches[i]| == c.size {
        assert i < |s.ledger.batches| ==> t.ledger.batches[i] == s.ledger.batches[i];
      }
    }
  }

  lemma {:induction false} DrainedRunGrows(c: Config, s: State, steps: seq<Step>, t: State)
    requires s.flusher != Polling && Run(c, s, steps, t)
    ensures t.flusher != Polling && GrownFrom(c.size, s.ledger, t.ledger)
    decreases |steps|
  {
    hide Next;
    if steps != [] {
      var init, last := steps[..|steps| - 1], steps[|steps| - 1];
      var mid :| Run(c, s, init, mid) && Next(c, mid, last, t);
      DrainedRunGrows(c, s, init, mid);
      DrainedStepGrows(c, s.ledger, mid, last, t);
    }
  }

  // ---------------------------------------------------------------- the remainder

  /** How many of the batches belong to a partition. */
  function Cut(key: Key, k: int, batches: seq<seq<Row>>): nat {
    if batches == [] then 0
    else
      var last := batches[|batches| - 1];
      Cut(key, k, batches[..|batches| - 1]) + (if last != [] && key(last[0]) == k then 1 else 0)
  }

  /** Full batches of one partition each add whole batch sizes to it. */
  lemma {:induction false} FullBatches(key: Key, k: int, size: nat, base: seq<seq<Row>>, batches: seq<seq<Row>>)
    requires base <= batches
    requires forall i :: |base| <= i < |batches| ==> |batches[i]| == size && BatchFine(key, size, batches[i])
    ensures Cut(key, k, base) <= Cut(key, k, batches)
    ensures |Joined(key, k, batches)| == |Joined(key, k, base)| + (Cut(key, k, batches) - Cut(key, k, base)) * size
    decreases |batches|
  {
    if |batches| == |base| {
      assert batches == base;
    } else {
      var init, last := batches[..|batches| - 1], batches[|batches| - 1];
      FullBatches(key, k, size, base, init);
      assert BatchFine(key, size, last);
      OfAll(key, k, key(last[0]), last);
      OneMore(Cut(key, k, init) - Cut(key, k, base), size);
    }
  }

  lemma OneMore(n: int, d: int)
    ensures (n + 1) * d == n * d + d
  {
  }

  lemma {:induction false} MultipleGrows(m: nat, d: nat)
    requires m >= 1
    ensures m * d >= d
  {
    if m > 1 {
      MultipleGrows(m - 1, d);
      OneMore(m - 1, d);
    }
  }

  lemma MultipleBounds(m: int, d: nat)
    ensures m >= 1 ==> m * d >= d
    ensures m <= -1 ==> m * d + d <= 0
  {
    if m >= 1 {
      MultipleGrows(m, d);
    } else if m <= -1 {
      MultipleGrows(-m, d);
      assert m * d == -((-m) * d);
    }
  }

  lemma Remainder(q: nat, d: nat, r: nat)
    requires r < d
    ensures (q * d + r) % d == r
  {
    var n := q * d + r;
    var x, y := n / d, n % d;
    assert n == x * d + y;
    Difference(q, x, d);
    MultipleBounds(q - x, d);
  }

  lemma Difference(a: int, b: int, d: int)
    ensures (a - b) * d == a * d - b * d
  {
  }

  /**
    What is left in a partition's buffer is what the writes since the final flush
    leave over after full batches.
  */
  lemma LeftOver(c: Config, s: State, steps: seq<Step>, t: State, k: int)
    requires Inv(c, s) && s.flusher != Polling && Empty(s.ledger) && c.size > 0 && Run(c, s, steps, t)
    ensures s.ledger.written <= t.ledger.written
    ensures |Buffered(t.ledger, k)| == |Of(c.key, k, t.ledger.written[|s.ledger.written|..])| % c.size
  {
    InvRun(c, s, steps, t);
    DrainedRunGrows(c, s, steps, t);
    EmptyMeansAllCut(c.key, c.size, s.ledger, k);
    LedgerLeftOver(c.key, c.size, s.ledger, t.ledger, k);
  }

  lemma LedgerLeftOver(key: Key, size: nat, before: Ledger, after: Ledger, k: int)
    requires size > 0 && GrownFrom(size, before, after) && Kept(key, size, after)
    requires Joined(key, k, before.batches) == Of(key, k, before.written)
    ensures |Buffered(after, k)| == |Of(key, k, after.written[|before.written|..])| % size
  {
    var since := after.written[|before.written|..];
    assert after.written == before.written + since;
    OfConcat(key, k, before.written, since);
    assert Total(key, after, k) == Of(key, k, after.written);
    FullBatches(key, k, size, before.batches, after.batches);
    hide Of, Joined, Cut;
    assert |Buffered(after, k)| < size;
    Remainder(Cut(key, k, after.batches) - Cut(key, k, before.batches), size, |Buffered(after, k)|);
  }

  /** The rows written since the final flush fill whole batches, partition by partition. */
  ghost predicate WholeBatches(c: Config, flushed: Ledger, l: Ledger)
    requires c.size > 0 && flushed.written <= l.written
  {
    forall k :: |Of(c.key, k, l.written[|flushed.written|..])| % c.size == 0
  }

  /** The buffers end empty exactly when that is so. */
  lemma EmptyExactly(c: Config, s: State, steps: seq<Step>, t: State)
    requires Inv(c, s) && s.flusher != Polling && Empty(s.ledger) && c.size > 0 && Run(c, s, steps, t)
    ensures s.ledger.written <= t.ledger.written
    ensures Empty(t.ledger) <==> WholeBatches(c, s.ledger, t.ledger)
  {
    hide Run, Inv, Of;
    forall k
      ensures s.ledger.written <= t.ledger.written
      ensures |Buffered(t.ledger, k)| == |Of(c.key, k, t.ledger.written[|s.ledger.written|..])| % c.size
    {
      LeftOver(c, s, steps, t, k);
    }
    LeftOver(c, s, steps, t, 0);
    if WholeBatches(c, s.ledger, t.ledger) {
      forall k | k in t.ledger.buffers ensures t.ledger.buffers[k] == [] {
        assert |Buffered(t.ledger, k)| == 0;
      }
    }
  }

  // -------------------------------------------------------------- the final flush

  /** steps leads from a start through a final flush, which leaves flushed, to t. */
  ghost predicate Flushes(c: Config, start: State, pre: seq<Step>, flushed: State, post: seq<Step>, t: State) {
    && (exists before :: Run(c, start, pre, before) && Next(c, before, Drain, flushed))
    && Run(c, flushed, post, t)
  }

  lemma OnlyDrainStopsPolling(c: Config, s: State, step: Step, t: State)
    requires s.flusher == Polling && t.flusher != Polling && Next(c, s, step, t)
    ensures step == Drain
  {
    hide Adds, Takes, Empty, Idle, NewlyHeld;
  }

  /** A flush loop that no longer polls has flushed, once. */
  lemma {:induction false} FlushHappened(c: Config, start: State, steps: seq<Step>, t: State)
    returns (pre: seq<Step>, flushed: State, post: seq<Step>)
    requires start.flusher == Polling && Run(c, start, steps, t) && t.flusher != Polling
    ensures Flushes(c, start, pre, flushed, post, t) && steps == pre + [Drain] + post
    decreases |steps|
  {
    hide Next;
    var init, last := steps[..|steps| - 1], steps[|steps| - 1];
    var mid :| Run(c, start, init, mid) && Next(c, mid, last, t);
    if mid.flusher == Polling {
      OnlyDrainStopsPolling(c, mid, last, t);
      pre, flushed, post := init, t, [];
    } else {
      pre, flushed, post := FlushHappened(c, start, init, mid);
      RunSnoc(c, flushed, post, mid, last, t);
      post := post + [last];
    }
  }

  lemma DrainEmpties(c: Config, s: State, t: State)
    requires Next(c, s, Drain, t)
    ensures t.flusher == Draining && Empty(t.ledger)
  {
    hide Takes, Idle, NewlyHeld;
  }

  lemma FlushedState(c: Config, statsLoop: bool, pre: seq<Step>, flushed: State, post: seq<Step>, t: State)
    requires c.size > 0 && Flushes(c, Init(statsLoop), pre, flushed, post, t)
    ensures Inv(c, flushed) && Inv(c, t) && flushed.flusher == Draining && Empty(flushed.ledger)
    ensures Reachable(c, t)
  {
    hide Inv, Next, Run;
    var before :| Run(c, Init(statsLoop), pre, before) && Next(c, before, Drain, flushed);
    InitInv(c, statsLoop);
    InvRun(c, Init(statsLoop), pre, before);
    DrainEmpties(c, before, flushed);
    InvStep(c, before, Drain, flushed);
    RunSnoc(c, Init(statsLoop), pre, before, Drain, flushed);
    InvRun(c, flushed, post, t);
    RunsJoin(c, Init(statsLoop), pre + [Drain], flushed, post, t);
  }

  lemma {:induction false} RunsJoin(c: Config, s: State, a: seq<Step>, mid: State, b: seq<Step>, t: State)
    requires Run(c, s, a, mid) && Run(c, mid, b, t)
    ensures Run(c, s, a + b, t)
    decreases |b|
  {
    hide Next;
    if b == [] {
      assert a + b == a;
    } else {
      var init, last := b[..|b| - 1], b[|b| - 1];
      var m :| Run(c, mid, init, m) && Next(c, m, last, t);
      RunsJoin(c, s, a, mid, init, m);
      RunSnoc(c, s, a + init, m, last, t);
      assert a + b == a + init + [last];
    }
  }

  // ------------------------------------------------------------- settled for good

  /** The batches whose insert has ended, in the order they were cut. */
  function SettledBatches(status: seq<Status>, batches: seq<seq<Row>>): seq<seq<Row>>
    requires |status| == |batches|
  {
    if batches == [] then []
    else
      var n := |batches| - 1;
      SettledBatches(status[..n], batches[..n]) + (if status[n].Settled? then [batches[n]] else [])
  }

  /** Every row written is in a settled batch, in order within its partition. */
  ghost predicate EveryRowSettled(c: Config, s: State)
    requires |s.status| == |s.ledger.batches|
  {
    forall k :: Joined(c.key, k, SettledBatches(s.status, s.ledger.batches)) == Of(c.key, k, s.ledger.written)
  }

  lemma {:induction false} SettledAreAll(status: seq<Status>, batches: seq<seq<Row>>)
    requires |status| == |batches| && forall i :: 0 <= i < |status| ==> status[i].Settled?
    ensures SettledBatches(status, batches) == batches
  {
    if batches != [] {
      SettledAreAll(status[..|batches| - 1], batches[..|batches| - 1]);
    }
  }

  /** Settled batches hold no more of a partition than all batches. */
  lemma {:induction false} SettledLength(key: Key, k: int, status: seq<Status>, batches: seq<seq<Row>>)
    requires |status| == |batches|
    ensures |Joined(key, k, SettledBatches(status, batches))| <= |Joined(key, k, batches)|
  {
    if batches != [] {
      var n := |batches| - 1;
      SettledLength(key, k, status[..n], batches[..n]);
      JoinedSnoc(key, k, SettledBatches(status[..n], batches[..n]), batches[n]);
      assert SettledBatches(status[..n], batches[..n]) + [] == SettledBatches(status[..n], batches[..n]);
    }
  }

  /** They hold less of the partition of a batch that is not settled. */
  lemma {:induction false} SettledShorter(key: Key, size: nat, status: seq<Status>, batches: seq<seq<Row>>, i: nat)
    requires i < |status| == |batches| && !status[i].Settled? && BatchFine(key, size, batches[i])
    ensures var k := key(batches[i][0]);
            |Joined(key, k, SettledBatches(status, batches))| < |Joined(key, k, batches)|
  {
    var n := |batches| - 1;
    var k := key(batches[i][0]);
    if i == n {
      SettledLength(key, k, status[..n], batches[..n]);
      OfAll(key, k, k, batches[n]);
      assert SettledBatches(status[..n], batches[..n]) + [] == SettledBatches(status[..n], batches[..n]);
    } else {
      SettledShorter(key, size, status[..n], batches[..n], i);
      JoinedSnoc(key, k, SettledBatches(status[..n], batches[..n]), batches[n]);
      assert SettledBatches(status[..n], batches[..n]) + [] == SettledBatches(status[..n], batches[..n]);
    }
  }

  lemma UnsettledRowIsMissing(c: Config, s: State, i: nat)
    requires Inv(c, s) && i < |s.status| && !s.status[i].Settled?
    ensures !EveryRowSettled(c, s)
  {
    assert BatchFine(c.key, c.size, s.ledger.batches[i]);
    var k := c.key(s.ledger.batches[i][0]);
    SettledShorter(c.key, c.size, s.status, s.ledger.batches, i);
    assert Total(c.key, s.ledger, k) == Of(c.key, k, s.ledger.written);
  }

  lemma BufferedRowIsMissing(c: Config, s: State, k: int)
    requires Inv(c, s) && k in s.ledger.buffers && s.ledger.buffers[k] != []
    ensures !EveryRowSettled(c, s)
  {
    SettledLength(c.key, k, s.status, s.ledger.batches);
    assert Total(c.key, s.ledger, k) == Of(c.key, k, s.ledger.written);
  }

  /** Every row is in a settled batch exactly when every batch is settled and no buffer holds a row. */
  lemma RowsByBatches(c: Config, s: State)
    requires Inv(c, s)
    ensures EveryRowSettled(c, s) <==> AllSettled(s) && Empty(s.ledger)
  {
    if AllSettled(s) && Empty(s.ledger) {
      SettledAreAll(s.status, s.ledger.batches);
      forall k ensures Joined(c.key, k, SettledBatches(s.status, s.ledger.batches)) == Of(c.key, k, s.ledger.written) {
        EmptyMeansAllCut(c.key, c.size, s.ledger, k);
      }
    }
    if !AllSettled(s) {
      var i :| 0 <= i < |s.status| && !s.status[i].Settled?;
      UnsettledRowIsMissing(c, s, i);
    }
    if !Empty(s.ledger) {
      var k :| k in s.ledger.buffers && s.ledger.buffers[k] != [];
      BufferedRowIsMissing(c, s, k);
    }
  }

  /**
    When Close returns, every row ever written is in a settled batch if and only if
    no producer is still between cutting a batch and starting its insert, and the
    rows written since the final flush fill whole batches in every partition.
  */
  lemma CloseIsExact(c: Config, statsLoop: bool, pre: seq<Step>, flushed: State, post: seq<Step>, s: State, t: State)
    requires c.size > 0 && Flushes(c, Init(statsLoop), pre, flushed, post, s) && Next(c, s, Return, t)
    ensures |t.status| == |t.ledger.batches| && flushed.ledger.written <= t.ledger.written
    ensures EveryRowSettled(c, t) <==> Quiesced(t) && WholeBatches(c, flushed.ledger, t.ledger)
  {
    FlushedState(c, statsLoop, pre, flushed, post, s);
    CloseWaitsForAllButProducers(c, s, t);
    InvStep(c, s, Return, t);
    assert t.ledger == s.ledger;
    EmptyExactly(c, flushed, post, s);
    RowsByBatches(c, t);
    hide *;
  }

  /** Every Close that returns has a final flush behind it, so CloseIsExact speaks about every return. */
  lemma ReturnFollowsFlush(c: Config, statsLoop: bool, steps: seq<Step>, s: State, t: State)
    returns (pre: seq<Step>, flushed: State, post: seq<Step>)
    requires c.size > 0 && Run(c, Init(statsLoop), steps, s) && Next(c, s, Return, t)
    ensures Flushes(c, Init(statsLoop), pre, flushed, post, s) && steps == pre + [Drain] + post
  {
    InitInv(c, statsLoop);
    InvRun(c, Init(statsLoop), steps, s);
    pre, flushed, post := FlushHappened(c, Init(statsLoop), steps, s);
  }
}
