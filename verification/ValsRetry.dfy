/**
  The retry rules of flushChunk: the two attempt budgets, the backoff delays in
  integer nanoseconds, and the loop over PutBatch outcomes.
*/
module ValsRetry {
  import opened Common
  import opened ValsModel

  const MILLISECOND := 1_000_000
  const SECOND := 1_000_000_000
  const HARD_BACKOFF := 250 * MILLISECOND
  const BUSY_BACKOFF := SECOND
  const BUSY_BACKOFF_CAP := 30 * SECOND

  // ------------------------------------------------------------------ backoff

  /** x doubled n times. */
  function Doubled(x: int, n: nat): int {
    if n == 0 then x else 2 * Doubled(x, n - 1)
  }

  /** int64 arithmetic: the value a time.Duration holds after x is stored in it. */
  function WrapInt64(x: int): int {
    (x + TWO63) % TWO64 - TWO63
  }

  lemma {:induction false} DoubledMonotone(x: int, m: nat, n: nat)
    requires 0 < x && m <= n
    ensures x <= Doubled(x, m) <= Doubled(x, n)
  {
    if n > 0 {
      DoubledMonotone(x, if m < n then m else m - 1, n - 1);
    }
  }

  /**
    Doubling with an optional cap.  With a cap the result is the smaller of the
    cap and base doubled attempt times, once the cap is rounded down to even for the
    comparison; without one it is base doubled attempt times while that fits an int64.
  */
  method ExponentialBackoff(base: int, cap: int, attempt: nat) returns (delay: int)
    requires 0 < base < TWO63 && 0 <= cap < TWO63
    ensures cap > 0 && attempt == 0 ==> delay == Min(base, cap)
    ensures cap > 0 && attempt > 0 ==>
              delay == if Doubled(base, attempt) >= 2 * (cap / 2) then cap else Doubled(base, attempt)
    ensures cap > 0 && cap % 2 == 0 ==> delay == Min(cap, Doubled(base, attempt))
    ensures cap == 0 && Doubled(base, attempt) < TWO63 ==> delay == Doubled(base, attempt)
  {
    delay := base;
    for i := 0 to attempt
      invariant cap > 0 || Doubled(base, attempt) < TWO63 ==> delay == Doubled(base, i)
      invariant cap > 0 && i > 0 ==> delay < 2 * (cap / 2)
    {
      DoubledMonotone(base, i + 1, attempt);
      if cap > 0 && delay >= cap / 2 {
        return cap;
      }
      delay := WrapInt64(delay * 2);
    }
    if cap > 0 && delay > cap {
      return cap;
    }
  }

  // ------------------------------------------------------------------- policy

  /** valsRetryPolicy. */
  datatype Policy = Policy(retry: bool, backpressure: bool, refresh: bool, delay: int)

  function Clamp01(j: real): real {
    if j < 0.0 then 0.0 else if j > 1.0 then 1.0 else j
  }

  /** One second doubled attempt times, at most thirty, then spread by the jitter and cut at thirty again. */
  function BusyDelay(attempt: nat, jitter: real): int {
    Min(30_000_000_000, ((Min(30_000_000_000, Doubled(1_000_000_000, attempt)) as real) * (0.75 + 0.5 * jitter)).Floor)
  }

  /**
    valsBatchRetryPolicy.  Busy never selects the drop path and sleeps between
    three quarters and five quarters of the capped doubling, never past the cap;
    a hard failure is retried until its budget is spent.
  */
  method BatchRetryPolicy(o: Outcome, attempt: nat, jitter: real) returns (p: Policy)
    requires o != Success
    ensures o == Busy ==> p.retry && p.backpressure && !p.refresh
    ensures o == Busy ==>
              var d := Min(30_000_000_000, Doubled(1_000_000_000, attempt));
              3 * d <= 4 * p.delay && p.delay <= Min(30_000_000_000, 5 * d / 4)
    ensures o == Busy ==>
              var d := Min(30_000_000_000, Doubled(1_000_000_000, attempt));
              (jitter <= 0.0 ==> 4 * p.delay == 3 * d) && (jitter >= 1.0 ==> p.delay == Min(30_000_000_000, 5 * d / 4))
    ensures o == Busy && 0.0 <= jitter <= 1.0 ==> p.delay == BusyDelay(attempt, jitter)
    ensures o == Hard ==> !p.backpressure && p.refresh == p.retry && (p.retry <==> attempt < 6)
    ensures o == Hard && p.retry ==> p.delay == Doubled(250_000_000, attempt)
  {
    if o == Busy {
      hide Jittered, BusyDelay;
      var capped := ExponentialBackoff(BUSY_BACKOFF, BUSY_BACKOFF_CAP, attempt);
      var j := Clamp01(jitter);
      CappedBusyDelay(attempt);
      var delay := Jittered(capped, j);
      DelayIsJittered(attempt, j);
      JitterRange(capped / 4, j);
      assert capped == 4 * (capped / 4);
      if delay > BUSY_BACKOFF_CAP {
        delay := BUSY_BACKOFF_CAP;
      }
      return Policy(true, true, false, delay);
    }
    if attempt >= HARD_RETRY_LIMIT {
      return Policy(false, false, false, 0);
    }
    DoubledMonotone(HARD_BACKOFF, attempt, HARD_RETRY_LIMIT);
    DoubledSixTimes(HARD_BACKOFF);
    var d := ExponentialBackoff(HARD_BACKOFF, 0, attempt);
    return Policy(true, false, true, d);
  }

  /** Every capped Busy delay is a whole number of quarters, so jitter 0 loses nothing. */
  lemma CappedBusyDelay(attempt: nat)
    ensures var d := Min(BUSY_BACKOFF_CAP, Doubled(BUSY_BACKOFF, attempt));
            d % 4 == 0 && BUSY_BACKOFF <= d <= BUSY_BACKOFF_CAP
  {
    DoubledMonotone(BUSY_BACKOFF, 0, attempt);
    DoubledQuarters(250_000_000, attempt);
    hide Doubled;
  }

  lemma {:induction false} DoubledQuarters(x: int, n: nat)
    ensures Doubled(4 * x, n) == 4 * Doubled(x, n)
    ensures Doubled(4 * x, n) % 4 == 0
  {
    if n > 0 { DoubledQuarters(x, n - 1); }
  }

  lemma DoubledSixTimes(x: int)
    ensures Doubled(x, 6) == 64 * x
  {
    assert Doubled(x, 1) == 2 * x;
    assert Doubled(x, 3) == 4 * Doubled(x, 1);
    assert Doubled(x, 5) == 4 * Doubled(x, 3);
  }

  lemma ScaleMonotone(x: real, a: real, b: real)
    requires x >= 0.0 && a <= b
    ensures x * a <= x * b
  {
    assert x * (b - a) >= 0.0;
  }

  lemma FloorRange(lo: int, v: real, hi: int)
    requires (lo as real) <= v <= (hi as real)
    ensures lo <= v.Floor <= hi
  {
  }

  /** time.Duration(float64(delay) * (0.75 + 0.5*jitter)), over the reals. */
  function Jittered(delay: int, j: real): int {
    ((delay as real) * (0.75 + 0.5 * j)).Floor
  }

  lemma DelayIsJittered(attempt: nat, j: real)
    ensures BusyDelay(attempt, j) == Min(BUSY_BACKOFF_CAP, Jittered(Min(BUSY_BACKOFF_CAP, Doubled(BUSY_BACKOFF, attempt)), j))
  {
  }

  lemma JitterFactor(x: real, y: real, j: real) returns (v: real)
    requires x >= 0.0 && y == 4.0 * x && 0.0 <= j <= 1.0
    ensures v == y * (0.75 + 0.5 * j)
    ensures 3.0 * x <= v <= 5.0 * x
    ensures j == 0.0 ==> v == 3.0 * x
    ensures j == 1.0 ==> v == 5.0 * x
  {
    v := y * (0.75 + 0.5 * j);
    ScaleMonotone(x, 0.0, j);
    ScaleMonotone(x, j, 1.0);
    assert (4.0 * x) * (0.75 + 0.5 * j) == 3.0 * x + 2.0 * (x * j);
  }

  lemma MultiplesAsReals(q: int)
    ensures (3 * q) as real == 3.0 * (q as real)
    ensures (4 * q) as real == 4.0 * (q as real)
    ensures (5 * q) as real == 5.0 * (q as real)
  {
  }

  lemma JitterValue(q: int, j: real) returns (v: real)
    requires q >= 0 && 0.0 <= j <= 1.0
    ensures Jittered(4 * q, j) == v.Floor
    ensures 3.0 * (q as real) <= v <= 5.0 * (q as real)
    ensures j == 0.0 ==> v == 3.0 * (q as real)
    ensures j == 1.0 ==> v == 5.0 * (q as real)
  {
    MultiplesAsReals(q);
    v := JitterFactor(q as real, (4 * q) as real, j);
  }

  lemma JitterRange(q: int, j: real)
    requires q >= 0 && 0.0 <= j <= 1.0
    ensures 3 * q <= Jittered(4 * q, j) <= 5 * q
    ensures j == 0.0 ==> Jittered(4 * q, j) == 3 * q
    ensures j == 1.0 ==> Jittered(4 * q, j) == 5 * q
  {
    hide Jittered;
    var v := JitterValue(q, j);
    MultiplesAsReals(q);
    FloorRange(3 * q, v, 5 * q);
    if j == 0.0 {
      FloorRange(3 * q, v, 3 * q);
    } else if j == 1.0 {
      FloorRange(5 * q, v, 5 * q);
    }
  }

  // -------------------------------------------------------------- retry state

  /** valsRetryState. */
  class RetryState {
    var busyAttempts: nat
    var hardAttempts: nat

    constructor ()
      ensures busyAttempts == 0 && hardAttempts == 0
    {
      busyAttempts, hardAttempts := 0, 0;
    }

    function View(): Retry
      reads this
    {
      Retry(busyAttempts, hardAttempts)
    }

    /** Spends one unit of the budget the error belongs to, and only that one. */
    method Next(o: Outcome, jitter: real) returns (p: Policy, attempt: nat)
      requires o != Success
      modifies this
      ensures attempt == if o == Busy then old(busyAttempts) else old(hardAttempts)
      ensures busyAttempts == old(busyAttempts) + (if o == Busy then 1 else 0)
      ensures hardAttempts == old(hardAttempts) + (if o == Hard then 1 else 0)
      ensures View() == AfterRefusal(old(View()), o).0 && (p.retry <==> AfterRefusal(old(View()), o).1 == Plan)
      ensures p.retry <==> o == Busy || old(hardAttempts) < 6
      ensures o == Hard && p.retry ==> p.delay == Doubled(250_000_000, old(hardAttempts))
      ensures o == Busy && 0.0 <= jitter <= 1.0 ==> p.delay == BusyDelay(old(busyAttempts), jitter)
      ensures p.refresh ==> o == Hard
      ensures o == Busy ==> p.backpressure && p.delay > 0
    {
      attempt := hardAttempts;
      if o == Busy {
        attempt := busyAttempts;
        busyAttempts := busyAttempts + 1;
      } else {
        hardAttempts := hardAttempts + 1;
      }
      CappedBusyDelay(attempt);
      p := BatchRetryPolicy(o, attempt, jitter);
    }
  }

  // ------------------------------------------------------------ the chunk loop

  /** How a backoff sleep ended. */
  datatype Wait =
    | TimerFired
    | WokenLive        // shutdownWake, and the deadline has not passed
    | WokenExpired     // shutdownWake, and the deadline has passed
    | DeadlinePassed

  /** One turn of the loop: the PutBatch outcome, the jitter drawn, how the sleep ended. */
  datatype Turn = Turn(outcome: Outcome, jitter: real, wait: Wait)

  predicate GivesUpAt(w: Wait) {
    w == WokenExpired || w == DeadlinePassed
  }

  function HardCount(ts: seq<Turn>): nat {
    if ts == [] then 0
    else HardCount(ts[..|ts| - 1]) + (if ts[|ts| - 1].outcome == Hard then 1 else 0)
  }

  /** The loop is still running after these turns. */
  predicate StillTrying(ts: seq<Turn>) {
    && (forall i :: 0 <= i < |ts| ==> ts[i].outcome != Success && !GivesUpAt(ts[i].wait))
    && HardCount(ts) <= 6
  }

  datatype ChunkResult = Persisted | Dropped | Trying

  /** The loop ends at its used-th turn: with success, at the seventh hard failure, or at the deadline. */
  predicate StopsAt(turns: seq<Turn>, used: nat, ok: bool) {
    && 0 < used <= |turns|
    && StillTrying(turns[..used - 1])
    && var last := turns[used - 1];
       if ok then last.outcome == Success
       else && last.outcome != Success
            && ((last.outcome == Hard && HardCount(turns[..used - 1]) == 6) || GivesUpAt(last.wait))
  }

  /**
    flushChunk against a finite prefix of what the cluster and the clock do.
    Trying means the prefix ran out while the loop was still going.  A drop that
    is not the deadline's comes after hard delays that sum to 15.75 seconds.
  */
  method FlushChunk(turns: seq<Turn>) returns (r: ChunkResult, used: nat, hardSlept: int)
    ensures r == Persisted <==> StopsAt(turns, used, true)
    ensures r == Dropped <==> StopsAt(turns, used, false)
    ensures r == Trying <==> used == |turns| && StillTrying(turns)
    ensures r == Dropped && !GivesUpAt(turns[used - 1].wait) ==> hardSlept == 15_750_000_000
  {
    var retries := new RetryState();
    hardSlept := 0;
    used := 0;
    while used < |turns|
      invariant used <= |turns|
      invariant StillTrying(turns[..used])
      invariant retries.hardAttempts == HardCount(turns[..used])
      invariant hardSlept == Doubled(HARD_BACKOFF, HardCount(turns[..used])) - HARD_BACKOFF
    {
      var t := turns[used];
      ghost var before := turns[..used];
      assert turns[..used + 1][..used] == before;
      used := used + 1;
      if t.outcome == Success {
        return Persisted, used, hardSlept;
      }
      var policy, _ := retries.Next(t.outcome, t.jitter);
      if !policy.retry {
        DoubledSixTimes(HARD_BACKOFF);
        return Dropped, used, hardSlept;
      }
      match t.wait {
        case TimerFired | WokenLive =>
        case WokenExpired | DeadlinePassed =>
          return Dropped, used, hardSlept;
      }
      if t.outcome == Hard {
        hardSlept := hardSlept + policy.delay;
      }
    }
    r := Trying;
    assert turns[..used] == turns;
  }

  /** The turns that are not Busy. */
  function WithoutBusy(ts: seq<Turn>): seq<Turn> {
    if ts == [] then []
    else WithoutBusy(ts[..|ts| - 1]) + (if ts[|ts| - 1].outcome == Busy then [] else [ts[|ts| - 1]])
  }

  lemma {:induction false} WithoutBusyTurns(ts: seq<Turn>)
    ensures forall t :: t in WithoutBusy(ts) <==> t in ts && t.outcome != Busy
  {
    if ts != [] {
      var init, last := ts[..|ts| - 1], ts[|ts| - 1];
      WithoutBusyTurns(init);
      assert ts == init + [last];
    }
  }

  lemma {:induction false} WithoutBusyHards(ts: seq<Turn>)
    ensures HardCount(WithoutBusy(ts)) == HardCount(ts)
  {
    if ts != [] {
      var init, last := ts[..|ts| - 1], ts[|ts| - 1];
      WithoutBusyHards(init);
      if last.outcome == Busy {
        assert WithoutBusy(ts) == WithoutBusy(init);
      } else {
        assert WithoutBusy(ts)[..|WithoutBusy(ts)| - 1] == WithoutBusy(init);
      }
    }
  }

  /**
    Before shutdown, how many Busy refusals are interleaved does not matter: the
    loop is still trying exactly when it would be without them, and a Busy-only
    history never ends it.
  */
  lemma BusyIsTransparent(ts: seq<Turn>)
    requires forall t :: t in ts ==> !GivesUpAt(t.wait)
    ensures StillTrying(ts) <==> StillTrying(WithoutBusy(ts))
    ensures WithoutBusy(ts) == [] ==> StillTrying(ts)
  {
    WithoutBusyTurns(ts);
    WithoutBusyHards(ts);
    var ws := WithoutBusy(ts);
    if StillTrying(ws) {
      assert forall t :: t in ws ==> t.outcome != Success;
      assert forall t :: t in ts ==> t.outcome != Success;
    }
    forall i | 0 <= i < |ws| ensures ws[i] in ts {
      assert ws[i] in ws;
    }
  }

  /** A loop that is still trying was still trying at every earlier turn, so it stops at most once. */
  lemma {:induction false} StillTryingPrefix(ts: seq<Turn>, n: nat)
    requires n <= |ts| && StillTrying(ts)
    ensures StillTrying(ts[..n])
  {
    if n == |ts| {
      assert ts[..n] == ts;
    } else {
      var init := ts[..|ts| - 1];
      assert StillTrying(init);
      assert init[..n] == ts[..n];
      StillTryingPrefix(init, n);
    }
  }

  /** A loop still trying after n turns has not stopped at any of them. */
  lemma TryingHasNotStopped(turns: seq<Turn>, n: nat, used: nat, ok: bool)
    requires 0 < used <= n <= |turns| && StillTrying(turns[..n])
    ensures !StopsAt(turns, used, ok)
  {
    StillTryingPrefix(turns[..n], used);
    assert turns[..n][..used] == turns[..used];
    assert turns[..used][..used - 1] == turns[..used - 1];
    assert turns[..used][used - 1] == turns[used - 1];
  }

  /** The outcomes decide the stop: a loop stops at one turn, in one way, and is not trying beyond it. */
  lemma StopsOnce(turns: seq<Turn>, used: nat, ok: bool)
    requires StopsAt(turns, used, ok)
    ensures !StillTrying(turns)
    ensures forall v: nat, ok' :: StopsAt(turns, v, ok') ==> v == used && ok' == ok
  {
    assert turns[..|turns|] == turns;
    if StillTrying(turns) {
      TryingHasNotStopped(turns, |turns|, used, ok);
    }
    forall v: nat, ok' | StopsAt(turns, v, ok')
      ensures v == used && ok' == ok
    {
      if used < v {
        TryingHasNotStopped(turns, v - 1, used, ok);
      } else if v < used {
        TryingHasNotStopped(turns, used - 1, v, ok');
      }
    }
  }
}
