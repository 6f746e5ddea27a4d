/**
  One zone of the vals-backed store: the fields its mutex protects, the job its
  flushBatch goroutine is running, the cluster's map, and the history variables
  the theorems speak about.  Every function here is the effect of one critical
  section or one PutBatch outcome.
*/
module ValsModel {
  import opened Common

  const FLUSH_SIZE := 2000
  const MAX_BATCH := 1000
  const BUFFER_CAP := 50000
  const HARD_RETRY_LIMIT := 6

  datatype Zone = Records | Backlinks

  datatype KV = KV(key: Bytes, value: Bytes)

  // ---------------------------------------------------------------- the shelf

  /** The mutex-protected fields of one zone. */
  datatype Shelf = Shelf(
    buffer: seq<KV>,
    admitted: nat,
    persisted: nat,
    dropped: nat,
    rejected: nat,
    inflight: U64)

  const EMPTY_SHELF := Shelf([], 0, 0, 0, 0, 0)

  function Admit(s: Shelf, kv: KV): Shelf {
    s.(buffer := s.buffer + [kv], admitted := s.admitted + 1)
  }

  function Reject(s: Shelf): Shelf {
    s.(rejected := s.rejected + 1)
  }

  /** uint64 addition and subtraction, with the wrap the machine would do. */
  function AddU64(a: U64, b: nat): U64 { (a + b) % TWO64 }

  function SubU64(a: U64, b: nat): U64 { (a - b) % TWO64 }

  function TakeAll(s: Shelf): Shelf {
    s.(buffer := [], inflight := AddU64(s.inflight, |s.buffer|))
  }

  function Account(s: Shelf, entries: nat, ok: bool): Shelf {
    if ok then
      s.(inflight := SubU64(s.inflight, entries), persisted := s.persisted + entries)
    else
      s.(inflight := SubU64(s.inflight, entries), dropped := s.dropped + entries)
  }

  // ------------------------------------------------------------- settled work

  /** A chunk whose PutBatch loop has ended, and how it ended. */
  datatype Chunk = Chunk(entries: seq<KV>, ok: bool)

  function Entries(cs: seq<Chunk>): seq<KV> {
    if cs == [] then [] else Entries(cs[..|cs| - 1]) + cs[|cs| - 1].entries
  }

  function CountSettled(cs: seq<Chunk>, ok: bool): nat {
    if cs == [] then 0
    else CountSettled(cs[..|cs| - 1], ok) + (if cs[|cs| - 1].ok == ok then |cs[|cs| - 1].entries| else 0)
  }

  predicate HasKey(es: seq<KV>, k: Bytes) {
    exists i :: 0 <= i < |es| && es[i].key == k
  }

  /** Key k occurs in a chunk that was given up. */
  predicate InDropped(cs: seq<Chunk>, k: Bytes) {
    exists i :: 0 <= i < |cs| && !cs[i].ok && HasKey(cs[i].entries, k)
  }

  // ------------------------------------------------------------- cluster state

  type Cluster = map<Bytes, Bytes>

  /** Direct puts of the entries, in order. */
  function PutAll(m: Cluster, es: seq<KV>): Cluster {
    if es == [] then m
    else PutAll(m, es[..|es| - 1])[es[|es| - 1].key := es[|es| - 1].value]
  }

  lemma {:induction false} PutAllConcat(m: Cluster, a: seq<KV>, b: seq<KV>)
    ensures PutAll(m, a + b) == PutAll(PutAll(m, a), b)
  {
    if b == [] {
      assert a + b == a;
    } else {
      assert (a + b)[..|a + b| - 1] == a + b[..|b| - 1];
      PutAllConcat(m, a, b[..|b| - 1]);
    }
  }

  /** A batch decides its own keys and leaves every other key alone. */
  lemma {:induction false} PutAllLocal(m: Cluster, m': Cluster, es: seq<KV>, k: Bytes)
    ensures !HasKey(es, k) ==> Lookup(PutAll(m, es), k) == Lookup(m, k)
    ensures HasKey(es, k) ==> Lookup(PutAll(m, es), k) == Lookup(PutAll(m', es), k)
  {
    if es != [] {
      var init := es[..|es| - 1];
      PutAllLocal(m, m', init, k);
      if es[|es| - 1].key != k {
        assert HasKey(es, k) ==> HasKey(init, k);
        if HasKey(init, k) {
          var i :| 0 <= i < |init| && init[i].key == k;
          assert es[i].key == k;
        }
      } else {
        assert es[|es| - 1].key == k;
      }
    }
  }

  // ------------------------------------------------------------------ the zone

  /** The two retry budgets of one flushChunk call. */
  datatype Retry = Retry(busy: nat, hard: nat)

  /** What one PutBatch call returned. */
  datatype Outcome = Success | Busy | Hard

  /** Where flushChunk stands for the current chunk. */
  datatype Pc =
    | Attempt              // about to call PutBatch
    | Plan                 // refused; about to read flushContext
    | SleepWake            // sleeping, listening to the timer and shutdownWake
    | SleepDeadline        // sleeping, listening to the timer and the shared deadline
    | Recheck              // woken by shutdownWake; about to read flushContext again
    | Settle(ok: bool)     // flushChunk returned; about to account for the chunk

  /** flushBatch: the buffer it was given and the next chunk's offset. */
  datatype Job = NoJob | Job(taken: seq<KV>, start: nat, pc: Pc, retry: Retry)

  datatype ZoneState = ZoneState(
    shelf: Shelf,
    job: Job,
    base: Cluster,         // the cluster's map before this process wrote to it
    cluster: Cluster,
    history: seq<KV>,      // every admitted entry, in admission order
    admittedBy: seq<nat>,  // the push call each of them came from
    rejectedBy: seq<nat>,  // the push calls that were refused
    settled: seq<Chunk>,   // every accounted chunk, in order
    deleted: set<Bytes>)   // keys that were ever deleted directly

  function FreshZone(base: Cluster): ZoneState {
    ZoneState(EMPTY_SHELF, NoJob, base, base, [], [], [], [], {})
  }

  predicate Finished(j: Job) {
    j.Job? && j.start >= |j.taken|
  }

  predicate Active(j: Job) {
    j.Job? && j.start < |j.taken|
  }

  /** The slice handed to PutBatch. */
  function CurrentChunk(j: Job): seq<KV>
    requires Active(j)
  {
    j.taken[j.start..Min(j.start + MAX_BATCH, |j.taken|)]
  }

  function Unsettled(j: Job): seq<KV> {
    if Active(j) then j.taken[j.start..] else []
  }

  function ZoneAdmit(z: ZoneState, kv: KV, call: nat): ZoneState {
    z.(shelf := Admit(z.shelf, kv), history := z.history + [kv], admittedBy := z.admittedBy + [call])
  }

  function ZoneReject(z: ZoneState, call: nat): ZoneState {
    z.(shelf := Reject(z.shelf), rejectedBy := z.rejectedBy + [call])
  }

  function ZoneTake(z: ZoneState): ZoneState {
    z.(shelf := TakeAll(z.shelf), job := Job(z.shelf.buffer, 0, Attempt, Retry(0, 0)))
  }

  /** valsRetryState.next followed by the policy's choice to retry or not. */
  function AfterRefusal(r: Retry, o: Outcome): (Retry, Pc)
    requires o != Success
  {
    if o == Busy then (r.(busy := r.busy + 1), Plan)
    else if r.hard >= HARD_RETRY_LIMIT then (r.(hard := r.hard + 1), Settle(false))
    else (r.(hard := r.hard + 1), Plan)
  }

  /**
    What a PutBatch call may leave behind.  A successful call puts the chunk in
    order; a refused one may have written anything under the chunk's own keys.
  */
  ghost predicate PutBatchEffect(before: Cluster, chunk: seq<KV>, o: Outcome, after: Cluster) {
    if o == Success then after == PutAll(before, chunk)
    else forall k :: !HasKey(chunk, k) ==> Lookup(after, k) == Lookup(before, k)
  }

  function ZonePutBatch(z: ZoneState, o: Outcome, after: Cluster): ZoneState
    requires Active(z.job)
  {
    if o == Success then
      z.(cluster := after, job := z.job.(pc := Settle(true)))
    else
      var (r, pc) := AfterRefusal(z.job.retry, o);
      z.(cluster := after, job := z.job.(pc := pc, retry := r))
  }

  function ZonePc(z: ZoneState, pc: Pc): ZoneState
    requires z.job.Job?
  {
    z.(job := z.job.(pc := pc))
  }

  /** accountChunk, then flushBatch's loop step. */
  function ZoneSettle(z: ZoneState): ZoneState
    requires Active(z.job) && z.job.pc.Settle?
  {
    var chunk := CurrentChunk(z.job);
    var ok := z.job.pc.ok;
    z.(shelf := Account(z.shelf, |chunk|, ok),
       settled := z.settled + [Chunk(chunk, ok)],
       job := z.job.(start := z.job.start + MAX_BATCH, pc := Attempt, retry := Retry(0, 0)))
  }

  function ZoneJoin(z: ZoneState): ZoneState {
    z.(job := NoJob)
  }

  /** The shutdown signals a drain can see. */
  datatype Signals = Signals(ctxInstalled: bool, wakeClosed: bool, expired: bool)

  /** The moves of one zone's flushBatch goroutine. */
  datatype DrainStep =
    | PutBatch(outcome: Outcome, after: Cluster)
    | PlanSleep
    | TimerFires
    | WakeSeen
    | RecheckCtx
    | DeadlineSeen
    | SettleChunk

  ghost predicate DrainEnabled(z: ZoneState, d: DrainStep, g: Signals) {
    && Active(z.job)
    && match d
       case PutBatch(o, after) => z.job.pc == Attempt && PutBatchEffect(z.cluster, CurrentChunk(z.job), o, after)
       case PlanSleep => z.job.pc == Plan
       case TimerFires => z.job.pc == SleepWake || z.job.pc == SleepDeadline
       case WakeSeen => z.job.pc == SleepWake && g.wakeClosed
       case RecheckCtx => z.job.pc == Recheck
       case DeadlineSeen => z.job.pc == SleepDeadline && g.expired
       case SettleChunk => z.job.pc.Settle?
  }

  function Drain(z: ZoneState, d: DrainStep, g: Signals): ZoneState
    requires DrainEnabled(z, d, g)
  {
    match d
    case PutBatch(o, after) => ZonePutBatch(z, o, after)
    case PlanSleep => ZonePc(z, if g.ctxInstalled then SleepDeadline else SleepWake)
    case TimerFires => ZonePc(z, Attempt)
    case WakeSeen => ZonePc(z, Recheck)
    case RecheckCtx => ZonePc(z, if g.ctxInstalled && g.expired then Settle(false) else Attempt)
    case DeadlineSeen => ZonePc(z, Settle(false))
    case SettleChunk => ZoneSettle(z)
  }

  /** QueueRecordDelete goes straight to the cluster. */
  function ZoneDelete(z: ZoneState, k: Bytes): ZoneState {
    z.(cluster := z.cluster - {k}, deleted := z.deleted + {k})
  }

  // ------------------------------------------------------------ zone invariant

  /** Settled chunks, the unsettled part of the flush and the buffer are the admissions, in order. */
  predicate InOrder(z: ZoneState) {
    z.history == Entries(z.settled) + Unsettled(z.job) + z.shelf.buffer
  }

  /** Every admitted entry is persisted, dropped, buffered or in flight. */
  predicate Conserved(z: ZoneState) {
    && z.shelf.admitted == |z.history| == |z.admittedBy|
    && z.shelf.rejected == |z.rejectedBy|
    && z.shelf.persisted == CountSettled(z.settled, true)
    && z.shelf.dropped == CountSettled(z.settled, false)
    && z.shelf.inflight == |Unsettled(z.job)|
    && z.shelf.admitted == z.shelf.persisted + z.shelf.dropped + |z.shelf.buffer| + z.shelf.inflight
  }

  predicate ChunksBounded(z: ZoneState) {
    && (forall i :: 0 <= i < |z.settled| ==> 1 <= |z.settled[i].entries| <= MAX_BATCH)
    && (z.job.Job? ==> z.job.retry.hard <= HARD_RETRY_LIMIT + 1)
    && (z.job.Job? && !z.job.pc.Settle? ==> z.job.retry.hard <= HARD_RETRY_LIMIT)
    && (Finished(z.job) ==> z.job.pc == Attempt)
  }

  /** The entries whose direct puts the cluster should now show. */
  function Expected(z: ZoneState): seq<KV> {
    if Active(z.job) && z.job.pc == Settle(true) then Entries(z.settled) + CurrentChunk(z.job)
    else Entries(z.settled)
  }

  /** Keys the cluster may show differently: deleted, given up, or part of a chunk still being tried. */
  predicate Unsure(z: ZoneState, k: Bytes) {
    || k in z.deleted
    || InDropped(z.settled, k)
    || (Active(z.job) && z.job.pc != Settle(true) && HasKey(CurrentChunk(z.job), k))
  }

  ghost predicate ClusterFollows(z: ZoneState) {
    forall k :: !Unsure(z, k) ==> Lookup(z.cluster, k) == Lookup(PutAll(z.base, Expected(z)), k)
  }

  ghost predicate ZoneInv(z: ZoneState) {
    && InOrder(z)
    && Conserved(z)
    && ChunksBounded(z)
    && ClusterFollows(z)
  }

  /** What bounds the uint64 in-flight counter: a flush never holds more than the buffer cap. */
  predicate JobSmall(z: ZoneState) {
    |z.shelf.buffer| <= BUFFER_CAP && (z.job.Job? ==> |z.job.taken| <= BUFFER_CAP)
  }

  lemma EntriesSnoc(cs: seq<Chunk>, c: Chunk)
    ensures Entries(cs + [c]) == Entries(cs) + c.entries
    ensures CountSettled(cs + [c], c.ok) == CountSettled(cs, c.ok) + |c.entries|
    ensures CountSettled(cs + [c], !c.ok) == CountSettled(cs, !c.ok)
  {
    assert (cs + [c])[..|cs|] == cs;
  }

  lemma InDroppedSnoc(cs: seq<Chunk>, c: Chunk, k: Bytes)
    ensures InDropped(cs + [c], k) <==> InDropped(cs, k) || (!c.ok && HasKey(c.entries, k))
  {
    var cs' := cs + [c];
    assert cs'[|cs|] == c;
    assert forall i :: 0 <= i < |cs| ==> cs'[i] == cs[i];
  }

  lemma FreshZoneInv(base: Cluster)
    ensures ZoneInv(FreshZone(base))
  {
  }

  lemma ZoneAdmitKeeps(z: ZoneState, kv: KV, call: nat)
    requires ZoneInv(z)
    ensures ZoneInv(ZoneAdmit(z, kv, call))
  {
    var z' := ZoneAdmit(z, kv, call);
    assert z'.history == Entries(z'.settled) + Unsettled(z'.job) + z'.shelf.buffer;
    assert forall k :: Unsure(z', k) == Unsure(z, k);
  }

  lemma ZoneRejectKeeps(z: ZoneState, call: nat)
    requires ZoneInv(z)
    ensures ZoneInv(ZoneReject(z, call))
  {
    assert forall k :: Unsure(ZoneReject(z, call), k) == Unsure(z, k);
  }

  lemma ZoneTakeKeeps(z: ZoneState)
    requires ZoneInv(z) && z.job.NoJob? && JobSmall(z)
    ensures ZoneInv(ZoneTake(z))
  {
    var z' := ZoneTake(z);
    assert Unsettled(z'.job) == z.shelf.buffer;
    assert forall k :: Unsure(z, k) ==> Unsure(z', k);
  }

  lemma ZonePutBatchKeeps(z: ZoneState, o: Outcome, after: Cluster)
    requires ZoneInv(z) && Active(z.job) && z.job.pc == Attempt
    requires PutBatchEffect(z.cluster, CurrentChunk(z.job), o, after)
    ensures ZoneInv(ZonePutBatch(z, o, after))
  {
    var z' := ZonePutBatch(z, o, after);
    var chunk := CurrentChunk(z.job);
    forall k | !Unsure(z', k)
      ensures Lookup(after, k) == Lookup(PutAll(z.base, Expected(z')), k)
    {
      var settledMap := PutAll(z.base, Entries(z.settled));
      if o == Success {
        PutAllConcat(z.base, Entries(z.settled), chunk);
        PutAllLocal(z.cluster, settledMap, chunk, k);
        PutAllLocal(settledMap, z.cluster, chunk, k);
        if !HasKey(chunk, k) {
          assert !Unsure(z, k);
        }
      } else {
        assert !Unsure(z, k);
      }
    }
  }

  /** Sleeping, waking and planning move no data. */
  lemma ZonePcKeeps(z: ZoneState, pc: Pc)
    requires ZoneInv(z) && Active(z.job) && !z.job.pc.Settle?
    requires pc != Settle(true)
    ensures ZoneInv(ZonePc(z, pc))
  {
    assert forall k :: Unsure(ZonePc(z, pc), k) == Unsure(z, k);
  }

  lemma ZoneSettleFollows(z: ZoneState)
    requires ClusterFollows(z) && Active(z.job) && z.job.pc.Settle?
    ensures ClusterFollows(ZoneSettle(z))
  {
    var z' := ZoneSettle(z);
    var chunk := CurrentChunk(z.job);
    var ok := z.job.pc.ok;
    EntriesSnoc(z.settled, Chunk(chunk, ok));
    forall k | !Unsure(z', k)
      ensures Lookup(z'.cluster, k) == Lookup(PutAll(z'.base, Entries(z'.settled)), k)
    {
      InDroppedSnoc(z.settled, Chunk(chunk, ok), k);
      if !ok {
        PutAllConcat(z.base, Entries(z.settled), chunk);
        PutAllLocal(PutAll(z.base, Entries(z.settled)), z.base, chunk, k);
      }
      assert !Unsure(z, k);
    }
  }

  lemma UnsettledSplits(z: ZoneState)
    requires Active(z.job) && z.job.pc.Settle?
    ensures Unsettled(z.job) == CurrentChunk(z.job) + Unsettled(ZoneSettle(z).job)
  {
    hide Account;
    var j, end := z.job, Min(z.job.start + MAX_BATCH, |z.job.taken|);
    assert j.taken[j.start..] == j.taken[j.start..end] + j.taken[end..];
    if !Active(ZoneSettle(z).job) { assert j.taken[end..] == []; }
  }

  lemma SettledFields(z: ZoneState)
    requires Active(z.job) && z.job.pc.Settle?
    ensures var t := ZoneSettle(z);
            && t.history == z.history && t.shelf.buffer == z.shelf.buffer
            && Entries(t.settled) == Entries(z.settled) + CurrentChunk(z.job)
  {
    hide Entries, CurrentChunk, SubU64;
    EntriesSnoc(z.settled, Chunk(CurrentChunk(z.job), z.job.pc.ok));
  }

  lemma Rechunk(history: seq<KV>, a: seq<KV>, u: seq<KV>, chunk: seq<KV>, b: seq<KV>, c: seq<KV>)
    requires history == a + u + c && u == chunk + b
    ensures history == a + chunk + b + c
  {
  }

  lemma ZoneSettleOrder(z: ZoneState)
    requires InOrder(z) && Active(z.job) && z.job.pc.Settle?
    ensures InOrder(ZoneSettle(z))
    ensures |Unsettled(z.job)| == |CurrentChunk(z.job)| + |Unsettled(ZoneSettle(z).job)|
  {
    hide Unsettled, CurrentChunk, Entries, ZoneSettle;
    UnsettledSplits(z);
    SettledFields(z);
    Rechunk(z.history, Entries(z.settled), Unsettled(z.job), CurrentChunk(z.job), Unsettled(ZoneSettle(z).job), z.shelf.buffer);
  }

  lemma ZoneSettleCounts(z: ZoneState)
    requires Conserved(z) && JobSmall(z) && Active(z.job) && z.job.pc.Settle?
    requires |Unsettled(z.job)| == |CurrentChunk(z.job)| + |Unsettled(ZoneSettle(z).job)|
    ensures Conserved(ZoneSettle(z))
  {
    EntriesSnoc(z.settled, Chunk(CurrentChunk(z.job), z.job.pc.ok));
  }

  lemma ZoneSettleKeeps(z: ZoneState)
    requires ZoneInv(z) && JobSmall(z) && Active(z.job) && z.job.pc.Settle?
    ensures ZoneInv(ZoneSettle(z))
  {
    ZoneSettleOrder(z);
    ZoneSettleCounts(z);
    ZoneSettleFollows(z);
    hide InOrder, Conserved, ClusterFollows;
  }

  lemma ZoneJoinKeeps(z: ZoneState)
    requires ZoneInv(z) && (z.job.NoJob? || Finished(z.job))
    ensures ZoneInv(ZoneJoin(z))
  {
    assert forall k :: Unsure(ZoneJoin(z), k) == Unsure(z, k);
  }

  lemma DrainKeeps(z: ZoneState, d: DrainStep, g: Signals)
    requires ZoneInv(z) && JobSmall(z) && DrainEnabled(z, d, g)
    ensures ZoneInv(Drain(z, d, g))
  {
    match d {
      case PutBatch(o, after) => ZonePutBatchKeeps(z, o, after);
      case PlanSleep => ZonePcKeeps(z, Drain(z, d, g).job.pc);
      case TimerFires => ZonePcKeeps(z, Attempt);
      case WakeSeen => ZonePcKeeps(z, Recheck);
      case RecheckCtx => ZonePcKeeps(z, Drain(z, d, g).job.pc);
      case DeadlineSeen => ZonePcKeeps(z, Settle(false));
      case SettleChunk => ZoneSettleKeeps(z);
    }
  }

  /** A drain move touches neither the buffer nor the admissions, and keeps listening to the right signals. */
  lemma DrainFrame(z: ZoneState, d: DrainStep, g: Signals)
    requires DrainEnabled(z, d, g)
    ensures var z' := Drain(z, d, g);
            && z'.job.Job? && z'.job.taken == z.job.taken
            && z'.shelf.buffer == z.shelf.buffer && z'.shelf.rejected == z.shelf.rejected
            && z'.history == z.history && z'.admittedBy == z.admittedBy && z'.rejectedBy == z.rejectedBy
            && z'.base == z.base && z'.deleted == z.deleted
            && (z'.job.pc == SleepDeadline ==> g.ctxInstalled)
            && (z'.job.pc == Recheck ==> g.wakeClosed)
  {
  }

  lemma ZoneDeleteKeeps(z: ZoneState, key: Bytes)
    requires ZoneInv(z)
    ensures ZoneInv(ZoneDelete(z, key))
  {
    var z' := ZoneDelete(z, key);
    forall k | !Unsure(z', k)
      ensures Lookup(z'.cluster, k) == Lookup(PutAll(z'.base, Expected(z')), k)
    {
      assert !Unsure(z, k) && k != key;
    }
  }
}
