/**
  What the invariants of the store's protocol mean: the promises of push, flush
  and CloseContext, for every interleaving from an empty store.
*/
module ValsTheorems {
  import opened Common
  import opened ValsModel
  import opened ValsProtocol

  ghost predicate Reachable(t: State) {
    exists records: Cluster, links: Cluster, steps: seq<Step> :: Run(Init(records, links), steps, t)
  }

  lemma ReachableInv(t: State)
    requires Reachable(t)
    ensures Inv(t)
  {
    var records: Cluster, links: Cluster, steps: seq<Step> :| Run(Init(records, links), steps, t);
    InitInv(records, links);
    InvRun(Init(records, links), steps, t);
  }

  // ------------------------------------------------------- order and accounting

  /** Per zone: settled chunks, the unsettled rest of the flush, and the buffer are the admissions in order. */
  lemma AdmissionOrder(t: State, z: Zone)
    requires Reachable(t)
    ensures var zs := ZoneOf(t, z);
            && zs.history == Entries(zs.settled) + Unsettled(zs.job) + zs.shelf.buffer
            && |zs.admittedBy| == |zs.history|
            && (forall i :: 0 <= i < |zs.history| ==>
                  zs.admittedBy[i] < |t.calls| && t.calls[zs.admittedBy[i]].kv == zs.history[i]
                  && t.calls[zs.admittedBy[i]].zone == z)
            && (forall i, j :: 0 <= i < j < |zs.history| ==> zs.admittedBy[i] != zs.admittedBy[j])
  {
    ReachableInv(t);
    assert LedgerMatches(t, z);
  }

  /** Per zone: admitted = persisted + dropped + buffered + in flight, with no uint64 wrap. */
  lemma Conservation(t: State, z: Zone)
    requires Reachable(t)
    ensures var s := ZoneOf(t, z).shelf;
            s.admitted == s.persisted + s.dropped + |s.buffer| + s.inflight
    ensures Active(ZoneOf(t, z).job) ==> |CurrentChunk(ZoneOf(t, z).job)| <= ZoneOf(t, z).shelf.inflight
  {
    ReachableInv(t);
  }

  /** At most 50000 entries buffered and 50000 in flight, over both zones. */
  lemma MemoryBound(t: State)
    requires Reachable(t)
    ensures Buffered(t) <= 50000
    ensures t.records.shelf.inflight + t.links.shelf.inflight <= 50000
  {
    ReachableInv(t);
  }

  /** Every PutBatch carries the first 1000 of the unsettled entries, or all of them if there are fewer. */
  lemma BatchBound(t: State, z: Zone)
    requires Reachable(t)
    ensures Active(ZoneOf(t, z).job) ==>
              && Unsettled(ZoneOf(t, z).job) != []
              && CurrentChunk(ZoneOf(t, z).job) == Unsettled(ZoneOf(t, z).job)[..Min(1000, |Unsettled(ZoneOf(t, z).job)|)]
    ensures forall i :: 0 <= i < |ZoneOf(t, z).settled| ==> 1 <= |ZoneOf(t, z).settled[i].entries| <= 1000
  {
    ReachableInv(t);
    assert ChunksBounded(ZoneOf(t, z));
    hide Inv, Reachable, Conserved, ClusterFollows, InOrder;
  }

  // -------------------------------------------------------------- the cluster

  /**
    Whatever refused PutBatch calls left behind, a key that was not deleted, not
    given up, and not in a chunk still being tried reads as if the settled
    entries had been put one by one.
  */
  lemma ClusterIsReplay(t: State, z: Zone, k: Bytes)
    requires Reachable(t) && !Unsure(ZoneOf(t, z), k)
    ensures Lookup(ZoneOf(t, z).cluster, k) == Lookup(PutAll(ZoneOf(t, z).base, Expected(ZoneOf(t, z))), k)
  {
    ReachableInv(t);
  }

  /** With nothing dropped, deleted, buffered or in flight, the cluster is the admissions replayed. */
  lemma QuietClusterIsReplay(t: State, z: Zone)
    requires Reachable(t)
    requires var zs := ZoneOf(t, z); zs.shelf.dropped == 0 && zs.deleted == {} && zs.shelf.buffer == [] && zs.shelf.inflight == 0
    ensures ZoneOf(t, z).cluster == PutAll(ZoneOf(t, z).base, ZoneOf(t, z).history)
  {
    ReachableInv(t);
    QuietZoneIsReplay(ZoneOf(t, z));
  }

  lemma QuietZoneIsReplay(zs: ZoneState)
    requires ZoneInv(zs) && zs.shelf.dropped == 0 && zs.deleted == {} && zs.shelf.buffer == [] && zs.shelf.inflight == 0
    ensures zs.cluster == PutAll(zs.base, zs.history)
  {
    NothingDropped(zs.settled);
    assert Unsettled(zs.job) == [];
    assert zs.history == Entries(zs.settled);
    forall k ensures Lookup(zs.cluster, k) == Lookup(PutAll(zs.base, zs.history), k) {
      assert !Unsure(zs, k);
    }
    SameLookups(zs.cluster, PutAll(zs.base, zs.history));
  }

  lemma SameLookups<K(!new), V>(m: map<K, V>, m': map<K, V>)
    requires forall k :: Lookup(m, k) == Lookup(m', k)
    ensures m == m'
  {
    assert forall k :: k in m <==> Lookup(m, k).Some?;
    assert forall k :: k in m' <==> Lookup(m', k).Some?;
  }

  lemma {:induction false} NothingDropped(cs: seq<Chunk>)
    requires CountSettled(cs, false) == 0
    requires forall i :: 0 <= i < |cs| ==> |cs[i].entries| >= 1
    ensures forall i :: 0 <= i < |cs| ==> cs[i].ok
    ensures forall k :: !InDropped(cs, k)
  {
    if cs != [] {
      NothingDropped(cs[..|cs| - 1]);
    }
  }

  // ------------------------------------------------------------------ wakeups

  /** The flusher's own moves, without its ticker. */
  predicate FlusherMove(step: Step) {
    step.Drains? || (step.Flush? && !step.fs.Tick?)
  }

  /**
    No lost wakeup: while a producer waits the store is open and the buffers are
    full, and even if the ticker never fires either the flusher has a move or a
    producer is about to send it a token.
  */
  lemma WaiterHasLiveFlusher(t: State, p: nat)
    requires Reachable(t) && At(t, p).Waiting?
    ensures !t.closed && Buffered(t) == 50000 && t.flusher != Exited
    ensures || (exists step :: FlusherMove(step) && Enabled(t, step))
            || (exists q :: q != p && Enabled(t, Produce(q, Send)))
  {
    ReachableInv(t);
    if t.flusher.Draining? {
      var step := DrainMove(t);
    } else if t.flusher.Taking? {
      assert Enabled(t, Flush(Take));
    } else if t.token {
      assert Enabled(t, Flush(RecvToken));
    } else {
      var q :| At(t, q) == Sending;
      assert Enabled(t, Produce(q, Send));
    }
  }

  /** A full buffer has been announced: a token waits, is about to be sent, or was received and not yet acted on. */
  lemma FullBufferIsAnnounced(t: State)
    requires Reachable(t) && Buffered(t) >= 2000
    ensures t.token || t.flusher.Taking? || exists p :: At(t, p) == Sending
  {
    ReachableInv(t);
  }

  /**
    What one pass of push under the mutex does: refuse exactly on a closed store,
    wait exactly at the cap, and otherwise admit, to announce from the flush size on.
  */
  lemma PushOutcome(s: State, p: nat)
    requires Enabled(s, Produce(p, PushLock))
    ensures var t := Next(s, Produce(p, PushLock));
            var e := At(s, p);
            var z, z' := ZoneOf(s, e.zone), ZoneOf(t, e.zone);
            var other := if e.zone == Records then Backlinks else Records;
            && ZoneOf(t, other) == ZoneOf(s, other)
            && (forall q :: q != p ==> At(t, q) == At(s, q))
            && (s.closed ==> At(t, p) == Idle && z'.history == z.history && z'.rejectedBy == z.rejectedBy + [e.call]
                             && t.calls == s.calls[e.call := s.calls[e.call].(fate := Rejected(|z.rejectedBy|))])
            && (!s.closed && Buffered(s) >= 50000 ==> At(t, p) == Waiting(e.zone, e.kv, e.call) && z' == z && t.calls == s.calls)
            && (!s.closed && Buffered(s) < 50000 ==>
                  && z'.history == z.history + [e.kv] && z'.rejectedBy == z.rejectedBy
                  && t.calls == s.calls[e.call := s.calls[e.call].(fate := Admitted(|z.admittedBy|))]
                  && At(t, p) == if Buffered(s) + 1 >= 2000 then Sending else Idle)
  {
    hide Buffered;
    if s.closed {
      hide DoAdmit;
    } else if Buffered(s) >= 50000 {
      hide DoAdmit, DoRefuse;
    } else {
      hide DoRefuse;
    }
  }

  /** Inside flush there is always a move, given that each PutBatch returns. */
  lemma DrainMove(t: State) returns (step: Step)
    requires Inv(t) && t.flusher.Draining?
    ensures FlusherMove(step) && Enabled(t, step)
  {
    if Active(t.records.job) {
      step := Drains(Records, ZoneMove(t.records, t.signals));
    } else if Active(t.links.job) {
      step := Drains(Backlinks, ZoneMove(t.links, t.signals));
    } else {
      step := Flush(Join);
    }
  }

  function ZoneMove(z: ZoneState, g: Signals): (d: DrainStep)
    requires Active(z.job)
    ensures DrainEnabled(z, d, g)
  {
    match z.job.pc
    case Attempt => PutBatch(Success, PutAll(z.cluster, CurrentChunk(z.job)))
    case Plan => PlanSleep
    case SleepWake => TimerFires
    case SleepDeadline => TimerFires
    case Recheck => RecheckCtx
    case Settle(_) => SettleChunk
  }

  // ------------------------------------------------------------ a bounded wait

  /** How many of a job's chunks are not settled. */
  function ChunksFor(entries: nat): nat {
    (entries + MAX_BATCH - 1) / MAX_BATCH
  }

  function ChunksLeft(j: Job): nat {
    if Active(j) then ChunksFor(|j.taken| - j.start) else 0
  }

  /** Moves left for a job against a cluster that accepts every batch. */
  function HealthyJob(j: Job): nat {
    if !Active(j) then 0
    else
      2 * (ChunksLeft(j) - 1) +
      match j.pc
      case Settle(_) => 1
      case Attempt => 2
      case Recheck => 3
      case SleepWake => 4
      case SleepDeadline => 4
      case Plan => 5
  }

  function HealthyRank(s: State): nat {
    HealthyJob(s.records.job) + HealthyJob(s.links.job) +
    match s.flusher
    case Draining(_) => 3
    case Selecting => 2
    case Taking(_) => 1
    case Exited => 0
  }

  /** The step is a move of the flusher or of its drains, ticker included. */
  predicate FlusherSide(step: Step) {
    step.Flush? || step.Drains?
  }

  function Count(steps: seq<Step>, which: Step -> bool): nat {
    if steps == [] then 0 else (if which(steps[0]) then 1 else 0) + Count(steps[1..], which)
  }

  predicate SameJobs(s: State, t: State) {
    && t.records.job == s.records.job && t.links.job == s.links.job
    && t.records.shelf.persisted == s.records.shelf.persisted && t.links.shelf.persisted == s.links.shelf.persisted
    && t.flusher == s.flusher
  }

  lemma ProduceKeepsJobs(s: State, p: nat, ps: ProducerStep)
    requires Enabled(s, Produce(p, ps))
    ensures SameJobs(s, DoProduce(s, p, ps))
  {
    match ps {
      case EnterPush(_, _) =>
      case PushLock => PushLockKeepsJobs(s, p);
      case Send =>
    }
    hide DoPushLock;
  }

  lemma PushLockKeepsJobs(s: State, p: nat)
    requires At(s, p).Entering? && At(s, p).call < |s.calls|
    ensures SameJobs(s, DoPushLock(s, p))
  {
    AdmitKeepsJobs(s, p);
    hide DoAdmit;
  }

  lemma AdmitKeepsJobs(s: State, p: nat)
    requires At(s, p).Entering? && At(s, p).call < |s.calls|
    ensures SameJobs(s, DoAdmit(s, p))
  {
    hide Buffered;
  }

  /** Only the flusher side moves jobs. */
  lemma OthersKeepJobs(s: State, step: Step)
    requires Enabled(s, step) && !FlusherSide(step)
    ensures SameJobs(s, Next(s, step))
  {
    match step {
      case Produce(p, ps) => ProduceKeepsJobs(s, p, ps);
      case Shutdown(_) =>
      case DeleteKey(_) =>
    }
  }

  lemma HealthyJobDrops(z: ZoneState, d: DrainStep, g: Signals)
    requires DrainEnabled(z, d, g) && ZoneInv(z)
    requires d.PutBatch? ==> d.outcome == Success
    ensures HealthyJob(Drain(z, d, g).job) < HealthyJob(z.job)
  {
  }

  lemma HealthyFlush(s: State, fs: FlusherStep)
    requires Inv(s) && Enabled(s, Flush(fs)) && fs != Take
    ensures HealthyRank(DoFlush(s, fs)) + 1 <= HealthyRank(s)
  {
  }

  lemma HealthyDrain(s: State, z: Zone, d: DrainStep)
    requires Inv(s) && Enabled(s, Drains(z, d)) && (d.PutBatch? ==> d.outcome == Success)
    ensures HealthyRank(Next(s, Drains(z, d))) + 1 <= HealthyRank(s)
  {
    assert ZoneInv(ZoneOf(s, z));
    hide Inv, ZoneInv;
    HealthyJobDrops(ZoneOf(s, z), d, s.signals);
    DrainNext(s, z, d);
    hide HealthyJob, Drain, DrainEnabled, Next, Enabled;
  }

  lemma HealthyRankStep(s: State, step: Step)
    requires Inv(s) && Enabled(s, step)
    requires step.Drains? && step.ds.PutBatch? ==> step.ds.outcome == Success
    requires step != Flush(Take)
    ensures HealthyRank(Next(s, step)) + (if FlusherSide(step) then 1 else 0) <= HealthyRank(s)
  {
    match step {
      case Drains(z, d) => HealthyDrain(s, z, d);
      case Flush(fs) => HealthyFlush(s, fs);
      case _ => OthersKeepJobs(s, step);
    }
  }

  /**
    A wait is bounded when the cluster accepts batches: without a Take the
    flusher side makes at most HealthyRank moves, and a Take wakes every waiter.
  */
  lemma {:induction false} WaitIsBounded(s: State, steps: seq<Step>, t: State)
    requires Inv(s) && Run(s, steps, t)
    requires forall i :: 0 <= i < |steps| ==> steps[i] != Flush(Take)
    requires forall i :: 0 <= i < |steps| && steps[i].Drains? && steps[i].ds.PutBatch? ==> steps[i].ds.outcome == Success
    ensures Count(steps, FlusherSide) + HealthyRank(t) <= HealthyRank(s)
    decreases |steps|
  {
    hide Inv, Enabled, Next, HealthyRank;
    if steps != [] {
      HealthyRankStep(s, steps[0]);
      InvStep(s, steps[0]);
      WaitIsBounded(Next(s, steps[0]), steps[1..], t);
    }
  }

  lemma TakeWakesEveryone(s: State, p: nat)
    requires Enabled(s, Flush(Take))
    ensures !At(Next(s, Flush(Take)), p).Waiting?
    ensures Buffered(Next(s, Flush(Take))) == 0
  {
  }

  lemma CapChunks()
    ensures 2 * ChunksFor(BUFFER_CAP) + 13 == 113
  {
  }

  lemma HealthyRankIsSmall(s: State)
    requires Inv(s)
    ensures HealthyRank(s) <= 2 * ChunksFor(BUFFER_CAP) + 13
  {
  }

  lemma RunHead(s: State, steps: seq<Step>, t: State, which: Step -> bool)
    requires Run(s, steps, t) && steps != []
    ensures Enabled(s, steps[0]) && Run(Next(s, steps[0]), steps[1..], t)
    ensures Count(steps, which) == (if which(steps[0]) then 1 else 0) + Count(steps[1..], which)
  {
    hide Enabled, Next;
  }

  lemma RunCons(s: State, step: Step, rest: seq<Step>, t: State, which: Step -> bool)
    requires Enabled(s, step) && Run(Next(s, step), rest, t)
    ensures Run(s, [step] + rest, t)
    ensures Count([step] + rest, which) == (if which(step) then 1 else 0) + Count(rest, which)
  {
    hide Enabled, Next;
    assert ([step] + rest)[1..] == rest;
  }

  lemma NoSteps(s: State, which: Step -> bool)
    ensures Run(s, [], s) && Count([], which) == 0
  {
  }

  /** The steps up to and including the first Take, which comes within HealthyRank moves of an accepting run. */
  lemma {:induction false} FirstTake(s: State, p: nat, steps: seq<Step>, t: State) returns (i: nat, mid: State)
    requires Inv(s) && Run(s, steps, t) && Count(steps, FlusherSide) > HealthyRank(s)
    requires forall j :: 0 <= j < |steps| && IsAttempt(steps[j]) ==> steps[j].ds.outcome == Success
    ensures 0 < i <= |steps| && Run(s, steps[..i], mid) && !At(mid, p).Waiting?
    ensures Count(steps[..i], FlusherSide) <= HealthyRank(s) + 1
    decreases |steps|
  {
    hide HealthyRank, Inv, Next, Enabled, Run, Count, At;
    NoSteps(s, FlusherSide);
    RunHead(s, steps, t, FlusherSide);
    var next := Next(s, steps[0]);
    if steps[0] == Flush(Take) {
      TakeWakesEveryone(s, p);
      NoSteps(next, FlusherSide);
      RunCons(s, steps[0], [], next, FlusherSide);
      i, mid := 1, next;
      assert steps[..1] == [steps[0]] + [];
    } else {
      HealthyRankStep(s, steps[0]);
      InvStep(s, steps[0]);
      i, mid := FirstTake(next, p, steps[1..], t);
      RunCons(s, steps[0], steps[1..][..i], mid, FlusherSide);
      assert steps[..i + 1] == [steps[0]] + steps[1..][..i];
      i := i + 1;
    }
  }

  /**
    A producer blocked in a reachable state stops waiting within 114 flusher-side
    moves of any run in which the cluster accepts.
  */
  lemma BlockedProducerIsWoken(s: State, p: nat, steps: seq<Step>, t: State) returns (i: nat, mid: State)
    requires Reachable(s) && At(s, p).Waiting? && Run(s, steps, t)
    requires forall i :: 0 <= i < |steps| && IsAttempt(steps[i]) ==> steps[i].ds.outcome == Success
    requires Count(steps, FlusherSide) >= 114
    ensures 0 < i <= |steps| && Run(s, steps[..i], mid) && !At(mid, p).Waiting?
    ensures Count(steps[..i], FlusherSide) <= 114
  {
    hide *;
    ReachableInv(s);
    HealthyRankIsSmall(s);
    CapChunks();
    i, mid := FirstTake(s, p, steps, t);
  }

  // ------------------------------------------------------ draining at the deadline

  /** A drain that sleeps past the deadline gives the chunk up instead of waiting for its fresh timer. */
  ghost predicate Prompt(s: State, step: Step) {
    step.Drains? && step.ds.TimerFires? ==> ZoneOf(s, step.zone).job.Job? && ZoneOf(s, step.zone).job.pc != SleepDeadline
  }

  ghost predicate PromptRun(s: State, steps: seq<Step>, t: State)
    decreases |steps|
  {
    if steps == [] then t == s
    else Enabled(s, steps[0]) && Prompt(s, steps[0]) && PromptRun(Next(s, steps[0]), steps[1..], t)
  }

  predicate IsAttempt(step: Step) {
    step.Drains? && step.ds.PutBatch?
  }

  predicate IsTick(step: Step) {
    step == Flush(Tick)
  }

  predicate IsSend(step: Step) {
    step.Produce? && step.ps.Send?
  }

  /** PutBatch calls a job can still make once the deadline has passed. */
  function AttemptsLeft(j: Job): nat {
    if !Active(j) then 0
    else ChunksLeft(j) - (if j.pc == Attempt || j.pc == SleepWake then 0 else 1)
  }

  function StoreAttemptsLeft(s: State): nat {
    AttemptsLeft(s.records.job) + AttemptsLeft(s.links.job)
    + ChunksFor(|s.records.shelf.buffer|) + ChunksFor(|s.links.shelf.buffer|)
  }

  function DeadlineJob(j: Job): nat {
    if !Active(j) then 0
    else
      6 * (ChunksLeft(j) - 1) +
      match j.pc
      case Settle(_) => 1
      case SleepDeadline => 2
      case Recheck => 2
      case Plan => 3
      case Attempt => 4
      case SleepWake => 5
  }

  function DeadlineRank(s: State): nat {
    DeadlineJob(s.records.job) + DeadlineJob(s.links.job)
    + 6 * ChunksFor(|s.records.shelf.buffer|) + 6 * ChunksFor(|s.links.shelf.buffer|)
    + (if s.token then 3 else 0)
    + match s.flusher
      case Taking(false) => 5
      case Draining(false) => 4
      case Selecting => 3
      case Taking(true) => 2
      case Draining(true) => 1
      case Exited => 0
  }

  lemma DeadlineDrainDrops(z: ZoneState, d: DrainStep, g: Signals)
    requires DrainEnabled(z, d, g) && g.ctxInstalled && g.expired
    requires d.TimerFires? ==> z.job.pc != SleepDeadline
    ensures DeadlineJob(Drain(z, d, g).job) < DeadlineJob(z.job)
    ensures AttemptsLeft(Drain(z, d, g).job) + (if d.PutBatch? then 1 else 0) <= AttemptsLeft(z.job)
  {
  }

  ghost predicate PastDeadline(s: State) {
    Inv(s) && s.closed && s.signals.expired
  }

  lemma DeadlineFlush(s: State, fs: FlusherStep)
    requires PastDeadline(s) && Enabled(s, Flush(fs))
    ensures StoreAttemptsLeft(DoFlush(s, fs)) <= StoreAttemptsLeft(s)
    ensures DeadlineRank(DoFlush(s, fs)) + 1 <= DeadlineRank(s) + (if fs == Tick then 3 else 0)
  {
    if fs == Take {
      DeadlineTake(s);
    } else {
      assert Bounded(s) && ShutdownOrder(s);
      hide Inv, ChunksFor;
      DeadlineOtherFlush(s, fs);
    }
    hide PastDeadline, StoreAttemptsLeft, DeadlineRank, DoFlush;
  }

  lemma DeadlineTake(s: State)
    requires s.flusher.Taking?
    ensures StoreAttemptsLeft(DoFlush(s, Take)) <= StoreAttemptsLeft(s)
    ensures DeadlineRank(DoFlush(s, Take)) + 1 <= DeadlineRank(s)
  {
    hide DoFlush, ChunksFor, DeadlineJob, AttemptsLeft;
    TakenWork(s);
  }

  lemma DeadlineOtherFlush(s: State, fs: FlusherStep)
    requires Bounded(s) && s.closed && Enabled(s, Flush(fs)) && fs != Take
    ensures StoreAttemptsLeft(DoFlush(s, fs)) <= StoreAttemptsLeft(s)
    ensures DeadlineRank(DoFlush(s, fs)) + 1 <= DeadlineRank(s) + (if fs == Tick then 3 else 0)
  {
    hide ChunksFor, WakeAll, Buffered;
    assert fs == Join ==> AttemptsLeft(s.records.job) == 0 && AttemptsLeft(s.links.job) == 0;
  }

  /** A take turns each buffer into a job of as many chunks. */
  lemma TakenWork(s: State)
    requires s.flusher.Taking?
    ensures var t := DoFlush(s, Take);
            && t.token == s.token && t.flusher == Draining(s.flusher.last)
            && t.records.shelf.buffer == [] && t.links.shelf.buffer == []
            && DeadlineJob(t.records.job) <= 6 * ChunksFor(|s.records.shelf.buffer|)
            && DeadlineJob(t.links.job) <= 6 * ChunksFor(|s.links.shelf.buffer|)
            && AttemptsLeft(t.records.job) == ChunksFor(|s.records.shelf.buffer|)
            && AttemptsLeft(t.links.job) == ChunksFor(|s.links.shelf.buffer|)
            && ChunksFor(0) == 0
  {
    hide WakeAll;
  }

  lemma DeadlineDrain(s: State, z: Zone, d: DrainStep)
    requires PastDeadline(s) && Enabled(s, Drains(z, d)) && Prompt(s, Drains(z, d))
    ensures var t := Next(s, Drains(z, d));
            && StoreAttemptsLeft(t) + (if d.PutBatch? then 1 else 0) <= StoreAttemptsLeft(s)
            && DeadlineRank(t) + 1 <= DeadlineRank(s)
  {
    assert s.signals.ctxInstalled;
    hide Inv, DeadlineJob, AttemptsLeft, ChunksFor, Drain, DrainEnabled;
    DeadlineDrainDrops(ZoneOf(s, z), d, s.signals);
    DrainFrame(ZoneOf(s, z), d, s.signals);
    DrainNext(s, z, d);
    hide Next, Enabled, Prompt;
  }

  lemma DrainNext(s: State, z: Zone, d: DrainStep)
    requires Enabled(s, Drains(z, d))
    ensures var t, v := Next(s, Drains(z, d)), Drain(ZoneOf(s, z), d, s.signals);
            && t.flusher == s.flusher && t.token == s.token
            && t.records == (if z == Records then v else s.records) && t.links == (if z == Records then s.links else v)
  {
    hide Drain, DrainEnabled;
  }

  lemma DeadlineProduce(s: State, p: nat, ps: ProducerStep)
    requires s.closed && Enabled(s, Produce(p, ps))
    ensures var t := DoProduce(s, p, ps);
            && StoreAttemptsLeft(t) == StoreAttemptsLeft(s)
            && DeadlineRank(t) <= DeadlineRank(s) + (if ps.Send? then 3 else 0)
  {
    LateProduceKeepsWork(s, p, ps);
    hide DoProduce, Enabled, DeadlineJob, AttemptsLeft, ChunksFor;
  }

  lemma LateProduceKeepsWork(s: State, p: nat, ps: ProducerStep)
    requires s.closed && Enabled(s, Produce(p, ps))
    ensures var t := DoProduce(s, p, ps);
            SameWork(s, t) || (ps.Send? && SameWork(s.(token := true), t))
  {
  }

  lemma PastDeadlineStays(s: State, step: Step)
    requires PastDeadline(s) && Enabled(s, step)
    ensures PastDeadline(Next(s, step))
  {
    InvStep(s, step);
    hide Inv;
    FlagsStay(s, step);
  }

  /** Closing and expiry are permanent. */
  lemma FlagsStay(s: State, step: Step)
    requires Enabled(s, step)
    ensures s.closed ==> Next(s, step).closed
    ensures s.signals.expired ==> Next(s, step).signals.expired
  {
    hide DoProduce, Drain, DrainEnabled, WakeAll;
    match step {
      case Produce(p, ps) => ProduceKeepsFlags(s, p, ps);
      case _ =>
    }
  }

  lemma ProduceKeepsFlags(s: State, p: nat, ps: ProducerStep)
    requires Enabled(s, Produce(p, ps))
    ensures DoProduce(s, p, ps).closed == s.closed && DoProduce(s, p, ps).signals == s.signals
  {
    hide Buffered, ZoneAdmit, ZoneReject;
    match ps {
      case EnterPush(_, _) =>
      case Send =>
      case PushLock =>
    }
  }

  predicate SameWork(s: State, t: State) {
    && t.records.job == s.records.job && t.links.job == s.links.job
    && t.records.shelf.buffer == s.records.shelf.buffer && t.links.shelf.buffer == s.links.shelf.buffer
    && t.token == s.token && t.flusher == s.flusher
  }

  lemma DeadlineStep(s: State, step: Step)
    requires PastDeadline(s) && Enabled(s, step) && Prompt(s, step)
    ensures StoreAttemptsLeft(Next(s, step)) + (if IsAttempt(step) then 1 else 0) <= StoreAttemptsLeft(s)
    ensures DeadlineRank(Next(s, step)) + (if FlusherSide(step) then 1 else 0)
            <= DeadlineRank(s) + (if IsTick(step) then 3 else 0) + (if IsSend(step) then 3 else 0)
  {
    hide Inv, StoreAttemptsLeft, DeadlineRank, Prompt;
    match step {
      case Drains(z, d) => DeadlineDrain(s, z, d);
      case Flush(fs) => DeadlineFlush(s, fs);
      case Produce(p, ps) => DeadlineProduce(s, p, ps);
      case Shutdown(ss) => OthersKeepWork(s, step);
      case DeleteKey(_) => OthersKeepWork(s, step);
    }
    hide DoProduce, DoFlush, DoShutdown, Enabled, Prompt;
  }

  lemma OthersKeepWork(s: State, step: Step)
    requires Enabled(s, step) && (step.Shutdown? || step.DeleteKey?)
    ensures StoreAttemptsLeft(Next(s, step)) == StoreAttemptsLeft(s) && DeadlineRank(Next(s, step)) == DeadlineRank(s)
  {
    hide StoreAttemptsLeft, DeadlineRank, DoShutdown, SameWork;
    match step {
      case Shutdown(ss) =>
        ShutdownKeepsWork(s, ss);
        SameWorkRanks(s, DoShutdown(s, ss));
      case DeleteKey(k) =>
        DeleteKeepsWork(s, k);
        SameWorkRanks(s, Next(s, step));
    }
  }

  lemma ShutdownKeepsWork(s: State, ss: ShutdownStep)
    requires Enabled(s, Shutdown(ss))
    ensures SameWork(s, DoShutdown(s, ss))
  {
    hide Remaining, Lost, WakeAll;
  }

  lemma DeleteKeepsWork(s: State, k: Bytes)
    ensures SameWork(s, Next(s, DeleteKey(k)))
  {
  }

  lemma SameWorkRanks(s: State, t: State)
    requires SameWork(s, t)
    ensures StoreAttemptsLeft(t) == StoreAttemptsLeft(s) && DeadlineRank(t) == DeadlineRank(s)
  {
  }

  /**
    After the deadline a closed store starts at most one more PutBatch per
    unsettled chunk, whatever the outcomes, and apart from ticks and late sends
    the flusher side makes a bounded number of moves.
  */
  lemma {:induction false} DrainTerminates(s: State, steps: seq<Step>, t: State)
    requires PastDeadline(s) && PromptRun(s, steps, t)
    ensures PastDeadline(t)
    ensures Count(steps, IsAttempt) + StoreAttemptsLeft(t) <= StoreAttemptsLeft(s)
    ensures Count(steps, FlusherSide) + DeadlineRank(t)
            <= DeadlineRank(s) + 3 * Count(steps, IsTick) + 3 * Count(steps, IsSend)
    decreases |steps|
  {
    if steps != [] {
      DeadlineStep(s, steps[0]);
      PastDeadlineStays(s, steps[0]);
      DrainTerminates(Next(s, steps[0]), steps[1..], t);
    }
  }

  /** Producers that are about to send a token. */
  function Senders(s: State): set<nat> {
    set p | p in s.producers && s.producers[p] == Sending
  }

  lemma ClosedProduceSenders(s: State, p: nat, ps: ProducerStep)
    requires s.closed && Enabled(s, Produce(p, ps))
    ensures Senders(DoProduce(s, p, ps)) == if ps.Send? then Senders(s) - {p} else Senders(s)
    ensures ps.Send? ==> p in Senders(s)
  {
  }

  lemma OthersKeepSenders(s: State, step: Step)
    requires Enabled(s, step) && !step.Produce?
    ensures Senders(Next(s, step)) == Senders(s)
  {
    OthersKeepSending(s, step);
    hide Next, Enabled;
    SameSenders(s, Next(s, step));
  }

  lemma OthersKeepSending(s: State, step: Step)
    requires Enabled(s, step) && !step.Produce?
    ensures Next(s, step).producers == s.producers || Next(s, step).producers == WakeAll(s.producers)
  {
    hide DoProduce, DoFlush, DoShutdown, Drain, DrainEnabled, WakeAll;
    match step {
      case Flush(fs) => FlushAdmitsNothing(s, fs);
      case Shutdown(ss) => ShutdownAdmitsNothing(s, ss);
      case _ =>
    }
  }

  lemma SameSenders(s: State, t: State)
    requires t.producers == s.producers || t.producers == WakeAll(s.producers)
    ensures Senders(t) == Senders(s)
  {
  }

  /** A closed store gets no new senders, so each send uses one up. */
  lemma SendersRunOut(s: State, step: Step)
    requires s.closed && Enabled(s, step)
    ensures |Senders(Next(s, step))| + (if IsSend(step) then 1 else 0) <= |Senders(s)|
  {
    match step {
      case Produce(p, ps) => ClosedProduceSenders(s, p, ps);
      case _ => OthersKeepSenders(s, step);
    }
    hide Senders, Next;
  }

  lemma {:induction false} LateSends(s: State, steps: seq<Step>, t: State)
    requires PastDeadline(s) && PromptRun(s, steps, t)
    ensures Count(steps, IsSend) + |Senders(t)| <= |Senders(s)|
    decreases |steps|
  {
    if steps != [] {
      SendersRunOut(s, steps[0]);
      PastDeadlineStays(s, steps[0]);
      LateSends(Next(s, steps[0]), steps[1..], t);
    }
  }

  /**
    The final drain ends, against any cluster.  After the deadline a prompt run of a
    closed store makes a bounded number of attempts and, ticks apart, of moves; when
    no prompt move of the flusher is left, the flusher has returned, nothing is
    buffered or in flight, and every admitted entry is counted as persisted or dropped.
  */
  lemma DrainEnds(s: State, steps: seq<Step>, t: State, z: Zone)
    requires PastDeadline(s) && PromptRun(s, steps, t)
    ensures Count(steps, IsAttempt) <= StoreAttemptsLeft(s)
    ensures Count(steps, FlusherSide) <= DeadlineRank(s) + 3 * Count(steps, IsTick) + 3 * |Senders(s)|
    ensures (forall step :: FlusherMove(step) && Enabled(t, step) ==> !Prompt(t, step)) <==> t.flusher == Exited
    ensures t.flusher == Exited ==>
              && Remaining(t) == 0
              && ZoneOf(t, z).shelf.admitted == ZoneOf(t, z).shelf.persisted + ZoneOf(t, z).shelf.dropped
  {
    DrainTerminates(s, steps, t);
    LateSends(s, steps, t);
    if t.flusher != Exited {
      ClosedFlusherCanMove(t);
    } else {
      ExitedCannotMove(t);
    }
    hide DeadlineRank, StoreAttemptsLeft, Count, Enabled, Prompt;
  }

  lemma ExitedCannotMove(t: State)
    requires Inv(t) && t.flusher == Exited
    ensures forall step :: FlusherMove(step) ==> !Enabled(t, step)
  {
  }

  /** A closed store whose flusher has not returned can always move it, promptly and without the ticker. */
  lemma ClosedFlusherCanMove(t: State)
    requires PastDeadline(t) && t.flusher != Exited
    ensures exists step :: FlusherMove(step) && Enabled(t, step) && Prompt(t, step)
  {
    if t.flusher == Selecting {
      assert Enabled(t, Flush(RecvDone)) && Prompt(t, Flush(RecvDone));
    } else if t.flusher.Taking? {
      assert Enabled(t, Flush(Take)) && Prompt(t, Flush(Take));
    } else if Active(t.records.job) {
      var step := Drains(Records, PromptMove(t.records, t.signals));
      assert Enabled(t, step) && Prompt(t, step);
    } else if Active(t.links.job) {
      var step := Drains(Backlinks, PromptMove(t.links, t.signals));
      assert Enabled(t, step) && Prompt(t, step);
    } else {
      assert Enabled(t, Flush(Join)) && Prompt(t, Flush(Join));
    }
  }

  function PromptMove(z: ZoneState, g: Signals): (d: DrainStep)
    requires Active(z.job) && g.expired
    ensures DrainEnabled(z, d, g) && !(d.TimerFires? && z.job.pc == SleepDeadline)
  {
    if z.job.pc == SleepDeadline then DeadlineSeen else ZoneMove(z, g)
  }

  // ---------------------------------------------------- a cluster that refuses

  /** Persisted entries, counting a chunk that succeeded and is about to be accounted for. */
  function PersistedSoon(z: ZoneState): nat {
    z.shelf.persisted + (if Active(z.job) && z.job.pc == Settle(true) then |CurrentChunk(z.job)| else 0)
  }

  lemma RefusedDrainPersistsNothing(z: ZoneState, d: DrainStep, g: Signals)
    requires DrainEnabled(z, d, g)
    requires d.PutBatch? ==> d.outcome != Success
    ensures PersistedSoon(Drain(z, d, g)) == PersistedSoon(z)
  {
  }

  lemma RefusedDrain(s: State, z: Zone, d: DrainStep)
    requires Enabled(s, Drains(z, d)) && (d.PutBatch? ==> d.outcome != Success)
    ensures var t := Next(s, Drains(z, d));
            PersistedSoon(t.records) == PersistedSoon(s.records) && PersistedSoon(t.links) == PersistedSoon(s.links)
  {
    RefusedDrainPersistsNothing(ZoneOf(s, z), d, s.signals);
  }

  lemma RefusedFlush(s: State, fs: FlusherStep)
    requires Bounded(s) && Enabled(s, Flush(fs))
    ensures var t := DoFlush(s, fs);
            PersistedSoon(t.records) == PersistedSoon(s.records) && PersistedSoon(t.links) == PersistedSoon(s.links)
  {
    hide WakeAll, Buffered;
    match fs {
      case Take => assert ZoneTake(s.records).job.pc == Attempt && ZoneTake(s.links).job.pc == Attempt;
      case Join => assert !Active(s.records.job) && !Active(s.links.job);
      case _ =>
    }
  }

  lemma RefusedStepPersistsNothing(s: State, step: Step)
    requires Inv(s) && Enabled(s, step)
    requires IsAttempt(step) ==> step.ds.outcome != Success
    ensures PersistedSoon(Next(s, step).records) == PersistedSoon(s.records)
    ensures PersistedSoon(Next(s, step).links) == PersistedSoon(s.links)
  {
    match step {
      case Drains(z, d) => RefusedDrain(s, z, d);
      case Flush(fs) => RefusedFlush(s, fs);
      case _ => OthersKeepJobs(s, step);
    }
  }

  lemma {:induction false} RefusedRunPersistsNothing(s: State, steps: seq<Step>, t: State)
    requires Inv(s) && Run(s, steps, t)
    requires forall i :: 0 <= i < |steps| && IsAttempt(steps[i]) ==> steps[i].ds.outcome != Success
    ensures PersistedSoon(t.records) == PersistedSoon(s.records)
    ensures PersistedSoon(t.links) == PersistedSoon(s.links)
    decreases |steps|
  {
    hide Inv, Enabled, Next, PersistedSoon;
    if steps != [] {
      RefusedStepPersistsNothing(s, steps[0]);
      InvStep(s, steps[0]);
      RefusedRunPersistsNothing(Next(s, steps[0]), steps[1..], t);
    }
  }

  /** Against a cluster that refuses everything, a finished drain has counted every leftover entry as dropped. */
  lemma RefusedDrainDropsTheRest(s: State, steps: seq<Step>, t: State, z: Zone)
    requires Inv(s) && Run(s, steps, t) && t.closeFinished
    requires forall i :: 0 <= i < |steps| && IsAttempt(steps[i]) ==> steps[i].ds.outcome != Success
    ensures ZoneOf(t, z).shelf.dropped == ZoneOf(t, z).shelf.admitted - PersistedSoon(ZoneOf(s, z))
  {
    InvRun(s, steps, t);
    RefusedRunPersistsNothing(s, steps, t);
  }

  // ------------------------------------------------------------ CloseContext

  /** Every entry of the zone's history is in a chunk the cluster accepted, and reads back unless deleted. */
  ghost predicate ZoneDurable(z: ZoneState) {
    && z.shelf.buffer == [] && z.job.NoJob?
    && z.history == Entries(z.settled)
    && (forall i :: 0 <= i < |z.settled| ==> z.settled[i].ok)
    && (forall k :: k !in z.deleted ==> Lookup(z.cluster, k) == Lookup(PutAll(z.base, z.history), k))
  }

  lemma ZoneDrainedDurable(z: ZoneState)
    requires ZoneInv(z) && z.job.NoJob? && z.shelf.buffer == [] && z.shelf.dropped == 0
    ensures ZoneDurable(z)
    ensures z.shelf.admitted == z.shelf.persisted
  {
    NothingDropped(z.settled);
    assert z.history == Entries(z.settled);
    forall k | k !in z.deleted
      ensures Lookup(z.cluster, k) == Lookup(PutAll(z.base, z.history), k)
    {
      assert !Unsure(z, k);
    }
  }

  /** Once closeFinished is closed nothing is buffered or in flight, for good. */
  lemma CloseFinishedMeansDrained(t: State, z: Zone)
    requires Reachable(t) && t.closeFinished
    ensures Remaining(t) == 0
    ensures var s := ZoneOf(t, z).shelf; s.admitted == s.persisted + s.dropped
  {
    ReachableInv(t);
  }

  /**
    What CloseContext's nil means.  It returns nil after closeFinished exactly
    when no push was refused and every accepted chunk reached the cluster.
  */
  lemma NilVerdict(t: State)
    requires Reachable(t) && t.closeFinished
    ensures Remaining(t) == 0 && Lost(t) == 0 <==>
              && (forall c :: 0 <= c < |t.calls| ==> !t.calls[c].fate.Rejected?)
              && ZoneDurable(t.records) && ZoneDurable(t.links)
  {
    ReachableInv(t);
    if Lost(t) == 0 {
      ZoneDrainedDurable(t.records);
      ZoneDrainedDurable(t.links);
      forall c | 0 <= c < |t.calls| ensures !t.calls[c].fate.Rejected? {
        assert CallMatches(t, c);
      }
    }
    if ZoneDurable(t.records) { AllOkDropsNothing(t.records.settled); }
    if ZoneDurable(t.links) { AllOkDropsNothing(t.links.settled); }
    if forall c :: 0 <= c < |t.calls| ==> !t.calls[c].fate.Rejected? {
      forall z ensures ZoneOf(t, z).rejectedBy == [] {
        RefusalIsRecorded(t, z);
      }
      assert ZoneOf(t, Records).rejectedBy == [] && ZoneOf(t, Backlinks).rejectedBy == [];
    }
  }

  lemma RefusalIsRecorded(t: State, z: Zone)
    requires Inv(t)
    ensures ZoneOf(t, z).rejectedBy == [] || exists c :: 0 <= c < |t.calls| && t.calls[c].fate.Rejected?
  {
    assert LedgerMatches(t, z);
    var refused := ZoneOf(t, z).rejectedBy;
    if refused != [] {
      assert t.calls[refused[0]].fate == Rejected(0);
    }
  }

  lemma {:induction false} AllOkDropsNothing(cs: seq<Chunk>)
    requires forall i :: 0 <= i < |cs| ==> cs[i].ok
    ensures CountSettled(cs, false) == 0
  {
    if cs != [] { AllOkDropsNothing(cs[..|cs| - 1]); }
  }

  lemma NilIsDurable(t: State)
    requires Inv(t) && t.nilReturned
    ensures ZoneDurable(t.records) && ZoneDurable(t.links)
    ensures t.records.shelf.dropped == 0 && t.links.shelf.dropped == 0
  {
    ZoneDrainedDurable(t.records);
    ZoneDrainedDurable(t.links);
  }

  /** A nil result stays true: in every later state all that was ever admitted is durable. */
  lemma NilIsLasting(s: State, steps: seq<Step>, t: State)
    requires Reachable(s) && s.nilReturned && Run(s, steps, t)
    ensures ZoneDurable(t.records) && ZoneDurable(t.links)
    ensures t.records.history == s.records.history && t.links.history == s.links.history
  {
    ReachableInv(s);
    ClosedRunAdmitsNothing(s, steps, t);
    InvRun(s, steps, t);
    NilIsDurable(t);
  }

  lemma ClosedStepAdmitsNothing(s: State, step: Step)
    requires s.closed && Enabled(s, step)
    ensures var t := Next(s, step);
            t.closed && t.records.history == s.records.history && t.links.history == s.links.history
            && (s.nilReturned ==> t.nilReturned)
  {
    hide DoProduce, DoFlush, DoShutdown, Drain, DrainEnabled;
    match step {
      case Drains(z, d) => DrainFrame(ZoneOf(s, z), d, s.signals);
      case Produce(p, ps) => ClosedProduceAdmitsNothing(s, p, ps);
      case Flush(fs) => FlushAdmitsNothing(s, fs);
      case Shutdown(ss) => ShutdownAdmitsNothing(s, ss);
      case DeleteKey(_) =>
    }
  }

  lemma FlushAdmitsNothing(s: State, fs: FlusherStep)
    requires Enabled(s, Flush(fs))
    ensures var t := DoFlush(s, fs);
            t.closed == s.closed && t.records.history == s.records.history && t.links.history == s.links.history
            && t.nilReturned == s.nilReturned
            && (t.producers == s.producers || t.producers == WakeAll(s.producers))
  {
    hide WakeAll;
  }

  lemma ShutdownAdmitsNothing(s: State, ss: ShutdownStep)
    requires Enabled(s, Shutdown(ss))
    ensures var t := DoShutdown(s, ss);
            (s.closed ==> t.closed) && t.records.history == s.records.history && t.links.history == s.links.history
            && (s.nilReturned ==> t.nilReturned)
            && (t.producers == s.producers || t.producers == WakeAll(s.producers))
  {
    hide WakeAll, Remaining, Lost;
  }

  lemma ClosedProduceAdmitsNothing(s: State, p: nat, ps: ProducerStep)
    requires s.closed && Enabled(s, Produce(p, ps))
    ensures var t := DoProduce(s, p, ps);
            t.closed && t.records.history == s.records.history && t.links.history == s.links.history
            && t.nilReturned == s.nilReturned
  {
    hide Buffered;
    match ps {
      case EnterPush(_, _) =>
      case Send =>
      case PushLock => assert DoPushLock(s, p) == DoRefuse(s, p);
    }
    hide DoAdmit, DoPushLock;
  }

  /** A closed store admits nothing more. */
  lemma {:induction false} ClosedRunAdmitsNothing(s: State, steps: seq<Step>, t: State)
    requires s.closed && Run(s, steps, t)
    ensures t.closed && t.records.history == s.records.history && t.links.history == s.links.history
    ensures s.nilReturned ==> t.nilReturned
    decreases |steps|
  {
    if steps != [] {
      ClosedStepAdmitsNothing(s, steps[0]);
      ClosedRunAdmitsNothing(Next(s, steps[0]), steps[1..], t);
    }
  }
}
