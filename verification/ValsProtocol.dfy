/**
  The store as a transition system.  One step is one critical section of s.mu,
  one channel operation, one PutBatch return, or one move of the environment
  (a timer, the ticker, the deadline).  Any number of producers, one flusher
  with two zone drains, and any number of shutdown callers interleave freely.
*/
module ValsProtocol {
  import opened Common
  import opened ValsModel

  // -------------------------------------------------------------------- state

  /** Where a producer goroutine stands inside push. */
  datatype Producer =
    | Idle
    | Entering(zone: Zone, kv: KV, call: nat)   // about to hold s.mu
    | Waiting(zone: Zone, kv: KV, call: nat)    // in s.drain's wait set
    | Sending                                   // unlocked, about to send on flushNow

  /** What became of one push call: its place in the zone's history or refusals. */
  datatype Fate = Pending | Admitted(index: nat) | Rejected(index: nat)

  datatype PushCall = PushCall(producer: nat, zone: Zone, kv: KV, fate: Fate)

  /** flushLoop: at its select, about to flush, inside flush, or returned. */
  datatype Flusher = Selecting | Taking(last: bool) | Draining(last: bool) | Exited

  datatype State = State(
    records: ZoneState,
    links: ZoneState,
    closed: bool,            // s.closed; close(s.done) is in the same critical section
    signals: Signals,
    token: bool,             // flushNow holds a token
    flusher: Flusher,
    closeFinished: bool,
    nilReturned: bool,       // some CloseContext call returned nil
    producers: map<nat, Producer>,
    calls: seq<PushCall>)

  function Init(records: Cluster, links: Cluster): State {
    State(FreshZone(records), FreshZone(links), false, Signals(false, false, false),
          false, Selecting, false, false, map[], [])
  }

  function ZoneOf(s: State, z: Zone): ZoneState {
    if z == Records then s.records else s.links
  }

  function WithZone(s: State, z: Zone, v: ZoneState): State {
    if z == Records then s.(records := v) else s.(links := v)
  }

  function Buffered(s: State): nat {
    |s.records.shelf.buffer| + |s.links.shelf.buffer|
  }

  function At(s: State, p: nat): Producer {
    if p in s.producers then s.producers[p] else Idle
  }

  // -------------------------------------------------------------------- steps

  datatype ProducerStep =
    | EnterPush(zone: Zone, kv: KV)
    | PushLock
    | Send

  datatype FlusherStep = Tick | RecvToken | RecvDone | Take | Join

  datatype ShutdownStep =
    | InstallCtx      // BeginShutdown, under s.mu
    | CloseWake       // BeginShutdown, shutdownOnce
    | Expire          // the deadline passes
    | CloseLock       // CloseContext, under s.mu
    | CloserDone      // flushedWg.Wait returned; close(s.closeFinished)
    | CloseReturn     // CloseContext saw closeFinished and reads Stats

  datatype Step =
    | Produce(p: nat, ps: ProducerStep)
    | Flush(fs: FlusherStep)
    | Drains(zone: Zone, ds: DrainStep)
    | Shutdown(ss: ShutdownStep)
    | DeleteKey(key: Bytes)   // QueueRecordDelete, straight to the records zone

  function SetProducer(s: State, p: nat, v: Producer): State {
    s.(producers := s.producers[p := v])
  }

  function DoEnter(s: State, p: nat, z: Zone, kv: KV): State {
    s.(producers := s.producers[p := Entering(z, kv, |s.calls|)],
       calls := s.calls + [PushCall(p, z, kv, Pending)])
  }

  /** push on a closed store: count the refusal and return. */
  function DoRefuse(s: State, p: nat): State
    requires At(s, p).Entering? && At(s, p).call < |s.calls|
  {
    var e := At(s, p);
    var zs := ZoneOf(s, e.zone);
    var call := s.calls[e.call].(fate := Rejected(|zs.rejectedBy|));
    WithZone(s, e.zone, ZoneReject(zs, e.call))
      .(producers := s.producers[p := Idle], calls := s.calls[e.call := call])
  }

  /** push with room: append, count, and see whether the flush size is reached. */
  function DoAdmit(s: State, p: nat): State
    requires At(s, p).Entering? && At(s, p).call < |s.calls|
  {
    var e := At(s, p);
    var zs := ZoneOf(s, e.zone);
    var call := s.calls[e.call].(fate := Admitted(|zs.admittedBy|));
    var full := Buffered(s) + 1 >= FLUSH_SIZE;
    WithZone(s, e.zone, ZoneAdmit(zs, e.kv, e.call))
      .(producers := s.producers[p := if full then Sending else Idle], calls := s.calls[e.call := call])
  }

  /** The critical section of push, entered for the first time or after a wakeup. */
  function DoPushLock(s: State, p: nat): State
    requires At(s, p).Entering? && At(s, p).call < |s.calls|
  {
    var e := At(s, p);
    if !s.closed && Buffered(s) >= BUFFER_CAP then SetProducer(s, p, Waiting(e.zone, e.kv, e.call))
    else if s.closed then DoRefuse(s, p)
    else DoAdmit(s, p)
  }

  /** s.drain.Broadcast: every waiter goes back to contend for s.mu. */
  function WakeAll(m: map<nat, Producer>): map<nat, Producer> {
    map p | p in m :: if m[p].Waiting? then Entering(m[p].zone, m[p].kv, m[p].call) else m[p]
  }

  function DoTake(s: State): State
    requires s.flusher.Taking?
  {
    s.(records := ZoneTake(s.records),
       links := ZoneTake(s.links),
       flusher := Draining(s.flusher.last),
       producers := WakeAll(s.producers))
  }

  function DoJoin(s: State): State
    requires s.flusher.Draining?
  {
    s.(records := ZoneJoin(s.records),
       links := ZoneJoin(s.links),
       flusher := if s.flusher.last then Exited else Selecting)
  }

  /** Stats summed the way CloseContext sums them. */
  function Remaining(s: State): nat {
    Buffered(s) + s.records.shelf.inflight + s.links.shelf.inflight
  }

  function Lost(s: State): nat {
    s.records.shelf.dropped + s.links.shelf.dropped + s.records.shelf.rejected + s.links.shelf.rejected
  }

  ghost predicate Enabled(s: State, step: Step) {
    match step
    case Produce(p, EnterPush(_, _)) => At(s, p) == Idle
    case Produce(p, PushLock) => At(s, p).Entering? && At(s, p).call < |s.calls|
    case Produce(p, Send) => At(s, p) == Sending
    case Flush(Tick) => s.flusher == Selecting
    case Flush(RecvToken) => s.flusher == Selecting && s.token
    case Flush(RecvDone) => s.flusher == Selecting && s.closed
    case Flush(Take) => s.flusher.Taking?
    case Flush(Join) => s.flusher.Draining? && Finished(s.records.job) && Finished(s.links.job)
    case Drains(z, d) => DrainEnabled(ZoneOf(s, z), d, s.signals)
    case Shutdown(InstallCtx) => true
    case Shutdown(CloseWake) => s.signals.ctxInstalled
    case Shutdown(Expire) => true
    case Shutdown(CloseLock) => s.signals.wakeClosed
    case Shutdown(CloserDone) => s.closed && s.flusher == Exited
    case Shutdown(CloseReturn) => s.closeFinished
    case DeleteKey(_) => true
  }

  function DoProduce(s: State, p: nat, ps: ProducerStep): State
    requires Enabled(s, Produce(p, ps))
  {
    match ps
    case EnterPush(z, kv) => DoEnter(s, p, z, kv)
    case PushLock => DoPushLock(s, p)
    case Send => SetProducer(s, p, Idle).(token := true)
  }

  function DoFlush(s: State, fs: FlusherStep): State
    requires Enabled(s, Flush(fs))
  {
    match fs
    case Tick => s.(flusher := Taking(false))
    case RecvToken => s.(flusher := Taking(false), token := false)
    case RecvDone => s.(flusher := Taking(true))
    case Take => DoTake(s)
    case Join => DoJoin(s)
  }

  function DoShutdown(s: State, ss: ShutdownStep): State
    requires Enabled(s, Shutdown(ss))
  {
    match ss
    case InstallCtx => s.(signals := s.signals.(ctxInstalled := true))
    case CloseWake => s.(signals := s.signals.(wakeClosed := true))
    case Expire => s.(signals := s.signals.(expired := true))
    case CloseLock => if s.closed then s else s.(closed := true, producers := WakeAll(s.producers))
    case CloserDone => s.(closeFinished := true)
    case CloseReturn => s.(nilReturned := s.nilReturned || (Remaining(s) == 0 && Lost(s) == 0))
  }

  function Next(s: State, step: Step): State
    requires Enabled(s, step)
  {
    match step
    case Produce(p, ps) => DoProduce(s, p, ps)
    case Flush(fs) => DoFlush(s, fs)
    case Drains(z, d) => WithZone(s, z, Drain(ZoneOf(s, z), d, s.signals))
    case Shutdown(ss) => DoShutdown(s, ss)
    case DeleteKey(k) => s.(records := ZoneDelete(s.records, k))
  }

  /** t is reached from s by performing the steps in order. */
  ghost predicate Run(s: State, steps: seq<Step>, t: State)
    decreases |steps|
  {
    if steps == [] then t == s
    else Enabled(s, steps[0]) && Run(Next(s, steps[0]), steps[1..], t)
  }

  // ---------------------------------------------------------------- invariants

  ghost predicate ZonesInv(s: State) {
    ZoneInv(s.records) && ZoneInv(s.links)
  }

  /** Jobs exist exactly while flush runs; buffers and jobs respect the cap. */
  predicate Bounded(s: State) {
    && (s.flusher.Draining? ==> s.records.job.Job? && s.links.job.Job?)
    && (!s.flusher.Draining? ==> s.records.job.NoJob? && s.links.job.NoJob?)
    && Buffered(s) <= BUFFER_CAP
    && (s.flusher.Draining? ==> |s.records.job.taken| + |s.links.job.taken| <= BUFFER_CAP)
  }

  /** A drain listens to the deadline only once there is one, and is woken only by shutdown. */
  predicate PcMatches(s: State, z: ZoneState) {
    z.job.Job? ==>
      && (z.job.pc == SleepDeadline ==> s.signals.ctxInstalled)
      && (z.job.pc == Recheck ==> s.signals.wakeClosed)
  }

  predicate ShutdownOrder(s: State) {
    && (s.signals.wakeClosed ==> s.signals.ctxInstalled)
    && (s.closed ==> s.signals.wakeClosed)
    && (s.flusher == Taking(true) || s.flusher == Draining(true) || s.flusher == Exited ==> s.closed)
    && (s.flusher == Draining(true) || s.flusher == Exited ==> Buffered(s) == 0)
    && (s.closeFinished ==> s.flusher == Exited)
    && PcMatches(s, s.records) && PcMatches(s, s.links)
  }

  /** No lost wakeup: a waiter has a full buffer ahead of it, and a full buffer has been announced. */
  ghost predicate Announced(s: State) {
    && (forall p :: At(s, p).Waiting? ==> !s.closed && Buffered(s) == BUFFER_CAP)
    && (Buffered(s) >= FLUSH_SIZE ==> s.token || s.flusher.Taking? || exists p :: At(s, p) == Sending)
  }

  predicate CallMatches(s: State, t: nat)
    requires t < |s.calls|
  {
    var c := s.calls[t];
    match c.fate
    case Pending => At(s, c.producer) == Entering(c.zone, c.kv, t) || At(s, c.producer) == Waiting(c.zone, c.kv, t)
    case Admitted(i) => i < |ZoneOf(s, c.zone).admittedBy| && ZoneOf(s, c.zone).admittedBy[i] == t
    case Rejected(i) => i < |ZoneOf(s, c.zone).rejectedBy| && ZoneOf(s, c.zone).rejectedBy[i] == t
  }

  predicate LedgerMatches(s: State, z: Zone) {
    var zs := ZoneOf(s, z);
    && |zs.admittedBy| == |zs.history|
    && (forall i :: 0 <= i < |zs.admittedBy| ==>
          && zs.admittedBy[i] < |s.calls|
          && s.calls[zs.admittedBy[i]].zone == z
          && s.calls[zs.admittedBy[i]].kv == zs.history[i]
          && s.calls[zs.admittedBy[i]].fate == Admitted(i))
    && (forall i :: 0 <= i < |zs.rejectedBy| ==>
          && zs.rejectedBy[i] < |s.calls|
          && s.calls[zs.rejectedBy[i]].zone == z
          && s.calls[zs.rejectedBy[i]].fate == Rejected(i))
  }

  ghost predicate CallsMatch(s: State) {
    forall t :: 0 <= t < |s.calls| ==> CallMatches(s, t)
  }

  ghost predicate ProducersMatch(s: State) {
    forall p :: At(s, p).Entering? || At(s, p).Waiting? ==>
      At(s, p).call < |s.calls| && s.calls[At(s, p).call] == PushCall(p, At(s, p).zone, At(s, p).kv, Pending)
  }

  /** Calls, histories and refusals are in one-to-one correspondence; nobody else is inside push. */
  ghost predicate CallsInv(s: State) {
    && CallsMatch(s)
    && LedgerMatches(s, Records) && LedgerMatches(s, Backlinks)
    && ProducersMatch(s)
    && (s.records.rejectedBy != [] || s.links.rejectedBy != [] ==> s.closed)
  }

  predicate NilInv(s: State) {
    s.nilReturned ==> s.closeFinished && s.records.shelf.dropped == 0 && s.links.shelf.dropped == 0
  }

  ghost predicate Inv(s: State) {
    ZonesInv(s) && Bounded(s) && ShutdownOrder(s) && Announced(s) && CallsInv(s) && NilInv(s)
  }

  // ------------------------------------------------------------- preservation

  lemma InitInv(records: Cluster, links: Cluster)
    ensures Inv(Init(records, links))
  {
    hide ZoneInv;
    FreshZoneInv(records);
    FreshZoneInv(links);
  }

  lemma ZonesProduce(s: State, p: nat, ps: ProducerStep)
    requires ZonesInv(s) && Enabled(s, Produce(p, ps))
    ensures ZonesInv(DoProduce(s, p, ps))
  {
    hide ZoneInv;
    if ps.PushLock? {
      var e := At(s, p);
      ZoneAdmitKeeps(ZoneOf(s, e.zone), e.kv, e.call);
      ZoneRejectKeeps(ZoneOf(s, e.zone), e.call);
    }
  }

  lemma ZonesFlush(s: State, fs: FlusherStep)
    requires ZonesInv(s) && Bounded(s) && Enabled(s, Flush(fs))
    ensures ZonesInv(DoFlush(s, fs))
  {
    hide ZoneInv;
    if fs.Take? {
      ZoneTakeKeeps(s.records);
      ZoneTakeKeeps(s.links);
    } else if fs.Join? {
      ZoneJoinKeeps(s.records);
      ZoneJoinKeeps(s.links);
    }
  }

  lemma ZonesDrain(s: State, z: Zone, d: DrainStep)
    requires ZonesInv(s) && Bounded(s) && Enabled(s, Drains(z, d))
    ensures ZonesInv(Next(s, Drains(z, d)))
  {
    hide ZoneInv, Drain;
    DrainKeeps(ZoneOf(s, z), d, s.signals);
  }

  lemma ZonesInvStep(s: State, step: Step)
    requires ZonesInv(s) && Bounded(s) && Enabled(s, step)
    ensures ZonesInv(Next(s, step))
  {
    match step {
      case Produce(p, ps) => ZonesProduce(s, p, ps);
      case Flush(fs) => ZonesFlush(s, fs);
      case Drains(z, d) => ZonesDrain(s, z, d);
      case DeleteKey(k) => ZoneDeleteKeeps(s.records, k);
      case Shutdown(_) =>
    }
  }

  /** Everything but the zones and the calls. */
  ghost predicate Control(s: State) {
    Bounded(s) && ShutdownOrder(s) && Announced(s) && NilInv(s)
  }

  lemma ControlAdmit(s: State, p: nat)
    requires Control(s) && Enabled(s, Produce(p, PushLock)) && !s.closed && Buffered(s) < BUFFER_CAP
    ensures Control(DoAdmit(s, p))
  {
    var t := DoAdmit(s, p);
    forall q: nat | q != p ensures At(t, q) == At(s, q) {}
    assert Buffered(t) >= FLUSH_SIZE ==> At(t, p) == Sending;
  }

  lemma ControlProduce(s: State, p: nat, ps: ProducerStep)
    requires Control(s) && Enabled(s, Produce(p, ps))
    ensures Control(DoProduce(s, p, ps))
  {
    if ps.PushLock? && !s.closed && Buffered(s) < BUFFER_CAP {
      ControlAdmit(s, p);
    } else {
      ProducerMoves(s, p, ps);
      hide DoProduce;
      ControlMoved(s, p, ps.Send?, DoProduce(s, p, ps));
    }
  }

  /** A producer step that admits nothing changes that producer, the counters and the token only. */
  ghost predicate MovedOnly(s: State, p: nat, sends: bool, t: State) {
    && t.closed == s.closed && t.signals == s.signals && t.flusher == s.flusher
    && t.closeFinished == s.closeFinished && t.nilReturned == s.nilReturned
    && t.token == (s.token || sends)
    && t.records.job == s.records.job && t.links.job == s.links.job
    && t.records.shelf.buffer == s.records.shelf.buffer && t.links.shelf.buffer == s.links.shelf.buffer
    && t.records.shelf.dropped == s.records.shelf.dropped && t.links.shelf.dropped == s.links.shelf.dropped
    && (forall q: nat :: q != p ==> At(t, q) == At(s, q))
    && (At(s, p) == Sending ==> sends)
    && (At(t, p).Waiting? ==> !s.closed && Buffered(s) >= BUFFER_CAP)
  }

  lemma ProducerMoves(s: State, p: nat, ps: ProducerStep)
    requires Enabled(s, Produce(p, ps)) && !(ps.PushLock? && !s.closed && Buffered(s) < BUFFER_CAP)
    ensures MovedOnly(s, p, ps.Send?, DoProduce(s, p, ps))
  {
    match ps {
      case EnterPush(_, _) =>
      case Send =>
      case PushLock =>
        if s.closed {
          RefuseMoves(s, p);
        } else {
          assert DoPushLock(s, p) == SetProducer(s, p, Waiting(At(s, p).zone, At(s, p).kv, At(s, p).call));
        }
    }
    hide DoPushLock;
  }

  lemma RefuseMoves(s: State, p: nat)
    requires s.closed && At(s, p).Entering? && At(s, p).call < |s.calls|
    ensures DoPushLock(s, p) == DoRefuse(s, p)
    ensures MovedOnly(s, p, false, DoRefuse(s, p))
  {
    hide Buffered;
  }

  lemma ControlMoved(s: State, p: nat, sends: bool, t: State)
    requires Control(s) && MovedOnly(s, p, sends, t)
    ensures Control(t)
  {
    if Buffered(s) >= FLUSH_SIZE && !s.token && !s.flusher.Taking? {
      var q :| At(s, q) == Sending;
      assert sends || At(t, q) == Sending;
    }
  }

  lemma ControlFlush(s: State, fs: FlusherStep)
    requires Control(s) && Enabled(s, Flush(fs))
    ensures Control(DoFlush(s, fs))
  {
    var t := DoFlush(s, fs);
    WakeAllAt(s, t);
  }

  lemma WakeAllAt(s: State, t: State)
    requires t.producers == s.producers || t.producers == WakeAll(s.producers)
    ensures forall p :: At(t, p) == Sending <==> At(s, p) == Sending
    ensures t.producers == WakeAll(s.producers) ==> forall p :: !At(t, p).Waiting?
    ensures t.producers == s.producers ==> forall p :: At(t, p) == At(s, p)
  {
  }

  lemma ControlDrain(s: State, z: Zone, d: DrainStep)
    requires Control(s) && Enabled(s, Drains(z, d))
    ensures Control(Next(s, Drains(z, d)))
  {
    DrainFrame(ZoneOf(s, z), d, s.signals);
    WakeAllAt(s, Next(s, Drains(z, d)));
  }

  lemma ControlShutdown(s: State, ss: ShutdownStep)
    requires Control(s) && Enabled(s, Shutdown(ss))
    ensures Control(DoShutdown(s, ss))
  {
    WakeAllAt(s, DoShutdown(s, ss));
  }

  lemma ControlStep(s: State, step: Step)
    requires Control(s) && Enabled(s, step)
    ensures Control(Next(s, step))
  {
    match step {
      case Produce(p, ps) => ControlProduce(s, p, ps);
      case Flush(fs) => ControlFlush(s, fs);
      case Drains(z, d) => ControlDrain(s, z, d);
      case Shutdown(ss) => ControlShutdown(s, ss);
      case DeleteKey(k) => WakeAllAt(s, Next(s, step));
    }
  }

  lemma CallsInvStep(s: State, step: Step)
    requires CallsInv(s) && Enabled(s, step)
    ensures CallsInv(Next(s, step))
  {
    match step {
      case Produce(p, EnterPush(z, kv)) => EnterKeepsCalls(s, p, z, kv);
      case Produce(p, PushLock) => PushLockKeepsCalls(s, p);
      case _ => QuietStep(s, step);
    }
  }

  /** No other step touches the calls, the ledgers, the histories or the refusals. */
  lemma QuietStep(s: State, step: Step)
    requires CallsInv(s) && Enabled(s, step)
    requires step.Produce? ==> step.ps.Send?
    ensures CallsInv(Next(s, step))
  {
    QuietFrame(s, step);
    SameCalls(s, Next(s, step));
  }

  ghost predicate Quiet(s: State, t: State) {
    && t.calls == s.calls && SameLedger(s.records, t.records) && SameLedger(s.links, t.links)
    && (s.closed ==> t.closed) && ProducersQuiet(s, t)
  }

  lemma QuietFlush(s: State, fs: FlusherStep)
    requires Enabled(s, Flush(fs))
    ensures Quiet(s, DoFlush(s, fs))
  {
  }

  lemma QuietShutdown(s: State, ss: ShutdownStep)
    requires Enabled(s, Shutdown(ss))
    ensures Quiet(s, DoShutdown(s, ss))
  {
  }

  lemma QuietDrain(s: State, z: Zone, d: DrainStep)
    requires Enabled(s, Drains(z, d))
    ensures Quiet(s, Next(s, Drains(z, d)))
  {
    DrainFrame(ZoneOf(s, z), d, s.signals);
  }

  lemma QuietFrame(s: State, step: Step)
    requires Enabled(s, step)
    requires step.Produce? ==> step.ps.Send?
    ensures Quiet(s, Next(s, step))
  {
    match step {
      case Produce(p, _) => assert At(s, p) == Sending;
      case Flush(fs) => QuietFlush(s, fs);
      case Shutdown(ss) => QuietShutdown(s, ss);
      case Drains(z, d) => QuietDrain(s, z, d);
      case DeleteKey(_) =>
    }
  }

  lemma EnterKeepsCalls(s: State, p: nat, z: Zone, kv: KV)
    requires CallsInv(s) && At(s, p) == Idle
    ensures CallsInv(DoEnter(s, p, z, kv))
  {
    var t := DoEnter(s, p, z, kv);
    forall q: nat | q != p ensures At(t, q) == At(s, q) {}
    forall i | 0 <= i < |t.calls|
      ensures CallMatches(t, i)
    {
      if i < |s.calls| { assert CallMatches(s, i); }
    }
  }

  /** t differs from s by one pending call being decided and its producer moving on. */
  ghost predicate Decides(s: State, p: nat, t: State) {
    var e := At(s, p);
    && e.Entering? && e.call < |s.calls|
    && s.calls[e.call] == PushCall(p, e.zone, e.kv, Pending)
    && |t.calls| == |s.calls|
    && (forall i :: 0 <= i < |s.calls| && i != e.call ==> t.calls[i] == s.calls[i])
    && (forall q: nat :: q != p ==> At(t, q) == At(s, q))
    && !At(t, p).Entering? && !At(t, p).Waiting?
  }

  lemma AdmitDecides(s: State, p: nat)
    requires ProducersMatch(s) && At(s, p).Entering?
    ensures Decides(s, p, DoAdmit(s, p))
    ensures Decides(s, p, DoRefuse(s, p))
  {
  }

  lemma DecidesKeepsProducers(s: State, p: nat, t: State)
    requires ProducersMatch(s) && Decides(s, p, t)
    ensures ProducersMatch(t)
  {
    forall q | At(t, q).Entering? || At(t, q).Waiting?
      ensures At(t, q).call < |t.calls| && t.calls[At(t, q).call] == PushCall(q, At(t, q).zone, At(t, q).kv, Pending)
    {
      assert At(t, q) == At(s, q);
    }
  }

  /** The other calls keep their places: ledgers only grow. */
  lemma DecidesKeepsCalls(s: State, p: nat, t: State)
    requires CallsMatch(s) && Decides(s, p, t) && CallMatches(t, At(s, p).call)
    requires forall z :: ZoneOf(s, z).admittedBy <= ZoneOf(t, z).admittedBy
    requires forall z :: ZoneOf(s, z).rejectedBy <= ZoneOf(t, z).rejectedBy
    ensures CallsMatch(t)
  {
    forall i | 0 <= i < |t.calls| ensures CallMatches(t, i) {
      assert CallMatches(s, i);
    }
  }

  /** How deciding p's call may change zone z's ledger. */
  predicate LedgerGrows(s: State, p: nat, t: State, z: Zone)
    requires At(s, p).Entering? && At(s, p).call < |s.calls| == |t.calls|
  {
    var e, a, b := At(s, p), ZoneOf(s, z), ZoneOf(t, z);
    || SameLedger(a, b)
    || (&& SameLedger(a.(history := a.history + [e.kv], admittedBy := a.admittedBy + [e.call]), b)
        && t.calls[e.call] == PushCall(p, z, e.kv, Admitted(|a.admittedBy|)))
    || (&& SameLedger(a.(rejectedBy := a.rejectedBy + [e.call]), b)
        && t.calls[e.call] == PushCall(p, z, e.kv, Rejected(|a.rejectedBy|)))
  }

  lemma DecidesKeepsLedger(s: State, p: nat, t: State, z: Zone)
    requires LedgerMatches(s, z) && Decides(s, p, t) && LedgerGrows(s, p, t, z)
    ensures LedgerMatches(t, z)
  {
    var e, a, b := At(s, p), ZoneOf(s, z), ZoneOf(t, z);
    OldPlacesStay(s, p, t, z);
    hide At, ZoneOf;
    if !SameLedger(a, b) {
      assert t.calls[e.call].zone == z;
    }
  }

  /** Entries and refusals recorded before keep their calls. */
  lemma OldPlacesStay(s: State, p: nat, t: State, z: Zone)
    requires LedgerMatches(s, z) && Decides(s, p, t)
    ensures var a := ZoneOf(s, z);
            && |a.admittedBy| == |a.history|
            && (forall i :: 0 <= i < |a.admittedBy| ==>
                  a.admittedBy[i] < |t.calls| && t.calls[a.admittedBy[i]].zone == z
                  && t.calls[a.admittedBy[i]].kv == a.history[i] && t.calls[a.admittedBy[i]].fate == Admitted(i))
            && (forall i :: 0 <= i < |a.rejectedBy| ==>
                  a.rejectedBy[i] < |t.calls| && t.calls[a.rejectedBy[i]].zone == z
                  && t.calls[a.rejectedBy[i]].fate == Rejected(i))
  {
    hide At;
    forall i | 0 <= i < |ZoneOf(s, z).admittedBy| ensures ZoneOf(s, z).admittedBy[i] != At(s, p).call {}
    forall i | 0 <= i < |ZoneOf(s, z).rejectedBy| ensures ZoneOf(s, z).rejectedBy[i] != At(s, p).call {}
  }

  lemma AdmitGrows(s: State, p: nat, z: Zone)
    requires At(s, p).Entering? && At(s, p).call < |s.calls| && s.calls[At(s, p).call] == PushCall(p, At(s, p).zone, At(s, p).kv, Pending)
    ensures LedgerGrows(s, p, DoAdmit(s, p), z)
  {
    hide Buffered;
  }

  lemma RefuseGrows(s: State, p: nat, z: Zone)
    requires At(s, p).Entering? && At(s, p).call < |s.calls| && s.calls[At(s, p).call] == PushCall(p, At(s, p).zone, At(s, p).kv, Pending)
    ensures LedgerGrows(s, p, DoRefuse(s, p), z)
  {
    hide Buffered;
    if z == At(s, p).zone {
      assert ZoneOf(DoRefuse(s, p), z) == ZoneReject(ZoneOf(s, z), At(s, p).call);
    }
  }

  /** The admitted call has its place in the history. */
  lemma AdmitMatches(s: State, p: nat)
    requires At(s, p).Entering? && At(s, p).call < |s.calls| && s.calls[At(s, p).call] == PushCall(p, At(s, p).zone, At(s, p).kv, Pending)
    ensures CallMatches(DoAdmit(s, p), At(s, p).call)
    ensures DoAdmit(s, p).closed == s.closed
    ensures DoAdmit(s, p).records.rejectedBy == s.records.rejectedBy && DoAdmit(s, p).links.rejectedBy == s.links.rejectedBy
  {
    hide Buffered;
  }

  /** The refused call has its place among the refusals. */
  lemma RefuseMatches(s: State, p: nat)
    requires At(s, p).Entering? && At(s, p).call < |s.calls| && s.calls[At(s, p).call] == PushCall(p, At(s, p).zone, At(s, p).kv, Pending)
    ensures CallMatches(DoRefuse(s, p), At(s, p).call)
    ensures DoRefuse(s, p).closed == s.closed
  {
  }

  lemma GrowsIsPrefix(s: State, p: nat, t: State)
    requires At(s, p).Entering? && At(s, p).call < |s.calls| == |t.calls|
    requires LedgerGrows(s, p, t, Records) && LedgerGrows(s, p, t, Backlinks)
    ensures forall z :: ZoneOf(s, z).admittedBy <= ZoneOf(t, z).admittedBy
    ensures forall z :: ZoneOf(s, z).rejectedBy <= ZoneOf(t, z).rejectedBy
  {
  }

  lemma DecidesKeepsInv(s: State, p: nat, t: State)
    requires CallsInv(s) && Decides(s, p, t) && CallMatches(t, At(s, p).call)
    requires LedgerGrows(s, p, t, Records) && LedgerGrows(s, p, t, Backlinks)
    requires t.records.rejectedBy != [] || t.links.rejectedBy != [] ==> t.closed
    ensures CallsInv(t)
  {
    hide LedgerMatches, LedgerGrows, ProducersMatch, CallsMatch, CallMatches;
    GrowsIsPrefix(s, p, t);
    DecidesKeepsProducers(s, p, t);
    DecidesKeepsLedger(s, p, t, Records);
    DecidesKeepsLedger(s, p, t, Backlinks);
    DecidesKeepsCalls(s, p, t);
  }

  lemma AdmitKeepsCalls(s: State, p: nat)
    requires CallsInv(s) && At(s, p).Entering? && !s.closed
    ensures CallsInv(DoAdmit(s, p))
  {
    AdmitDecides(s, p);
    assert At(s, p).call < |s.calls| && s.calls[At(s, p).call] == PushCall(p, At(s, p).zone, At(s, p).kv, Pending);
    hide DoAdmit, LedgerMatches, LedgerGrows, ProducersMatch, CallsMatch, CallMatches;
    AdmitGrows(s, p, Records);
    AdmitGrows(s, p, Backlinks);
    AdmitMatches(s, p);
    DecidesKeepsInv(s, p, DoAdmit(s, p));
  }

  lemma RefuseKeepsCalls(s: State, p: nat)
    requires CallsInv(s) && At(s, p).Entering? && s.closed
    ensures CallsInv(DoRefuse(s, p))
  {
    AdmitDecides(s, p);
    assert At(s, p).call < |s.calls| && s.calls[At(s, p).call] == PushCall(p, At(s, p).zone, At(s, p).kv, Pending);
    hide DoRefuse, LedgerMatches, LedgerGrows, ProducersMatch, CallsMatch, CallMatches;
    RefuseGrows(s, p, Records);
    RefuseGrows(s, p, Backlinks);
    RefuseMatches(s, p);
    DecidesKeepsInv(s, p, DoRefuse(s, p));
  }

  lemma PushLockKeepsCalls(s: State, p: nat)
    requires CallsInv(s) && At(s, p).Entering?
    ensures CallsInv(DoPushLock(s, p))
  {
    if s.closed {
      RefuseKeepsCalls(s, p);
    } else if Buffered(s) < BUFFER_CAP {
      AdmitKeepsCalls(s, p);
    } else {
      var t := DoPushLock(s, p);
      forall q: nat | q != p ensures At(t, q) == At(s, q) {}
      forall i | 0 <= i < |t.calls| ensures CallMatches(t, i) {
        assert CallMatches(s, i);
      }
    }
  }

  predicate SameLedger(a: ZoneState, b: ZoneState) {
    a.history == b.history && a.admittedBy == b.admittedBy && a.rejectedBy == b.rejectedBy
  }

  ghost predicate ProducersQuiet(s: State, t: State) {
    || (exists p :: At(s, p) == Sending && t.producers == s.producers[p := Idle])
    || t.producers == WakeAll(s.producers)
    || t.producers == s.producers
  }

  /** A step that leaves calls, ledgers and histories alone, and moves producers only by a wakeup or a send. */
  lemma SameCalls(s: State, t: State)
    requires CallsInv(s)
    requires t.calls == s.calls
    requires ProducersQuiet(s, t)
    requires SameLedger(s.records, t.records)
    requires SameLedger(s.links, t.links)
    requires s.closed ==> t.closed
    ensures CallsInv(t)
  {
    forall p
      ensures At(t, p) == At(s, p)
              || (At(s, p) == Sending && At(t, p) == Idle)
              || (At(s, p).Waiting? && At(t, p) == Entering(At(s, p).zone, At(s, p).kv, At(s, p).call))
    {}
    forall i | 0 <= i < |t.calls|
      ensures CallMatches(t, i)
    {
      assert CallMatches(s, i);
    }
  }

  /** Every step keeps every invariant. */
  lemma InvStep(s: State, step: Step)
    requires Inv(s) && Enabled(s, step)
    ensures Inv(Next(s, step))
  {
    ZonesInvStep(s, step);
    ControlStep(s, step);
    CallsInvStep(s, step);
  }

  /** Every state of every interleaving satisfies the invariants. */
  lemma {:induction false} InvRun(s: State, steps: seq<Step>, t: State)
    requires Inv(s) && Run(s, steps, t)
    ensures Inv(t)
    decreases |steps|
  {
    if steps != [] {
      InvStep(s, steps[0]);
      InvRun(Next(s, steps[0]), steps[1..], t);
    }
  }
}
