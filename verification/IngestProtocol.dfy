/**
  The ingester over the store: callbacks pass an admission gate and push, and one
  shutdown call closes the gate, waits for active callbacks, drains the store and
  only then saves the cursor.  All three sink roles and the cursor store are the
  one vals store.  Every interleaving of both machines is a run.
*/
module IngestProtocol {
  import opened Common
  import opened ValsModel
  import V = ValsProtocol
  import T = ValsTheorems

  /** Where CloseContext stands. */
  datatype Closer =
    | NotClosing
    | Notifying        // admission stopped; the sinks' BeginShutdown still to return
    | StoppingBackfill
    | Quiescing        // in waitForActiveWork
    | Quiesced         // it returned nil
    | AwaitingDrain    // in the store's CloseContext
    | Saving           // the drain returned nil; in saveCursor
    | AwaitingPut      // SaveCursor started its Put
    | Returned(ok: bool)

  datatype State = State(
    vals: V.State,
    saver: bool,              // Run started the periodic cursorSaver
    admissionClosed: bool,
    active: set<nat>,         // callbacks counted by activeWork
    cursor: int,
    closer: Closer,
    putting: Option<int>,     // the cursor SaveCursor handed to its Put goroutine
    stored: Option<int>)      // the last cursor value this process made durable

  /** `loaded` is what loadCursor found, zero if nothing. */
  function Init(records: Cluster, links: Cluster, saver: bool, loaded: nat): State {
    State(V.Init(records, links), saver, false, {}, loaded, NotClosing, None, None)
  }

  datatype Step =
    | BeginWork(p: nat)
    | EndWork(p: nat)
    | SeeCommit(p: nat, seq_: int)            // handleCommit sets the cursor
    | Push(p: nat, zone: Zone, kv: KV)        // a callback enters push
    | Delete(p: nat, key: Bytes)              // a callback deletes directly
    | Store(step: V.Step)                     // the store moves on its own
    | StopAdmission                           // BeginShutdown, from main or CloseContext
    | CloseStart
    | SinksNotified
    | BackfillStopped(ok: bool)
    | WorkDone
    | WorkTimeout
    | CloseSink
    | DrainReturned(deadline: bool)
    | SaveSkipped
    | SaveStart
    | PutLands
    | SaveReturned(ok: bool)
    | PeriodicSave

  /** Store moves that no callback and no CloseContext call makes. */
  predicate Autonomous(step: V.Step) {
    match step
    case Produce(_, EnterPush(_, _)) => false
    case Shutdown(CloseLock) => false
    case Shutdown(CloseReturn) => false
    case DeleteKey(_) => false
    case _ => true
  }

  ghost predicate Enabled(s: State, step: Step) {
    match step
    case BeginWork(p) => p !in s.active
    case EndWork(p) => p in s.active && V.At(s.vals, p) == V.Idle
    case SeeCommit(p, _) => p in s.active
    case Push(p, z, kv) => p in s.active && V.Enabled(s.vals, V.Produce(p, V.EnterPush(z, kv)))
    case Delete(p, k) => p in s.active
    case Store(v) => Autonomous(v) && V.Enabled(s.vals, v)
    case StopAdmission => true
    case CloseStart => s.closer == NotClosing || s.closer.Returned?
    case SinksNotified => s.closer == Notifying && s.vals.signals.wakeClosed
    case BackfillStopped(_) => s.closer == StoppingBackfill
    case WorkDone => s.closer == Quiescing && s.active == {}
    case WorkTimeout => s.closer == Quiescing
    case CloseSink => s.closer == Quiesced && V.Enabled(s.vals, V.Shutdown(V.CloseLock))
    case DrainReturned(deadline) => s.closer == AwaitingDrain && (deadline || s.vals.closeFinished)
    case SaveSkipped => s.closer == Saving && s.cursor == 0
    case SaveStart => s.closer == Saving && s.cursor != 0
    case PutLands => s.putting.Some?
    case SaveReturned(ok) => s.closer == AwaitingPut && (ok ==> s.stored == s.putting)
    case PeriodicSave => s.saver && s.cursor > 0
  }

  function Next(s: State, step: Step): State
    requires Enabled(s, step)
  {
    match step
    case BeginWork(p) => if s.admissionClosed then s else s.(active := s.active + {p})
    case EndWork(p) => s.(active := s.active - {p})
    case SeeCommit(_, q) => s.(cursor := q)
    case Push(p, z, kv) => s.(vals := V.Next(s.vals, V.Produce(p, V.EnterPush(z, kv))))
    case Delete(_, k) => s.(vals := V.Next(s.vals, V.DeleteKey(k)))
    case Store(v) => s.(vals := V.Next(s.vals, v))
    case StopAdmission => s.(admissionClosed := true)
    case CloseStart => s.(admissionClosed := true, closer := Notifying)
    case SinksNotified => s.(closer := StoppingBackfill)
    case BackfillStopped(ok) => s.(closer := if ok then Quiescing else Returned(false))
    case WorkDone => s.(closer := Quiesced)
    case WorkTimeout => s.(closer := Returned(false))
    case CloseSink => s.(vals := V.Next(s.vals, V.Shutdown(V.CloseLock)), closer := AwaitingDrain)
    case DrainReturned(deadline) =>
      if deadline then s.(closer := Returned(false))
      else
        var nil := V.Remaining(s.vals) == 0 && V.Lost(s.vals) == 0;
        s.(vals := V.Next(s.vals, V.Shutdown(V.CloseReturn)), closer := if nil then Saving else Returned(false))
    case SaveSkipped => s.(closer := Returned(true))
    case SaveStart => s.(putting := Some(s.cursor), closer := AwaitingPut)
    case PutLands => s.(stored := s.putting)
    case SaveReturned(ok) => s.(closer := Returned(ok))
    case PeriodicSave => s.(stored := Some(s.cursor))
  }

  ghost predicate Run(s: State, steps: seq<Step>, t: State)
    decreases |steps|
  {
    if steps == [] then t == s
    else Enabled(s, steps[0]) && Run(Next(s, steps[0]), steps[1..], t)
  }

  ghost predicate Reachable(saver: bool, t: State) {
    exists records: Cluster, links: Cluster, loaded: nat, steps: seq<Step> ::
      Run(Init(records, links, saver, loaded), steps, t)
  }

  // ---------------------------------------------------------------- quiescence

  predicate Quiet(s: State) {
    s.admissionClosed && s.active == {}
  }

  /** Once admission is closed and no work is active, that is so in every continuation. */
  lemma {:induction false} QuiescenceIsStable(s: State, steps: seq<Step>, t: State)
    requires Quiet(s) && Run(s, steps, t)
    ensures Quiet(t)
    decreases |steps|
  {
    if steps != [] {
      QuiescenceIsStable(Next(s, steps[0]), steps[1..], t);
    }
  }

  lemma {:induction false} ClosedGateAdmitsNobody(s: State, steps: seq<Step>, t: State)
    requires s.admissionClosed && Run(s, steps, t)
    ensures t.admissionClosed && t.active <= s.active
    decreases |steps|
  {
    if steps != [] {
      GateStep(s, steps[0]);
      hide Enabled, Next;
      ClosedGateAdmitsNobody(Next(s, steps[0]), steps[1..], t);
    }
  }

  lemma GateStep(s: State, step: Step)
    requires Enabled(s, step)
    ensures s.admissionClosed ==> Next(s, step).admissionClosed && Next(s, step).active <= s.active
    ensures step == StopAdmission || step == CloseStart ==> Next(s, step).admissionClosed && Next(s, step).active == s.active
    ensures !s.admissionClosed && step.BeginWork? ==> step.p in Next(s, step).active
  {
    hide V.Next, V.Enabled, V.At, V.Remaining, V.Lost, Autonomous;
  }

  /** From the first BeginShutdown or CloseContext on, in every run, no callback becomes active that was not. */
  lemma StopIsFinal(s: State, steps: seq<Step>, t: State)
    requires steps != [] && (steps[0] == StopAdmission || steps[0] == CloseStart) && Run(s, steps, t)
    ensures t.admissionClosed && t.active <= s.active
  {
    GateStep(s, steps[0]);
    hide Enabled, Next;
    ClosedGateAdmitsNobody(Next(s, steps[0]), steps[1..], t);
  }

  // ---------------------------------------------------------------- invariants

  /** Only active callbacks are inside push. */
  ghost predicate ProducersActive(s: State) {
    forall p :: V.At(s.vals, p) != V.Idle ==> p in s.active
  }

  predicate NothingRefused(v: V.State) {
    v.records.rejectedBy == [] && v.links.rejectedBy == []
  }

  predicate CloserOrder(s: State) {
    && (s.closer != NotClosing ==> s.admissionClosed)
    && (s.closer.Quiesced? || s.closer.AwaitingDrain? || s.closer.Saving? || s.closer.AwaitingPut? ==> Quiet(s))
    && (s.vals.closed ==> Quiet(s))
    && (s.closer.Saving? || s.closer.AwaitingPut? ==> s.vals.nilReturned)
    && (s.putting.Some? ==> s.vals.nilReturned)
    && (!s.saver && s.stored.Some? ==> s.vals.nilReturned)
    && (s.closer == Returned(true) ==> Quiet(s) && s.vals.nilReturned)
  }

  /** What the cursors in flight and in the store are worth. */
  predicate CursorFacts(s: State) {
    && (s.putting.Some? ==> Quiet(s) && s.putting == Some(s.cursor))
    && (s.closer.AwaitingPut? ==> s.putting.Some?)
    && (!s.saver && s.stored.Some? ==> Quiet(s) && s.stored == Some(s.cursor))
    && (s.closer == Returned(true) && s.cursor != 0 ==> s.stored == Some(s.cursor))
  }

  ghost predicate Inv(s: State) {
    V.Inv(s.vals) && ProducersActive(s) && NothingRefused(s.vals) && CloserOrder(s) && CursorFacts(s)
  }

  lemma InitInv(records: Cluster, links: Cluster, saver: bool, loaded: nat)
    ensures Inv(Init(records, links, saver, loaded))
  {
    V.InitInv(records, links);
  }

  /** A store move puts nobody into push, except the producer that enters. */
  lemma StoreStepProducers(s: V.State, v: V.Step)
    requires V.Enabled(s, v)
    ensures forall p :: V.At(V.Next(s, v), p) != V.Idle ==> V.At(s, p) != V.Idle || (v.Produce? && v.ps.EnterPush? && v.p == p)
  {
    if v.Produce? && !v.ps.Send? {
      ProducePutsIn(s, v.p, v.ps);
    } else {
      V.QuietFrame(s, v);
      QuietPutsNobodyIn(s, V.Next(s, v));
    }
    hide V.DoProduce, V.DoFlush, V.DoShutdown, V.Quiet, V.At, Drain;
  }

  lemma ProducePutsIn(s: V.State, p: nat, ps: V.ProducerStep)
    requires V.Enabled(s, V.Produce(p, ps))
    ensures forall q :: V.At(V.DoProduce(s, p, ps), q) != V.Idle ==> V.At(s, q) != V.Idle || (ps.EnterPush? && p == q)
  {
    match ps {
      case EnterPush(_, _) =>
      case Send =>
      case PushLock => assert V.At(s, p) != V.Idle;
    }
    hide V.Buffered;
  }

  lemma QuietPutsNobodyIn(s: V.State, t: V.State)
    requires V.Quiet(s, t)
    ensures forall p :: V.At(t, p) != V.Idle ==> V.At(s, p) != V.Idle
  {
    hide V.SameLedger;
  }

  lemma ProduceKeeps(s: V.State, p: nat, ps: V.ProducerStep)
    requires V.Enabled(s, V.Produce(p, ps)) && NothingRefused(s)
    requires s.closed ==> V.At(s, p) == V.Idle
    ensures NothingRefused(V.DoProduce(s, p, ps))
    ensures V.DoProduce(s, p, ps).nilReturned == s.nilReturned && V.DoProduce(s, p, ps).closed == s.closed
  {
    hide V.Buffered;
    match ps {
      case EnterPush(_, _) =>
      case Send =>
      case PushLock => assert !s.closed;
    }
  }

  lemma FlushKeeps(s: V.State, fs: V.FlusherStep)
    requires V.Enabled(s, V.Flush(fs)) && NothingRefused(s)
    ensures NothingRefused(V.DoFlush(s, fs))
    ensures V.DoFlush(s, fs).nilReturned == s.nilReturned && V.DoFlush(s, fs).closed == s.closed
  {
  }

  lemma DrainKeepsFacts(s: V.State, z: Zone, d: DrainStep)
    requires V.Enabled(s, V.Drains(z, d)) && NothingRefused(s)
    ensures var t := V.Next(s, V.Drains(z, d));
            NothingRefused(t) && t.nilReturned == s.nilReturned && t.closed == s.closed
  {
    DrainFrame(V.ZoneOf(s, z), d, s.signals);
  }

  /** While nobody is inside push of a closed store, nothing is refused; shutdown facts only grow. */
  lemma StoreStepKeeps(s: V.State, v: V.Step)
    requires V.Enabled(s, v) && NothingRefused(s)
    requires s.closed ==> forall p :: V.At(s, p) == V.Idle
    ensures NothingRefused(V.Next(s, v))
    ensures s.nilReturned ==> V.Next(s, v).nilReturned
    ensures V.Next(s, v).closed ==> s.closed || v == V.Shutdown(V.CloseLock)
  {
    match v {
      case Drains(z, d) => DrainKeepsFacts(s, z, d);
      case Produce(p, ps) => ProduceKeeps(s, p, ps);
      case Flush(fs) => FlushKeeps(s, fs);
      case _ =>
    }
  }

  /** The store part of a step, if it has one. */
  function StorePart(s: State, step: Step): Option<V.Step> {
    match step
    case Push(p, z, kv) => Some(V.Produce(p, V.EnterPush(z, kv)))
    case Delete(_, k) => Some(V.DeleteKey(k))
    case Store(v) => Some(v)
    case CloseSink => Some(V.Shutdown(V.CloseLock))
    case DrainReturned(deadline) => if deadline then None else Some(V.Shutdown(V.CloseReturn))
    case _ => None
  }

  lemma StorePartMoves(s: State, step: Step)
    requires Enabled(s, step)
    ensures match StorePart(s, step)
            case None => Next(s, step).vals == s.vals
            case Some(v) => V.Enabled(s.vals, v) && Next(s, step).vals == V.Next(s.vals, v)
  {
  }

  /** What a step's store part does to the store's own facts and to who is inside push. */
  lemma StoreInvStep(s: State, step: Step)
    requires Inv(s) && Enabled(s, step)
    ensures V.Inv(Next(s, step).vals) && NothingRefused(Next(s, step).vals)
    ensures s.vals.nilReturned ==> Next(s, step).vals.nilReturned
    ensures Next(s, step).vals.closed ==> s.vals.closed || step == CloseSink
    ensures forall p :: V.At(Next(s, step).vals, p) != V.Idle ==> V.At(s.vals, p) != V.Idle || (step.Push? && step.p == p)
  {
    ClosedIsIdle(s);
    hide V.Inv, V.Next, V.Enabled, V.At, NothingRefused, ProducersActive, CloserOrder;
    StorePartMoves(s, step);
    if StorePart(s, step).Some? {
      StorePartKind(s, step);
      var v := StorePart(s, step).value;
      V.InvStep(s.vals, v);
      StoreStepProducers(s.vals, v);
      StoreStepKeeps(s.vals, v);
    }
  }

  lemma ClosedIsIdle(s: State)
    requires ProducersActive(s) && CloserOrder(s)
    ensures s.vals.closed ==> forall p :: V.At(s.vals, p) == V.Idle
  {
    hide V.At;
  }

  /** Which steps close the store and which enter push. */
  lemma StorePartKind(s: State, step: Step)
    requires Enabled(s, step) && StorePart(s, step).Some?
    ensures StorePart(s, step).value == V.Shutdown(V.CloseLock) ==> step == CloseSink
    ensures var v := StorePart(s, step).value;
            v.Produce? && v.ps.EnterPush? ==> step.Push? && step.p == v.p
  {
    hide V.Enabled, V.Next, V.At;
  }

  lemma InvStep(s: State, step: Step)
    requires Inv(s) && Enabled(s, step)
    ensures Inv(Next(s, step))
  {
    hide V.Inv, V.Next, V.Enabled, V.At, NothingRefused, CloserOrder, CursorFacts;
    StoreInvStep(s, step);
    CursorFactsStep(s, step);
    ClosedNeedsQuiet(s);
    CloserOrderStep(s, step);
    ProducersActiveStep(s, step);
  }

  lemma ClosedNeedsQuiet(s: State)
    requires CloserOrder(s)
    ensures s.vals.closed ==> Quiet(s)
  {
  }

  lemma ProducersActiveStep(s: State, step: Step)
    requires ProducersActive(s) && Enabled(s, step)
    requires forall p :: V.At(Next(s, step).vals, p) != V.Idle ==> V.At(s.vals, p) != V.Idle || (step.Push? && step.p == p)
    requires step.EndWork? ==> V.At(Next(s, step).vals, step.p) == V.Idle
    ensures ProducersActive(Next(s, step))
  {
    hide V.Inv, V.Next, V.Enabled, V.At;
  }

  lemma CloserOrderStep(s: State, step: Step)
    requires CloserOrder(s) && Enabled(s, step)
    requires s.vals.nilReturned ==> Next(s, step).vals.nilReturned
    requires Next(s, step).vals.closed ==> s.vals.closed || step == CloseSink
    ensures CloserOrder(Next(s, step))
  {
    hide V.Next, V.Enabled, V.At, V.Remaining, V.Lost, Autonomous;
    if step.DrainReturned? {
      DrainReturnedOrder(s, step.deadline);
      hide Next, Enabled, CloserOrder;
    }
  }

  /** A cursor handed to a Put, or stored without the saver, stays the current one: work is over. */
  lemma CursorFactsStep(s: State, step: Step)
    requires CloserOrder(s) && CursorFacts(s) && Enabled(s, step)
    ensures CursorFacts(Next(s, step))
  {
    hide V.Next, V.Enabled, V.At, V.Remaining, V.Lost, Autonomous;
  }

  lemma DrainReturnedOrder(s: State, deadline: bool)
    requires CloserOrder(s) && Enabled(s, DrainReturned(deadline))
    requires s.vals.nilReturned ==> Next(s, DrainReturned(deadline)).vals.nilReturned
    requires Next(s, DrainReturned(deadline)).vals.closed ==> s.vals.closed
    ensures CloserOrder(Next(s, DrainReturned(deadline)))
  {
    if !deadline && V.Remaining(s.vals) == 0 && V.Lost(s.vals) == 0 {
      CloseReturnNil(s.vals);
    }
    hide V.Next, V.Enabled, V.Remaining, V.Lost;
  }

  lemma CloseReturnNil(v: V.State)
    requires v.closeFinished && V.Remaining(v) == 0 && V.Lost(v) == 0
    ensures V.Enabled(v, V.Shutdown(V.CloseReturn)) && V.Next(v, V.Shutdown(V.CloseReturn)).nilReturned
  {
  }

  lemma SaverStays(s: State, step: Step)
    requires Enabled(s, step)
    ensures Next(s, step).saver == s.saver
  {
    hide V.Next, V.Enabled, V.At, V.Remaining, V.Lost, Autonomous;
  }

  lemma {:induction false} InvRun(s: State, steps: seq<Step>, t: State)
    requires Inv(s) && Run(s, steps, t)
    ensures Inv(t) && t.saver == s.saver
    decreases |steps|
  {
    if steps != [] {
      hide Inv, Next, Enabled;
      SaverStays(s, steps[0]);
      InvStep(s, steps[0]);
      InvRun(Next(s, steps[0]), steps[1..], t);
    }
  }

  lemma ReachableInv(saver: bool, t: State)
    requires Reachable(saver, t)
    ensures Inv(t) && t.saver == saver
  {
    var records: Cluster, links: Cluster, loaded: nat, steps: seq<Step> :| Run(Init(records, links, saver, loaded), steps, t);
    InitInv(records, links, saver, loaded);
    InvRun(Init(records, links, saver, loaded), steps, t);
  }

  // ------------------------------------------------------------- the promises

  /** Everything any admitted callback pushed was accepted and is durable, and nobody can push again. */
  ghost predicate AllDurable(t: State) {
    && Quiet(t)
    && (forall c: nat :: c < |t.vals.calls| ==> InHistory(t.vals, c))
    && T.ZoneDurable(t.vals.records) && T.ZoneDurable(t.vals.links)
    && V.Lost(t.vals) == 0
  }

  /** A push call of nobody who is still inside, with nothing refused, has its entry in the history. */
  predicate InHistory(v: V.State, c: nat)
    requires c < |v.calls|
  {
    && v.calls[c].fate.Admitted?
    && v.calls[c].fate.index < |V.ZoneOf(v, v.calls[c].zone).history|
    && V.ZoneOf(v, v.calls[c].zone).history[v.calls[c].fate.index] == v.calls[c].kv
  }

  lemma CallIsInHistory(v: V.State, c: nat)
    requires c < |v.calls| && V.CallMatches(v, c) && V.LedgerMatches(v, v.calls[c].zone)
    requires V.At(v, v.calls[c].producer) == V.Idle && V.ZoneOf(v, v.calls[c].zone).rejectedBy == []
    ensures InHistory(v, c)
  {
    hide V.At;
  }

  lemma NilMeansClosed(v: V.State)
    requires V.Inv(v) && v.nilReturned
    ensures v.closed
  {
    hide V.ZonesInv, V.Bounded, V.Announced, V.CallsInv;
  }

  lemma NilMeansQuiet(t: State)
    requires Inv(t) && t.vals.nilReturned
    ensures Quiet(t) && forall p :: V.At(t.vals, p) == V.Idle
  {
    NilMeansClosed(t.vals);
    ClosedIsIdle(t);
    hide V.Inv, V.At;
  }

  lemma NilMeansNothingLost(v: V.State)
    requires V.Inv(v) && v.nilReturned && NothingRefused(v)
    ensures V.Lost(v) == 0
  {
    T.NilIsDurable(v);
    assert Conserved(v.records) && Conserved(v.links);
    hide V.Inv, T.ZoneDurable;
  }

  lemma MatchesOf(v: V.State, c: nat)
    requires V.Inv(v) && c < |v.calls|
    ensures V.CallMatches(v, c) && V.LedgerMatches(v, v.calls[c].zone)
  {
    hide V.ZonesInv, V.Bounded, V.ShutdownOrder, V.Announced, V.NilInv, V.CallMatches, V.LedgerMatches;
    assert v.calls[c].zone == Records || v.calls[c].zone == Backlinks;
  }

  lemma NilAndQuietIsDurable(t: State)
    requires Inv(t) && t.vals.nilReturned
    ensures AllDurable(t)
  {
    hide V.Inv, V.At, T.ZoneDurable, V.Lost, InHistory, CloserOrder, CursorFacts, ProducersActive;
    var v := t.vals;
    T.NilIsDurable(v);
    NilMeansQuiet(t);
    NilMeansNothingLost(v);
    forall c: nat | c < |v.calls| ensures InHistory(v, c) {
      MatchesOf(v, c);
      CallIsInHistory(v, c);
    }
  }

  /**
    End to end, with the vals backend: if a cursor was stored, every entry pushed
    by a callback that passed beginWork is persisted, none was dropped or
    refused, no push can follow, and the cursor is that of the last commit seen.
  */
  lemma SavedCursorMeansDurable(records: Cluster, links: Cluster, loaded: nat, steps: seq<Step>, t: State)
    requires Run(Init(records, links, false, loaded), steps, t) && t.stored.Some?
    ensures AllDurable(t)
    ensures t.stored == Some(LastCommit(steps, loaded))
  {
    RunIsReachable(records, links, false, loaded, steps, t);
    ReachableInv(false, t);
    NilAndQuietIsDurable(t);
    CursorIsLastCommit(Init(records, links, false, loaded), steps, t);
    hide Run;
  }

  /**
    A CloseContext that returned nil, with or without the saver: everything pushed
    is durable and, unless no cursor was ever seen, the last commit's is stored.
  */
  lemma CleanCloseSavesLast(records: Cluster, links: Cluster, saver: bool, loaded: nat, steps: seq<Step>, t: State)
    requires Run(Init(records, links, saver, loaded), steps, t) && t.closer == Returned(true)
    ensures AllDurable(t)
    ensures LastCommit(steps, loaded) != 0 ==> t.stored == Some(LastCommit(steps, loaded))
  {
    RunIsReachable(records, links, saver, loaded, steps, t);
    ReachableInv(saver, t);
    NilAndQuietIsDurable(t);
    CursorIsLastCommit(Init(records, links, saver, loaded), steps, t);
    hide Run;
  }

  lemma RunIsReachable(records: Cluster, links: Cluster, saver: bool, loaded: nat, steps: seq<Step>, t: State)
    requires Run(Init(records, links, saver, loaded), steps, t)
    ensures Reachable(saver, t)
  {
    hide Run;
  }

  /** The sequence number of the last commit seen in these steps, or what was there before them. */
  function LastCommit(steps: seq<Step>, before: int): int {
    if steps == [] then before
    else if steps[|steps| - 1].SeeCommit? then steps[|steps| - 1].seq_
    else LastCommit(steps[..|steps| - 1], before)
  }

  lemma {:induction false} LastCommitCons(step: Step, rest: seq<Step>, before: int)
    ensures LastCommit([step] + rest, before) == LastCommit(rest, if step.SeeCommit? then step.seq_ else before)
  {
    var all := [step] + rest;
    if rest == [] {
      assert all[..|all| - 1] == [];
    } else {
      assert all[..|all| - 1] == [step] + rest[..|rest| - 1];
      LastCommitCons(step, rest[..|rest| - 1], before);
    }
  }

  lemma StepCursor(s: State, step: Step)
    requires Enabled(s, step)
    ensures Next(s, step).cursor == if step.SeeCommit? then step.seq_ else s.cursor
  {
    hide V.Next, V.Enabled, V.At, V.Remaining, V.Lost, Autonomous;
  }

  /** The cursor is the sequence number of the last commit any callback has seen. */
  lemma {:induction false} CursorIsLastCommit(s: State, steps: seq<Step>, t: State)
    requires Run(s, steps, t)
    ensures t.cursor == LastCommit(steps, s.cursor)
    decreases |steps|
  {
    hide Next, Enabled;
    if steps != [] {
      StepCursor(s, steps[0]);
      CursorIsLastCommit(Next(s, steps[0]), steps[1..], t);
      assert steps == [steps[0]] + steps[1..];
      LastCommitCons(steps[0], steps[1..], s.cursor);
    }
  }

  /** After that, the calls and histories are final. */
  lemma {:induction false} NoLaterPush(s: State, steps: seq<Step>, t: State)
    requires Inv(s) && Quiet(s) && Run(s, steps, t)
    ensures t.vals.calls == s.vals.calls
    ensures t.vals.records.history == s.vals.records.history && t.vals.links.history == s.vals.links.history
    decreases |steps|
  {
    if steps != [] {
      QuietStepPushesNothing(s, steps[0]);
      InvStep(s, steps[0]);
      NoLaterPush(Next(s, steps[0]), steps[1..], t);
    }
  }

  lemma QuietStepPushesNothing(s: State, step: Step)
    requires ProducersActive(s) && Quiet(s) && Enabled(s, step)
    ensures Next(s, step).vals.calls == s.vals.calls && Quiet(Next(s, step))
    ensures Next(s, step).vals.records.history == s.vals.records.history
    ensures Next(s, step).vals.links.history == s.vals.links.history
  {
    StorePartMoves(s, step);
    if StorePart(s, step).Some? {
      IdleStoreStep(s.vals, StorePart(s, step).value);
    }
  }

  lemma IdleProduce(s: V.State, p: nat, ps: V.ProducerStep)
    requires V.Enabled(s, V.Produce(p, ps)) && V.At(s, p) == V.Idle
    ensures ps.EnterPush?
  {
  }

  lemma IdleFlush(s: V.State, fs: V.FlusherStep)
    requires V.Enabled(s, V.Flush(fs))
    ensures V.DoFlush(s, fs).calls == s.calls
    ensures V.DoFlush(s, fs).records.history == s.records.history && V.DoFlush(s, fs).links.history == s.links.history
  {
  }

  lemma IdleDrain(s: V.State, z: Zone, d: DrainStep)
    requires V.Enabled(s, V.Drains(z, d))
    ensures var t := V.Next(s, V.Drains(z, d));
            t.calls == s.calls && t.records.history == s.records.history && t.links.history == s.links.history
  {
    DrainFrame(V.ZoneOf(s, z), d, s.signals);
    hide Drain, DrainEnabled;
  }

  lemma IdleStoreStep(s: V.State, v: V.Step)
    requires V.Enabled(s, v) && (forall p :: V.At(s, p) == V.Idle) && !(v.Produce? && v.ps.EnterPush?)
    ensures V.Next(s, v).calls == s.calls
    ensures V.Next(s, v).records.history == s.records.history && V.Next(s, v).links.history == s.links.history
  {
    match v {
      case Drains(z, d) => IdleDrain(s, z, d);
      case Flush(fs) => IdleFlush(s, fs);
      case Produce(p, ps) => IdleProduce(s, p, ps);
      case Shutdown(_) =>
      case DeleteKey(_) =>
    }
    hide V.DoFlush, V.DoProduce, V.At, Drain;
  }

  /** The store is closed only after quiescence, so a shutdown refuses no callback's push. */
  lemma ShutdownRefusesNobody(saver: bool, t: State)
    requires Reachable(saver, t)
    ensures t.vals.closed ==> Quiet(t)
    ensures t.vals.records.shelf.rejected == 0 && t.vals.links.shelf.rejected == 0
  {
    ReachableInv(saver, t);
  }

  // -------------------------------------------------------- the cursor-saver gate

  /** Everything admitted so far is durable. */
  ghost predicate AdmittedDurable(t: State) {
    T.ZoneDurable(t.vals.records) && T.ZoneDurable(t.vals.links)
  }

  /** A run in which the periodic saver overtakes the buffer: the callback is done, its entry is not written. */
  lemma SaverOvertakes() returns (t: State)
    ensures Reachable(true, t) && t.stored == Some(7) && t.active == {}
    ensures |t.vals.records.history| == 1 && t.vals.records.history[0].key !in t.vals.records.cluster
    ensures !AdmittedDurable(t)
  {
    var kv := KV([1], [2]);
    var s0 := Init(map[], map[], true, 0);
    hide Run, V.Next, V.Enabled, V.Remaining, V.Lost, Next, Enabled;
    FirstPush(kv);
    var s1, s2, s3 := CallbackEnters(s0, kv);
    var s4, s5;
    s4, s5, t := CallbackEnds(s3);
    SixSteps(s0, s1, s2, s3, s4, s5, BeginWork(0), SeeCommit(0, 7), Push(0, Records, kv),
             Store(V.Produce(0, V.PushLock)), EndWork(0), PeriodicSave);
  }

  lemma CallbackEnters(s0: State, kv: KV) returns (s1: State, s2: State, s3: State)
    requires !s0.admissionClosed && s0.active == {} && V.Enabled(s0.vals, V.Produce(0, V.EnterPush(Records, kv)))
    ensures Enabled(s0, BeginWork(0)) && s1 == Next(s0, BeginWork(0))
    ensures Enabled(s1, SeeCommit(0, 7)) && s2 == Next(s1, SeeCommit(0, 7))
    ensures Enabled(s2, Push(0, Records, kv)) && s3 == Next(s2, Push(0, Records, kv))
    ensures s3 == s0.(active := {0}, cursor := 7, vals := V.Next(s0.vals, V.Produce(0, V.EnterPush(Records, kv))))
  {
    hide V.Next, V.Enabled, V.Remaining, V.Lost;
    s1 := Next(s0, BeginWork(0));
    s2 := Next(s1, SeeCommit(0, 7));
    s3 := Next(s2, Push(0, Records, kv));
  }

  lemma CallbackEnds(s3: State) returns (s4: State, s5: State, t: State)
    requires s3.active == {0} && s3.cursor == 7 && s3.saver
    requires V.Enabled(s3.vals, V.Produce(0, V.PushLock))
    requires V.At(V.Next(s3.vals, V.Produce(0, V.PushLock)), 0) == V.Idle
    ensures var lock := Store(V.Produce(0, V.PushLock));
            && Enabled(s3, lock) && s4 == Next(s3, lock)
            && Enabled(s4, EndWork(0)) && s5 == Next(s4, EndWork(0))
            && Enabled(s5, PeriodicSave) && t == Next(s5, PeriodicSave)
    ensures t.vals == V.Next(s3.vals, V.Produce(0, V.PushLock)) && t.stored == Some(7) && t.active == {}
  {
    hide V.Next, V.Enabled, V.At, V.Remaining, V.Lost;
    s4 := Next(s3, Store(V.Produce(0, V.PushLock)));
    s5 := Next(s4, EndWork(0));
    t := Next(s5, PeriodicSave);
  }

  /** One push into an empty store leaves its entry in the buffer. */
  lemma FirstPush(kv: KV)
    ensures var s := V.Init(map[], map[]);
            && V.Enabled(s, V.Produce(0, V.EnterPush(Records, kv)))
            && var a := V.Next(s, V.Produce(0, V.EnterPush(Records, kv)));
               && V.Enabled(a, V.Produce(0, V.PushLock))
               && var b := V.Next(a, V.Produce(0, V.PushLock));
                  && V.At(b, 0) == V.Idle && b.records.history == [kv]
                  && b.records.shelf.buffer == [kv] && b.records.cluster == map[]
  {
    var s := V.Init(map[], map[]);
    var a := V.Next(s, V.Produce(0, V.EnterPush(Records, kv)));
    assert V.At(a, 0) == V.Entering(Records, kv, 0);
  }

  lemma SixSteps(s0: State, s1: State, s2: State, s3: State, s4: State, s5: State,
                 a: Step, b: Step, c: Step, d: Step, e: Step, f: Step)
    requires Enabled(s0, a) && s1 == Next(s0, a)
    requires Enabled(s1, b) && s2 == Next(s1, b)
    requires Enabled(s2, c) && s3 == Next(s2, c)
    requires Enabled(s3, d) && s4 == Next(s3, d)
    requires Enabled(s4, e) && s5 == Next(s4, e)
    requires Enabled(s5, f)
    ensures Run(s0, [a] + ([b] + ([c] + ([d] + ([e] + [f])))), Next(s5, f))
  {
    hide Enabled, Next, Run;
    RunOne(s5, f);
    RunCons(s4, e, [f], Next(s5, f));
    RunCons(s3, d, [e] + [f], Next(s5, f));
    RunCons(s2, c, [d] + ([e] + [f]), Next(s5, f));
    RunCons(s1, b, [c] + ([d] + ([e] + [f])), Next(s5, f));
    RunCons(s0, a, [b] + ([c] + ([d] + ([e] + [f]))), Next(s5, f));
  }

  lemma RunOne(s: State, step: Step)
    requires Enabled(s, step)
    ensures Run(s, [step], Next(s, step))
  {
    assert [step][1..] == [];
  }

  lemma RunCons(s: State, step: Step, rest: seq<Step>, t: State)
    requires Enabled(s, step) && Run(Next(s, step), rest, t)
    ensures Run(s, [step] + rest, t)
  {
    assert ([step] + rest)[1..] == rest;
  }

  /** The gate in Run is exact: a stored cursor always means durable data if and only if no periodic saver runs. */
  lemma GateIsExact(saver: bool)
    ensures (forall t :: Reachable(saver, t) && t.stored.Some? ==> AdmittedDurable(t)) <==> !saver
  {
    if saver {
      var t := SaverOvertakes();
    } else {
      forall t | Reachable(saver, t) && t.stored.Some? ensures AdmittedDurable(t) {
        ReachableInv(saver, t);
        NilAndQuietIsDurable(t);
      }
    }
  }
}
