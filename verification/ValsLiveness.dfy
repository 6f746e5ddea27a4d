/**
  When a shutdown can still succeed: exactly while nothing is lost and no chunk's
  loss is already decided, some run drains the store and returns nil.
*/
module ValsLiveness {
  import opened Common
  import opened ValsModel
  import opened ValsProtocol
  import T = ValsTheorems
  import D = ValsDrops

  /** The current chunk has been given up, or will be at its next move. */
  predicate Doomed(j: Job, g: Signals) {
    Active(j) && (j.pc == Settle(false) || (j.pc == Recheck && D.DeadlinePassed(g)))
  }

  /** Nothing has been dropped or refused, and no chunk is bound to be dropped. */
  predicate Healthy(s: State) {
    Lost(s) == 0 && !Doomed(s.records.job, s.signals) && !Doomed(s.links.job, s.signals)
  }

  /** How many passes of the flush loop are left once the store is closed. */
  function PassesLeft(f: Flusher): nat {
    match f
    case Taking(last) => if last then 2 else 5
    case Draining(last) => if last then 1 else 4
    case Selecting => 3
    case Exited => 0
  }

  /** The flusher's next move on a closed store, every batch accepted. */
  function ClosedMove(s: State): (step: Step)
    requires Bounded(s) && s.closed && s.flusher != Exited
    ensures Enabled(s, step) && T.FlusherMove(step)
  {
    match s.flusher
    case Selecting => Flush(RecvDone)
    case Taking(_) => Flush(Take)
    case Draining(_) =>
      if Active(s.records.job) then Drains(Records, T.ZoneMove(s.records, s.signals))
      else if Active(s.links.job) then Drains(Backlinks, T.ZoneMove(s.links, s.signals))
      else Flush(Join)
  }

  lemma DrainStaysHealthy(z: ZoneState, g: Signals)
    requires Active(z.job) && !Doomed(z.job, g)
    ensures var t := Drain(z, T.ZoneMove(z, g), g);
            && !Doomed(t.job, g)
            && t.shelf.dropped == z.shelf.dropped && t.shelf.rejected == z.shelf.rejected && t.history == z.history
  {
  }

  /** What the move changes besides the zones' work. */
  predicate Calm(s: State, t: State) {
    && t.closed == s.closed && t.signals == s.signals
    && t.records.history == s.records.history && t.links.history == s.links.history
    && Healthy(t)
  }

  lemma FlushCalm(s: State, fs: FlusherStep)
    requires Healthy(s) && Enabled(s, Flush(fs))
    ensures Calm(s, DoFlush(s, fs))
    ensures fs == RecvDone ==> DoFlush(s, fs).flusher == Taking(true)
    ensures fs == Take ==> DoFlush(s, fs).flusher == Draining(s.flusher.last)
    ensures fs == Join ==> DoFlush(s, fs).flusher == if s.flusher.last then Exited else Selecting
  {
    hide WakeAll, AddU64;
  }

  lemma DrainCalm(s: State, z: Zone)
    requires Healthy(s) && Active(ZoneOf(s, z).job)
    ensures var step := Drains(z, T.ZoneMove(ZoneOf(s, z), s.signals));
            Enabled(s, step) && Calm(s, Next(s, step)) && Next(s, step).flusher == s.flusher
  {
    DrainStaysHealthy(ZoneOf(s, z), s.signals);
    hide Drain, DrainEnabled;
  }

  lemma {:induction false} DrainAll(s: State) returns (steps: seq<Step>, t: State)
    requires Inv(s) && Healthy(s) && s.closed
    ensures Run(s, steps, t) && t.flusher == Exited && Calm(s, t)
    ensures forall i :: 0 <= i < |steps| ==> T.FlusherMove(steps[i])
    decreases PassesLeft(s.flusher), T.HealthyRank(s)
  {
    hide Enabled, Next, Healthy, T.HealthyRank, ZonesInv, Bounded, ShutdownOrder, Announced, CallsInv, NilInv;
    if s.flusher == Exited {
      steps, t := [], s;
    } else {
      var step := ClosedMove(s);
      ClosedMoveIsCalm(s);
      InvStep(s, step);
      if step != Flush(Take) { T.HealthyRankStep(s, step); }
      steps, t := DrainAll(Next(s, step));
      T.RunCons(s, step, steps, t, T.FlusherMove);
      steps := [step] + steps;
    }
  }

  lemma ClosedMoveIsCalm(s: State)
    requires Inv(s) && Healthy(s) && s.closed && s.flusher != Exited
    ensures var step := ClosedMove(s);
            && Calm(s, Next(s, step))
            && (step.Drains? && step.ds.PutBatch? ==> step.ds.outcome == Success)
            && (step.Drains? ==> Next(s, step).flusher == s.flusher)
            && (step.Flush? ==> PassesLeft(Next(s, step).flusher) < PassesLeft(s.flusher))
  {
    var step := ClosedMove(s);
    if step.Drains? { DrainCalm(s, step.zone); } else { FlushCalm(s, step.fs); }
    hide Healthy, ZonesInv, ShutdownOrder, Announced, CallsInv, NilInv, DoFlush, Drain, DrainEnabled;
  }

  lemma ExitedIsEmpty(t: State)
    requires Inv(t) && t.flusher == Exited
    ensures Remaining(t) == 0
  {
    assert Conserved(t.records) && Conserved(t.links);
    hide InOrder, ChunksBounded, ClusterFollows, Conserved, CallsInv, Announced, NilInv;
    assert t.records.shelf.inflight == |Unsettled(t.records.job)| && t.links.shelf.inflight == |Unsettled(t.links.job)| by {
      CountedInFlight(t.records);
      CountedInFlight(t.links);
    }
  }

  lemma CountedInFlight(z: ZoneState)
    requires Conserved(z)
    ensures z.shelf.inflight == |Unsettled(z.job)|
  {
  }

  /** A step of a shutdown leaves the zones alone. */
  lemma ShutdownKeepsHealthy(s: State, ss: ShutdownStep)
    requires ShutdownOrder(s) && Enabled(s, Shutdown(ss)) && Healthy(s) && ss != Expire
    ensures var t := Next(s, Shutdown(ss));
            && Healthy(t) && t.records == s.records && t.links == s.links
            && (s.signals.ctxInstalled || ss == InstallCtx ==> t.signals.ctxInstalled)
            && (s.signals.wakeClosed || ss == CloseWake ==> t.signals.wakeClosed)
            && (s.closed || ss == CloseLock ==> t.closed)
  {
    hide WakeAll;
  }

  /** BeginShutdown and the locked part of CloseContext. */
  lemma BeginClose(s: State) returns (t: State)
    requires Inv(s) && Healthy(s)
    ensures Run(s, [Shutdown(InstallCtx), Shutdown(CloseWake), Shutdown(CloseLock)], t) && Inv(t) && Healthy(t) && t.closed
    ensures t.records.history == s.records.history && t.links.history == s.links.history
  {
    assert Enabled(s, Shutdown(InstallCtx));
    var a := Next(s, Shutdown(InstallCtx));
    InvStep(s, Shutdown(InstallCtx));
    ShutdownKeepsHealthy(s, InstallCtx);
    assert Enabled(a, Shutdown(CloseWake));
    var b := Next(a, Shutdown(CloseWake));
    InvStep(a, Shutdown(CloseWake));
    ShutdownKeepsHealthy(a, CloseWake);
    assert Enabled(b, Shutdown(CloseLock));
    t := Next(b, Shutdown(CloseLock));
    ShutdownKeepsHealthy(b, CloseLock);
    hide Inv, Healthy, Next, Enabled;
    InvStep(b, Shutdown(CloseLock));
    ThreeSteps(s, Shutdown(InstallCtx), a, Shutdown(CloseWake), b, Shutdown(CloseLock), t);
  }

  lemma ThreeSteps(s: State, a: Step, s1: State, b: Step, s2: State, c: Step, t: State)
    requires Enabled(s, a) && s1 == Next(s, a) && Enabled(s1, b) && s2 == Next(s1, b) && Enabled(s2, c) && t == Next(s2, c)
    ensures Run(s, [a, b, c], t)
  {
    hide Enabled, Next;
    assert [a, b, c][1..] == [b, c] && [b, c][1..] == [c] && [c][1..] == [];
    assert Run(t, [], t);
    assert Run(s2, [c], t);
    assert Run(s1, [b, c], t);
  }

  /** The two steps that end a close. */
  lemma EndClose(s: State) returns (t: State)
    requires Inv(s) && Healthy(s) && s.closed && s.flusher == Exited
    ensures Run(s, [Shutdown(CloserDone), Shutdown(CloseReturn)], t) && t.nilReturned
    ensures t.records.history == s.records.history && t.links.history == s.links.history
  {
    ExitedIsEmpty(s);
    var a := Next(s, Shutdown(CloserDone));
    t := Next(a, Shutdown(CloseReturn));
    hide Inv;
    TwoSteps(s, Shutdown(CloserDone), a, Shutdown(CloseReturn), t);
  }

  lemma TwoSteps(s: State, a: Step, s1: State, b: Step, t: State)
    requires Enabled(s, a) && s1 == Next(s, a) && Enabled(s1, b) && t == Next(s1, b)
    ensures Run(s, [a, b], t)
  {
    hide Enabled, Next;
    assert [a, b][1..] == [b] && [b][1..] == [];
    assert Run(t, [], t);
    assert Run(s1, [b], t);
  }

  lemma {:induction false} RunConcat(s: State, a: seq<Step>, mid: State, b: seq<Step>, t: State)
    requires Run(s, a, mid) && Run(mid, b, t)
    ensures Run(s, a + b, t)
    decreases |a|
  {
    hide Enabled, Next;
    if a == [] {
      assert a + b == b;
    } else {
      assert (a + b)[1..] == a[1..] + b;
      RunConcat(Next(s, a[0]), a[1..], mid, b, t);
    }
  }

  /** From every healthy state some run closes the store with nil, admitting nothing more. */
  lemma CleanCloseExists(s: State) returns (steps: seq<Step>, t: State)
    requires Inv(s) && Healthy(s)
    ensures Run(s, steps, t) && t.nilReturned
    ensures t.records.history == s.records.history && t.links.history == s.links.history
  {
    hide Run, Inv, Healthy;
    var closed := BeginClose(s);
    var moves, drained := DrainAll(closed);
    InvRun(closed, moves, drained);
    t := EndClose(drained);
    var start, end := [Shutdown(InstallCtx), Shutdown(CloseWake), Shutdown(CloseLock)], [Shutdown(CloserDone), Shutdown(CloseReturn)];
    RunConcat(s, start, closed, moves, drained);
    RunConcat(s, start + moves, drained, end, t);
    steps := start + moves + end;
  }

  // ------------------------------------------------------------- past saving

  lemma DrainStaysDoomed(z: ZoneState, d: DrainStep, g: Signals)
    requires DrainEnabled(z, d, g)
    ensures var t := Drain(z, d, g);
            && t.shelf.dropped >= z.shelf.dropped && t.shelf.rejected == z.shelf.rejected
            && (Doomed(z.job, g) ==> Doomed(t.job, g) || t.shelf.dropped > z.shelf.dropped)
  {
  }

  lemma RefuseCounts(s: State, p: nat, z: Zone)
    requires At(s, p).Entering? && At(s, p).call < |s.calls|
    ensures ZoneOf(DoRefuse(s, p), z).shelf.rejected >= ZoneOf(s, z).shelf.rejected
  {
  }

  lemma AdmitCounts(s: State, p: nat, z: Zone)
    requires At(s, p).Entering? && At(s, p).call < |s.calls|
    ensures ZoneOf(DoAdmit(s, p), z).shelf.rejected == ZoneOf(s, z).shelf.rejected
  {
    hide Buffered;
  }

  lemma ProduceCounts(s: State, p: nat, ps: ProducerStep, z: Zone)
    requires Enabled(s, Produce(p, ps))
    ensures ZoneOf(DoProduce(s, p, ps), z).shelf.rejected >= ZoneOf(s, z).shelf.rejected
    ensures ZoneOf(DoProduce(s, p, ps), z).job == ZoneOf(s, z).job
    ensures DoProduce(s, p, ps).nilReturned == s.nilReturned
  {
    T.ProduceKeepsJobs(s, p, ps);
    hide Buffered, DoAdmit, DoRefuse;
    if ps.PushLock? {
      RefuseCounts(s, p, z);
      AdmitCounts(s, p, z);
      NilKept(s, p);
    }
  }

  lemma NilKept(s: State, p: nat)
    requires At(s, p).Entering? && At(s, p).call < |s.calls|
    ensures DoRefuse(s, p).nilReturned == s.nilReturned && DoAdmit(s, p).nilReturned == s.nilReturned
  {
    hide Buffered;
  }

  lemma FlushCounts(s: State, fs: FlusherStep, z: Zone)
    requires Bounded(s) && Enabled(s, Flush(fs))
    ensures ZoneOf(DoFlush(s, fs), z).shelf.rejected == ZoneOf(s, z).shelf.rejected
    ensures Active(ZoneOf(s, z).job) ==> ZoneOf(DoFlush(s, fs), z).job == ZoneOf(s, z).job
    ensures DoFlush(s, fs).nilReturned == s.nilReturned
  {
    hide WakeAll, AddU64, Buffered;
  }

  /** Losses only grow, and a chunk bound to be dropped stays so until it is. */
  lemma ZoneSpoils(s: State, step: Step, z: Zone)
    requires Bounded(s) && Enabled(s, step)
    ensures var u, v := ZoneOf(s, z), ZoneOf(Next(s, step), z);
            && v.shelf.dropped >= u.shelf.dropped && v.shelf.rejected >= u.shelf.rejected
            && (Doomed(u.job, s.signals) ==> Doomed(v.job, Next(s, step).signals) || v.shelf.dropped > u.shelf.dropped)
  {
    if step.Drains? && step.zone == z {
      hide Next, Enabled, Drain, DrainEnabled, ZoneOf, Bounded;
      D.OwnDrain(s, step.ds, z);
      DrainStaysDoomed(ZoneOf(s, z), step.ds, s.signals);
    } else {
      D.OtherUntouched(s, step, z);
      OtherKeepsActive(s, step, z);
      hide Next, Enabled, Drain, DrainEnabled, ZoneOf, Bounded;
    }
  }

  lemma OtherKeepsActive(s: State, step: Step, z: Zone)
    requires Bounded(s) && Enabled(s, step) && !(step.Drains? && step.zone == z)
    ensures ZoneOf(Next(s, step), z).shelf.rejected >= ZoneOf(s, z).shelf.rejected
    ensures Active(ZoneOf(s, z).job) ==> ZoneOf(Next(s, step), z).job == ZoneOf(s, z).job
  {
    hide Bounded, DoFlush, DoProduce, Drain, DrainEnabled, WakeAll;
    match step {
      case Flush(fs) => FlushCounts(s, fs, z);
      case Produce(p, ps) => ProduceCounts(s, p, ps, z);
      case _ =>
    }
  }

  /** Only CloseReturn on a healthy store gives nil. */
  lemma NilNeedsHealth(s: State, step: Step)
    requires Inv(s) && Enabled(s, step) && !s.nilReturned && Next(s, step).nilReturned
    ensures Healthy(s)
  {
    hide ZonesInv, Announced, CallsInv, NilInv, DoFlush, DoProduce, Drain, DrainEnabled, WakeAll, Buffered;
    match step {
      case Flush(fs) => FlushCounts(s, fs, Records);
      case Produce(p, ps) => ProduceCounts(s, p, ps, Records);
      case _ =>
    }
  }

  lemma SpoiledStep(s: State, step: Step)
    requires Inv(s) && Enabled(s, step) && !Healthy(s)
    ensures !Healthy(Next(s, step))
  {
    hide Next, Enabled, ZonesInv, ShutdownOrder, Announced, CallsInv, NilInv, Bounded, Doomed;
    ZoneSpoils(s, step, Records);
    ZoneSpoils(s, step, Backlinks);
  }

  lemma {:induction false} SpoiledRun(s: State, steps: seq<Step>, t: State)
    requires Inv(s) && !Healthy(s) && !s.nilReturned && Run(s, steps, t)
    ensures !t.nilReturned
    decreases |steps|
  {
    hide Next, Enabled, Inv, Healthy;
    if steps != [] {
      InvStep(s, steps[0]);
      SpoiledStep(s, steps[0]);
      if Next(s, steps[0]).nilReturned { NilNeedsHealth(s, steps[0]); }
      SpoiledRun(Next(s, steps[0]), steps[1..], t);
    }
  }

  /** Some continuation has CloseContext return nil. */
  ghost predicate NilPossible(s: State) {
    exists steps: seq<Step>, t: State :: Run(s, steps, t) && t.nilReturned
  }

  /**
    A shutdown can still succeed exactly while it has not failed: nothing dropped or
    refused, and no chunk given up or woken past the deadline.  The deadline alone
    ends nothing, and no retry budget already spent does.
  */
  lemma NilPossibleExactly(s: State)
    requires Inv(s) && !s.nilReturned
    ensures NilPossible(s) <==> Healthy(s)
  {
    hide Inv, Run, Healthy;
    if Healthy(s) {
      var steps, t := CleanCloseExists(s);
    } else {
      forall steps: seq<Step>, t: State | Run(s, steps, t) ensures !t.nilReturned {
        SpoiledRun(s, steps, t);
      }
    }
  }

  /** From every state of an open or closed store a shutdown can run into its deadline. */
  lemma DeadlineCanPass(s: State) returns (t: State)
    requires Inv(s)
    ensures Run(s, [Shutdown(InstallCtx), Shutdown(CloseWake), Shutdown(CloseLock)] + [Shutdown(Expire)], t)
    ensures T.PastDeadline(t) && t.records.history == s.records.history && t.links.history == s.links.history
  {
    hide Inv, WakeAll;
    var a := Next(s, Shutdown(InstallCtx));
    InvStep(s, Shutdown(InstallCtx));
    var b := Next(a, Shutdown(CloseWake));
    InvStep(a, Shutdown(CloseWake));
    var c := Next(b, Shutdown(CloseLock));
    InvStep(b, Shutdown(CloseLock));
    t := Next(c, Shutdown(Expire));
    InvStep(c, Shutdown(Expire));
    ThreeSteps(s, Shutdown(InstallCtx), a, Shutdown(CloseWake), b, Shutdown(CloseLock), c);
    OneStep(c, Shutdown(Expire));
    RunConcat(s, [Shutdown(InstallCtx), Shutdown(CloseWake), Shutdown(CloseLock)], c, [Shutdown(Expire)], t);
  }

  lemma OneStep(s: State, step: Step)
    requires Enabled(s, step)
    ensures Run(s, [step], Next(s, step))
  {
    hide Enabled, Next;
    assert [step][1..] == [];
    assert Run(Next(s, step), [], Next(s, step));
  }

  lemma InitHealthy(records: Cluster, links: Cluster)
    ensures Inv(Init(records, links)) && Healthy(Init(records, links))
  {
    InitInv(records, links);
    hide Inv;
  }
}
