/**
  When a chunk may be given up, counted in the outcomes of a run: only after seven
  hard failures of its own, or once a shutdown deadline is installed and has passed.
*/
module ValsDrops {
  import opened Common
  import opened ValsModel
  import opened ValsProtocol
  import T = ValsTheorems

  /** The step begins a new chunk in the zone, or leaves none. */
  predicate StartsChunk(step: Step, z: Zone) {
    step == Flush(Take) || step == Drains(z, SettleChunk)
  }

  predicate HardFailure(step: Step, z: Zone) {
    step.Drains? && step.zone == z && step.ds.PutBatch? && step.ds.outcome == Hard
  }

  /** Hard failures of the zone's current chunk after these steps, given those it had before them. */
  function Hards(before: nat, steps: seq<Step>, z: Zone): nat {
    if steps == [] then before
    else
      var init, last := steps[..|steps| - 1], steps[|steps| - 1];
      if StartsChunk(last, z) then 0
      else Hards(before, init, z) + (if HardFailure(last, z) then 1 else 0)
  }

  /** The state before the last step. */
  lemma {:induction false} LastStep(s: State, steps: seq<Step>, t: State) returns (mid: State)
    requires Run(s, steps, t) && steps != []
    ensures Run(s, steps[..|steps| - 1], mid)
    ensures Enabled(mid, steps[|steps| - 1]) && t == Next(mid, steps[|steps| - 1])
    decreases |steps|
  {
    hide Enabled, Next;
    if |steps| == 1 {
      mid := s;
      assert steps[1..] == [] && steps[..0] == [];
    } else {
      mid := LastStep(Next(s, steps[0]), steps[1..], t);
      assert steps[1..][..|steps| - 2] == steps[..|steps| - 1][1..];
    }
  }

  // ------------------------------------------------------------------- the budget

  predicate DeadlinePassed(g: Signals) {
    g.ctxInstalled && g.expired
  }

  /** The job knows its chunk's hard failures, and a chunk given up has a reason. */
  predicate Budgeted(j: Job, h: nat, g: Signals) {
    j.Job? ==> j.retry.hard == h && (j.pc == Settle(false) ==> h >= 7 || DeadlinePassed(g))
  }

  /** Seven hard failures do give a chunk up. */
  predicate SeventhDrops(j: Job, h: nat) {
    j.Job? ==> h <= 7 && (h == 7 ==> j.pc == Settle(false))
  }

  lemma DrainBudget(z: ZoneState, d: DrainStep, g: Signals, h: nat)
    requires DrainEnabled(z, d, g) && Budgeted(z.job, h, g)
    requires z.job.Job? && z.job.pc == SleepDeadline ==> g.ctxInstalled
    ensures var h' := if d.SettleChunk? then 0 else h + (if d.PutBatch? && d.outcome == Hard then 1 else 0);
            && Budgeted(Drain(z, d, g).job, h', g)
            && (SeventhDrops(z.job, h) ==> SeventhDrops(Drain(z, d, g).job, h'))
  {
  }

  /** What a step does to a zone it does not drain: a take starts a chunk afresh, and nothing is dropped. */
  predicate Untouched(s: State, step: Step, t: State, z: Zone) {
    && ZoneOf(t, z).shelf.dropped == ZoneOf(s, z).shelf.dropped
    && (if step == Flush(Take) then ZoneOf(t, z).job.Job? && ZoneOf(t, z).job.pc == Attempt && ZoneOf(t, z).job.retry == Retry(0, 0)
        else ZoneOf(t, z).job == ZoneOf(s, z).job || ZoneOf(t, z).job == NoJob)
    && (s.signals.ctxInstalled ==> t.signals.ctxInstalled)
    && (s.signals.expired ==> t.signals.expired)
  }

  lemma FlushUntouched(s: State, fs: FlusherStep, z: Zone)
    requires Enabled(s, Flush(fs))
    ensures Untouched(s, Flush(fs), DoFlush(s, fs), z)
  {
    hide WakeAll, AddU64;
  }

  lemma ShutdownUntouched(s: State, ss: ShutdownStep, z: Zone)
    requires Enabled(s, Shutdown(ss))
    ensures Untouched(s, Shutdown(ss), DoShutdown(s, ss), z)
  {
    hide WakeAll, Remaining, Lost;
  }

  lemma RefuseUntouched(s: State, p: nat, z: Zone)
    requires At(s, p).Entering? && At(s, p).call < |s.calls|
    ensures Untouched(s, Produce(p, PushLock), DoRefuse(s, p), z)
  {
    hide At;
  }

  lemma AdmitUntouched(s: State, p: nat, z: Zone)
    requires At(s, p).Entering? && At(s, p).call < |s.calls|
    ensures Untouched(s, Produce(p, PushLock), DoAdmit(s, p), z)
  {
    hide At, Buffered;
  }

  lemma ProduceUntouched(s: State, p: nat, ps: ProducerStep, z: Zone)
    requires Enabled(s, Produce(p, ps))
    ensures Untouched(s, Produce(p, ps), DoProduce(s, p, ps), z)
  {
    hide Buffered, DoRefuse, DoAdmit;
    if ps.PushLock? {
      RefuseUntouched(s, p, z);
      AdmitUntouched(s, p, z);
    }
  }

  lemma OtherUntouched(s: State, step: Step, z: Zone)
    requires Enabled(s, step) && !(step.Drains? && step.zone == z)
    ensures Untouched(s, step, Next(s, step), z)
  {
    hide DoFlush, DoShutdown, DoProduce, Drain, DrainEnabled;
    match step {
      case Drains(y, d) =>
      case Flush(fs) => FlushUntouched(s, fs, z);
      case Produce(p, ps) => ProduceUntouched(s, p, ps, z);
      case Shutdown(ss) => ShutdownUntouched(s, ss, z);
      case DeleteKey(_) =>
    }
  }

  lemma OwnDrain(s: State, d: DrainStep, z: Zone)
    requires Enabled(s, Drains(z, d))
    ensures DrainEnabled(ZoneOf(s, z), d, s.signals)
    ensures ZoneOf(Next(s, Drains(z, d)), z) == Drain(ZoneOf(s, z), d, s.signals)
    ensures Next(s, Drains(z, d)).signals == s.signals
  {
    hide Drain, DrainEnabled;
  }

  lemma ListensToDeadline(s: State, z: Zone)
    requires ShutdownOrder(s)
    ensures ZoneOf(s, z).job.Job? && ZoneOf(s, z).job.pc == SleepDeadline ==> s.signals.ctxInstalled
  {
  }

  /** What one step does to a zone's job, as far as the budget goes. */
  lemma StepBudget(s: State, step: Step, z: Zone, h: nat)
    requires ShutdownOrder(s) && Enabled(s, step) && Budgeted(ZoneOf(s, z).job, h, s.signals)
    ensures var h' := if StartsChunk(step, z) then 0 else h + (if HardFailure(step, z) then 1 else 0);
            && Budgeted(ZoneOf(Next(s, step), z).job, h', Next(s, step).signals)
            && (SeventhDrops(ZoneOf(s, z).job, h) ==> SeventhDrops(ZoneOf(Next(s, step), z).job, h'))
  {
    hide Next, Enabled, Drain, DrainEnabled, ShutdownOrder, ZoneOf;
    if step.Drains? && step.zone == z {
      OwnDrain(s, step.ds, z);
      ListensToDeadline(s, z);
      DrainBudget(ZoneOf(s, z), step.ds, s.signals, h);
    } else {
      OtherUntouched(s, step, z);
    }
  }

  /** The hard failures a state's current chunk has behind it. */
  function HardsAt(s: State, z: Zone): nat {
    if ZoneOf(s, z).job.Job? then ZoneOf(s, z).job.retry.hard else 0
  }

  lemma {:induction false} RunBudget(s: State, steps: seq<Step>, t: State, z: Zone)
    requires Inv(s) && Run(s, steps, t) && Budgeted(ZoneOf(s, z).job, HardsAt(s, z), s.signals)
    ensures Inv(t)
    ensures Budgeted(ZoneOf(t, z).job, Hards(HardsAt(s, z), steps, z), t.signals)
    ensures SeventhDrops(ZoneOf(s, z).job, HardsAt(s, z)) ==> SeventhDrops(ZoneOf(t, z).job, Hards(HardsAt(s, z), steps, z))
    decreases |steps|
  {
    hide Enabled, Next, ZonesInv, Bounded, ShutdownOrder, Announced, CallsInv, NilInv, Budgeted, SeventhDrops;
    InvRun(s, steps, t);
    if steps != [] {
      var mid := LastStep(s, steps, t);
      var init := steps[..|steps| - 1];
      RunBudget(s, init, mid, z);
      StepBudget(mid, steps[|steps| - 1], z, Hards(HardsAt(s, z), init, z));
    }
  }

  /** From an empty store: the exact place of a chunk that is about to be given up. */
  lemma ChunkGivenUp(records: Cluster, links: Cluster, steps: seq<Step>, t: State, z: Zone)
    requires Run(Init(records, links), steps, t) && Active(ZoneOf(t, z).job)
    ensures Hards(0, steps, z) <= 7
    ensures Hards(0, steps, z) == 7 ==> ZoneOf(t, z).job.pc == Settle(false)
    ensures ZoneOf(t, z).job.pc == Settle(false) ==>
              Hards(0, steps, z) == 7 || (t.signals.ctxInstalled && t.signals.expired)
  {
    InitInv(records, links);
    RunBudget(Init(records, links), steps, t, z);
    hide Inv, Run;
  }

  /** The cluster may answer anything: no outcome is ruled out, nor any partial write of a refused batch. */
  lemma AnyOutcome(s: State, z: Zone, o: Outcome, after: Cluster)
    requires Active(ZoneOf(s, z).job) && ZoneOf(s, z).job.pc == Attempt
    ensures o == Success && after == PutAll(ZoneOf(s, z).cluster, CurrentChunk(ZoneOf(s, z).job)) ==>
              Enabled(s, Drains(z, PutBatch(o, after)))
    ensures o != Success && (forall k :: !HasKey(CurrentChunk(ZoneOf(s, z).job), k) ==>
                               Lookup(after, k) == Lookup(ZoneOf(s, z).cluster, k)) ==>
              Enabled(s, Drains(z, PutBatch(o, after)))
  {
  }

  // ------------------------------------------------------------------- no drops

  lemma StepDrops(s: State, step: Step, z: Zone)
    requires Enabled(s, step)
    ensures ZoneOf(Next(s, step), z).shelf.dropped == ZoneOf(s, z).shelf.dropped
            || (step == Drains(z, SettleChunk) && ZoneOf(s, z).job.Job? && ZoneOf(s, z).job.pc == Settle(false))
  {
    hide Next, Enabled, Drain, DrainEnabled, ZoneOf;
    if step.Drains? && step.zone == z {
      OwnDrain(s, step.ds, z);
      DrainDrops(ZoneOf(s, z), step.ds, s.signals);
    } else {
      OtherUntouched(s, step, z);
    }
  }

  lemma DrainDrops(z: ZoneState, d: DrainStep, g: Signals)
    requires DrainEnabled(z, d, g)
    ensures Drain(z, d, g).shelf.dropped == z.shelf.dropped || (d.SettleChunk? && z.job.Job? && z.job.pc == Settle(false))
  {
  }

  /** No chunk of the zone is about to be given up. */
  predicate NothingGivenUp(s: State, z: Zone) {
    ZoneOf(s, z).job.Job? ==> ZoneOf(s, z).job.pc != Settle(false)
  }

  lemma ExpiryStays(s: State, step: Step)
    requires Enabled(s, step)
    ensures s.signals.expired ==> Next(s, step).signals.expired
  {
    T.FlagsStay(s, step);
  }

  /**
    Busy refusals drop nothing, however many there are: before the deadline, a run in
    which no chunk gets seven hard failures leaves the zone's dropped count as it was.
  */
  lemma {:induction false} NoDropWithoutCause(s: State, steps: seq<Step>, t: State, z: Zone)
    requires Inv(s) && Run(s, steps, t) && NothingGivenUp(s, z) && !t.signals.expired
    requires forall i :: 0 <= i <= |steps| ==> Hards(HardsAt(s, z), steps[..i], z) < 7
    ensures ZoneOf(t, z).shelf.dropped == ZoneOf(s, z).shelf.dropped
    decreases |steps|
  {
    hide Enabled, Next, Inv, ZoneOf;
    if steps != [] {
      var init, last := steps[..|steps| - 1], steps[|steps| - 1];
      var mid := LastStep(s, steps, t);
      ExpiryStays(mid, last);
      forall i | 0 <= i <= |init| ensures Hards(HardsAt(s, z), init[..i], z) < 7 {
        assert init[..i] == steps[..i];
      }
      NoDropWithoutCause(s, init, mid, z);
      RunBudget(s, init, mid, z);
      assert steps[..|init|] == init;
      StepDrops(mid, last, z);
    }
  }

  /** The same counted from an empty store, over the whole history of outcomes. */
  lemma NoDropBeforeSeven(records: Cluster, links: Cluster, steps: seq<Step>, t: State, z: Zone)
    requires Run(Init(records, links), steps, t) && !t.signals.expired
    requires forall i :: 0 <= i <= |steps| ==> Hards(0, steps[..i], z) < 7
    ensures ZoneOf(t, z).shelf.dropped == 0
  {
    InitInv(records, links);
    NoDropWithoutCause(Init(records, links), steps, t, z);
  }

  // ---------------------------------------------------------------------- wakeups

  function WakeOf(z: Zone): (which: Step -> bool) {
    step => step == Drains(z, WakeSeen)
  }

  function WakesLeft(s: State, z: Zone): nat {
    if !s.signals.ctxInstalled || (ZoneOf(s, z).job.Job? && ZoneOf(s, z).job.pc == SleepWake) then 1 else 0
  }

  lemma DrainWakes(z: ZoneState, d: DrainStep, g: Signals)
    requires DrainEnabled(z, d, g)
    ensures var j := Drain(z, d, g).job;
            j.Job? && (g.ctxInstalled ==> j.pc != SleepWake)
    ensures d == WakeSeen ==> z.job.Job? && z.job.pc == SleepWake && g.wakeClosed
  {
  }

  lemma StepWakes(s: State, step: Step, z: Zone)
    requires ShutdownOrder(s) && Enabled(s, step)
    ensures WakesLeft(Next(s, step), z) + (if step == Drains(z, WakeSeen) then 1 else 0) <= WakesLeft(s, z)
  {
    hide Next, Enabled, Drain, DrainEnabled, ZoneOf;
    if step.Drains? && step.zone == z {
      OwnDrain(s, step.ds, z);
      DrainWakes(ZoneOf(s, z), step.ds, s.signals);
    } else {
      OtherUntouched(s, step, z);
    }
  }

  lemma {:induction false} WakesRunOut(s: State, steps: seq<Step>, t: State, z: Zone)
    requires Inv(s) && Run(s, steps, t)
    ensures T.Count(steps, WakeOf(z)) + WakesLeft(t, z) <= WakesLeft(s, z)
    decreases |steps|
  {
    hide Enabled, Next, ZonesInv, Bounded, ShutdownOrder, Announced, CallsInv, NilInv, WakesLeft;
    if steps != [] {
      StepWakes(s, steps[0], z);
      InvStep(s, steps[0]);
      WakesRunOut(Next(s, steps[0]), steps[1..], t, z);
    }
  }

  /** Closing the wake channel cuts at most one sleep of a zone short, over a whole lifetime. */
  lemma WokenAtMostOnce(records: Cluster, links: Cluster, steps: seq<Step>, t: State, z: Zone)
    requires Run(Init(records, links), steps, t)
    ensures T.Count(steps, WakeOf(z)) <= 1
  {
    InitInv(records, links);
    WakesRunOut(Init(records, links), steps, t, z);
    hide Inv, Run;
  }
}
