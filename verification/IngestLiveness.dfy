/**
  What decides the answer of a shutdown of the whole ingester, and that a clean one is
  possible: with no callback at work and a store that can still be drained, some run
  ends with nil and the cursor saved.
*/
module IngestLiveness {
  import opened Common
  import opened ValsModel
  import opened IngestProtocol
  import V = ValsProtocol
  import T = ValsTheorems
  import L = ValsLiveness

  lemma {:induction false} RunConcat(s: State, a: seq<Step>, mid: State, b: seq<Step>, t: State)
    requires Run(s, a, mid) && Run(mid, b, t)
    ensures Run(s, a + b, t)
    decreases |a|
  {
    hide Enabled, Next;
    if a == [] {
      assert a + b == b;
    } else {
      assert (a + b)[1..] == a[1..] + b;
      RunConcat(Next(s, a[0]), a[1..], mid, b, t);
    }
  }

  lemma RunSnoc(s: State, a: seq<Step>, mid: State, step: Step)
    requires Run(s, a, mid) && Enabled(mid, step)
    ensures Run(s, a + [step], Next(mid, step))
  {
    hide Run, Enabled, Next;
    RunOne(mid, step);
    RunConcat(s, a, mid, [step], Next(mid, step));
  }

  /** The store's moves as the ingester's. */
  function StoreSteps(vs: seq<V.Step>): seq<Step> {
    if vs == [] then [] else [Store(vs[0])] + StoreSteps(vs[1..])
  }

  /** A run of the store's own moves is a run of the ingester that changes nothing else. */
  lemma {:induction false} Lift(s: State, vs: seq<V.Step>, v: V.State)
    requires V.Run(s.vals, vs, v) && forall i :: 0 <= i < |vs| ==> Autonomous(vs[i])
    ensures Run(s, StoreSteps(vs), s.(vals := v))
    decreases |vs|
  {
    hide V.Enabled, V.Next, Autonomous;
    if vs != [] {
      var next := s.(vals := V.Next(s.vals, vs[0]));
      Lift(next, vs[1..], v);
      StoreStep(s, vs[0]);
      assert StoreSteps(vs)[1..] == StoreSteps(vs[1..]);
      hide Enabled, Next;
    }
  }

  lemma StoreStep(s: State, v: V.Step)
    requires V.Enabled(s.vals, v) && Autonomous(v)
    ensures Enabled(s, Store(v)) && Next(s, Store(v)) == s.(vals := V.Next(s.vals, v))
  {
    hide V.Enabled, V.Next, Autonomous;
  }

  /** Up to the end of the wait for active work. */
  lemma Quiesce(s: State) returns (steps: seq<Step>, t: State)
    requires Inv(s) && s.active == {} && (s.closer == NotClosing || s.closer.Returned?) && L.Healthy(s.vals)
    ensures Run(s, steps, t) && t.closer == Quiesced && L.Healthy(t.vals) && t.vals.signals.wakeClosed
    ensures t.cursor == s.cursor
  {
    hide V.Next, V.Enabled, V.Inv, ProducersActive, NothingRefused, CloserOrder, CursorFacts, L.Healthy;
    var v1, v2 := Signal(s.vals);
    var a := s.(admissionClosed := true, closer := Notifying);
    OneStep(s, CloseStart, a);
    StoreStep(a, V.Shutdown(V.InstallCtx));
    var b := a.(vals := v1);
    StoreStep(b, V.Shutdown(V.CloseWake));
    var c := b.(vals := v2);
    assert Enabled(c, SinksNotified);
    var d := c.(closer := StoppingBackfill);
    var e := d.(closer := Quiescing);
    t := e.(closer := Quiesced);
    SixSteps(s, a, b, c, d, e, CloseStart, Store(V.Shutdown(V.InstallCtx)), Store(V.Shutdown(V.CloseWake)),
             SinksNotified, BackfillStopped(true), WorkDone);
    steps := [CloseStart] + ([Store(V.Shutdown(V.InstallCtx))] + ([Store(V.Shutdown(V.CloseWake))]
             + ([SinksNotified] + ([BackfillStopped(true)] + [WorkDone]))));
  }

  lemma OneStep(s: State, step: Step, t: State)
    requires step == CloseStart && (s.closer == NotClosing || s.closer.Returned?)
    requires t == s.(admissionClosed := true, closer := Notifying)
    ensures Enabled(s, step) && Next(s, step) == t
  {
  }

  lemma Signal(s: V.State) returns (a: V.State, b: V.State)
    requires V.Inv(s) && L.Healthy(s)
    ensures V.Enabled(s, V.Shutdown(V.InstallCtx)) && a == V.Next(s, V.Shutdown(V.InstallCtx))
    ensures V.Enabled(a, V.Shutdown(V.CloseWake)) && b == V.Next(a, V.Shutdown(V.CloseWake))
    ensures b.signals.wakeClosed && L.Healthy(b)
  {
    assert V.Enabled(s, V.Shutdown(V.InstallCtx));
    a := V.Next(s, V.Shutdown(V.InstallCtx));
    V.InvStep(s, V.Shutdown(V.InstallCtx));
    L.ShutdownKeepsHealthy(s, V.InstallCtx);
    assert V.Enabled(a, V.Shutdown(V.CloseWake));
    b := V.Next(a, V.Shutdown(V.CloseWake));
    L.ShutdownKeepsHealthy(a, V.CloseWake);
    hide V.Next, V.Enabled;
  }

  /** The sink's drain, up to the moment the store is done. */
  lemma DrainSink(s: State) returns (steps: seq<Step>, t: State)
    requires Inv(s) && s.closer == Quiesced && L.Healthy(s.vals) && s.vals.signals.wakeClosed
    ensures Run(s, steps, t) && t.closer == AwaitingDrain && t.cursor == s.cursor && t.putting == s.putting
    ensures t.vals.closeFinished && V.Remaining(t.vals) == 0 && V.Lost(t.vals) == 0
  {
    hide V.Next, V.Enabled, V.Inv, ProducersActive, NothingRefused, CloserOrder, CursorFacts, L.Healthy, V.Lost, V.Remaining, Run;
    var closed := CloseStore(s.vals);
    var vs, drained := L.DrainAll(closed);
    V.InvRun(closed, vs, drained);
    var done := FinishStore(drained);
    var mid := s.(vals := closed, closer := AwaitingDrain);
    SinkStep(s, mid);
    MovesAreAutonomous(vs);
    Lift(mid, vs, drained);
    var m2 := mid.(vals := drained);
    StoreStep(m2, V.Shutdown(V.CloserDone));
    t := m2.(vals := done);
    RunOne(s, CloseSink);
    RunConcat(s, [CloseSink], mid, StoreSteps(vs), m2);
    RunSnoc(s, [CloseSink] + StoreSteps(vs), m2, Store(V.Shutdown(V.CloserDone)));
    steps := [CloseSink] + StoreSteps(vs) + [Store(V.Shutdown(V.CloserDone))];
  }

  lemma MovesAreAutonomous(vs: seq<V.Step>)
    requires forall i :: 0 <= i < |vs| ==> T.FlusherMove(vs[i])
    ensures forall i :: 0 <= i < |vs| ==> Autonomous(vs[i])
  {
    forall i | 0 <= i < |vs| ensures Autonomous(vs[i]) {
      assert T.FlusherMove(vs[i]);
    }
  }

  lemma SinkStep(s: State, t: State)
    requires s.closer == Quiesced && V.Enabled(s.vals, V.Shutdown(V.CloseLock))
    requires t == s.(vals := V.Next(s.vals, V.Shutdown(V.CloseLock)), closer := AwaitingDrain)
    ensures Enabled(s, CloseSink) && Next(s, CloseSink) == t
  {
    hide V.Next, V.Enabled;
  }

  lemma CloseStore(s: V.State) returns (t: V.State)
    requires V.Inv(s) && L.Healthy(s) && s.signals.wakeClosed
    ensures V.Enabled(s, V.Shutdown(V.CloseLock)) && t == V.Next(s, V.Shutdown(V.CloseLock))
    ensures V.Inv(t) && L.Healthy(t) && t.closed
  {
    assert V.Enabled(s, V.Shutdown(V.CloseLock));
    t := V.Next(s, V.Shutdown(V.CloseLock));
    V.InvStep(s, V.Shutdown(V.CloseLock));
    L.ShutdownKeepsHealthy(s, V.CloseLock);
    hide V.Next, V.Enabled, V.Inv;
  }

  lemma FinishStore(s: V.State) returns (t: V.State)
    requires V.Inv(s) && L.Healthy(s) && s.closed && s.flusher == V.Exited
    ensures V.Enabled(s, V.Shutdown(V.CloserDone)) && t == V.Next(s, V.Shutdown(V.CloserDone))
    ensures t.closeFinished && V.Remaining(t) == 0 && V.Lost(t) == 0
  {
    L.ExitedIsEmpty(s);
    t := V.Next(s, V.Shutdown(V.CloserDone));
    hide V.Inv;
  }

  lemma Verdict(s: State) returns (t: State)
    requires s.closer == AwaitingDrain && s.vals.closeFinished && V.Remaining(s.vals) == 0 && V.Lost(s.vals) == 0
    ensures Enabled(s, DrainReturned(false)) && t == Next(s, DrainReturned(false))
    ensures t.closer == Saving && t.cursor == s.cursor
  {
    assert V.Enabled(s.vals, V.Shutdown(V.CloseReturn));
    hide V.Next, V.Enabled, V.Remaining, V.Lost;
    t := Next(s, DrainReturned(false));
  }

  lemma SaveSteps(s: State) returns (b: State, c: State, t: State)
    requires s.closer == Saving && s.cursor != 0
    ensures Enabled(s, SaveStart) && b == Next(s, SaveStart)
    ensures Enabled(b, PutLands) && c == Next(b, PutLands)
    ensures Enabled(c, SaveReturned(true)) && t == Next(c, SaveReturned(true))
    ensures t == s.(putting := Some(s.cursor), stored := Some(s.cursor), closer := Returned(true))
  {
    b := s.(putting := Some(s.cursor), closer := AwaitingPut);
    c := b.(stored := b.putting);
    t := c.(closer := Returned(true));
  }

  lemma SkipStep(s: State)
    requires s.closer == Saving && s.cursor == 0
    ensures Enabled(s, SaveSkipped) && Next(s, SaveSkipped) == s.(closer := Returned(true))
  {
  }

  /** The verdict and the cursor. */
  lemma SaveLast(s: State) returns (steps: seq<Step>, t: State)
    requires s.closer == AwaitingDrain && s.vals.closeFinished && V.Remaining(s.vals) == 0 && V.Lost(s.vals) == 0
    ensures Run(s, steps, t) && t.closer == Returned(true) && t.cursor == s.cursor
    ensures s.cursor != 0 ==> t.stored == Some(s.cursor)
  {
    hide *;
    var a := Verdict(s);
    RunOne(s, DrainReturned(false));
    steps := [DrainReturned(false)];
    if s.cursor == 0 {
      SkipStep(a);
      t := Next(a, SaveSkipped);
      RunSnoc(s, steps, a, SaveSkipped);
      steps := steps + [SaveSkipped];
    } else {
      var b, c;
      b, c, t := SaveSteps(a);
      RunSnoc(s, steps, a, SaveStart);
      RunSnoc(s, steps + [SaveStart], b, PutLands);
      RunSnoc(s, steps + [SaveStart] + [PutLands], c, SaveReturned(true));
      steps := steps + [SaveStart] + [PutLands] + [SaveReturned(true)];
    }
  }

  /**
    With no callback at work, no close under way and a store that can still be
    drained, a shutdown can end with nil and the current cursor stored.
  */
  lemma CleanShutdownExists(s: State) returns (steps: seq<Step>, t: State)
    requires Inv(s) && s.active == {} && (s.closer == NotClosing || s.closer.Returned?) && L.Healthy(s.vals)
    ensures Run(s, steps, t) && t.closer == Returned(true) && AllDurable(t)
    ensures s.cursor != 0 ==> t.stored == Some(s.cursor)
  {
    hide Run, Inv, L.Healthy, V.Lost, V.Remaining;
    var a, quiet := Quiesce(s);
    InvRun(s, a, quiet);
    var b, drained := DrainSink(quiet);
    var c;
    c, t := SaveLast(drained);
    RunConcat(s, a, quiet, b, drained);
    RunConcat(s, a + b, drained, c, t);
    steps := a + b + c;
    InvRun(s, steps, t);
    ReturnedNil(t);
    NilAndQuietIsDurable(t);
  }

  lemma ReturnedNil(t: State)
    requires Inv(t) && t.closer == Returned(true)
    ensures t.vals.nilReturned
  {
  }

  // ------------------------------------------------------------- the answer

  /** The world's answer to one of the shutdown's waits was an error. */
  predicate Fails(step: Step) {
    step == BackfillStopped(false) || step == WorkTimeout || step == DrainReturned(true) || step == SaveReturned(false)
  }

  /** Some answer since the last CloseContext began was an error. */
  predicate SomeFailed(steps: seq<Step>) {
    if steps == [] || steps[|steps| - 1] == CloseStart then false
    else Fails(steps[|steps| - 1]) || SomeFailed(steps[..|steps| - 1])
  }

  /** Where a close stands, given whether one of its answers was an error. */
  predicate Answered(s: State, failed: bool) {
    && (!s.closer.Returned? || s.closer == Returned(true) ==> !failed)
    && (s.closer == Returned(false) ==> failed || V.Lost(s.vals) > 0)
  }

  lemma LossesStay(s: State, step: Step)
    requires V.Inv(s.vals) && Enabled(s, step)
    ensures V.Lost(Next(s, step).vals) >= V.Lost(s.vals)
  {
    StorePartMoves(s, step);
    hide Next, Enabled, V.Next, V.Enabled, V.Bounded, V.ZonesInv, V.ShutdownOrder, V.Announced, V.CallsInv, V.NilInv;
    if StorePart(s, step).Some? {
      L.ZoneSpoils(s.vals, StorePart(s, step).value, Records);
      L.ZoneSpoils(s.vals, StorePart(s, step).value, Backlinks);
    }
  }

  lemma FinishedIsEmpty(s: V.State)
    requires V.Inv(s) && s.closeFinished
    ensures V.Remaining(s) == 0
  {
    assert s.flusher == V.Exited;
    L.ExitedIsEmpty(s);
    hide V.Inv, V.Remaining;
  }

  lemma AnswerStep(s: State, step: Step, failed: bool)
    requires V.Inv(s.vals) && Enabled(s, step) && Answered(s, failed)
    ensures Answered(Next(s, step), step != CloseStart && (Fails(step) || failed))
  {
    hide V.Next, V.Enabled, V.Inv, V.Lost, V.Remaining, V.At, Autonomous;
    LossesStay(s, step);
    if step == DrainReturned(false) { FinishedIsEmpty(s.vals); }
  }

  /** The state before the last step. */
  lemma {:induction false} LastStep(s: State, steps: seq<Step>, t: State) returns (mid: State)
    requires Run(s, steps, t) && steps != []
    ensures Run(s, steps[..|steps| - 1], mid)
    ensures Enabled(mid, steps[|steps| - 1]) && t == Next(mid, steps[|steps| - 1])
    decreases |steps|
  {
    hide Enabled, Next;
    if |steps| == 1 {
      mid := s;
      assert steps[1..] == [] && steps[..0] == [];
    } else {
      mid := LastStep(Next(s, steps[0]), steps[1..], t);
      assert steps[1..][..|steps| - 2] == steps[..|steps| - 1][1..];
    }
  }

  lemma {:induction false} AnswerRun(s: State, steps: seq<Step>, t: State)
    requires Inv(s) && Answered(s, false) && Run(s, steps, t)
    ensures Inv(t) && Answered(t, SomeFailed(steps))
    decreases |steps|
  {
    hide Enabled, Next, V.Inv, ProducersActive, NothingRefused, CloserOrder, CursorFacts, Answered;
    if steps != [] {
      var mid := LastStep(s, steps, t);
      AnswerRun(s, steps[..|steps| - 1], mid);
      AnswerStep(mid, steps[|steps| - 1], SomeFailed(steps[..|steps| - 1]));
      InvStep(mid, steps[|steps| - 1]);
    }
  }

  /**
    A CloseContext that has returned answered nil exactly if the backfiller stopped,
    the wait ended, the drain finished before the deadline, the cursor was saved and
    nothing was lost.
  */
  lemma AnswerIsExact(records: Cluster, links: Cluster, saver: bool, loaded: nat, steps: seq<Step>, t: State, ok: bool)
    requires Run(Init(records, links, saver, loaded), steps, t) && t.closer == Returned(ok)
    ensures ok <==> !SomeFailed(steps) && V.Lost(t.vals) == 0
  {
    InitInv(records, links, saver, loaded);
    AnswerRun(Init(records, links, saver, loaded), steps, t);
    if ok {
      ReturnedNil(t);
      NilAndQuietIsDurable(t);
    }
    hide Run, Inv, SomeFailed, V.Lost;
  }
}
