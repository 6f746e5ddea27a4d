/**
  Direct deletes against buffered puts of the same key: when a delete lasts, and
  when a put that was admitted before it brings the key back.
*/
module ValsDeletes {
  import opened Common
  import opened ValsModel
  import opened ValsProtocol
  import T = ValsTheorems
  import D = ValsDrops

  /** The entries of a flush that a PutBatch may still write: not those of a chunk already decided. */
  function ToPut(j: Job, g: Signals): seq<KV>
    requires Active(j)
  {
    if j.pc.Settle? || (j.pc == Recheck && D.DeadlinePassed(g)) then j.taken[Min(j.start + MAX_BATCH, |j.taken|)..]
    else j.taken[j.start..]
  }

  /** A put of the key has been admitted and may still be written. */
  predicate PutPending(z: ZoneState, g: Signals, k: Bytes) {
    HasKey(z.shelf.buffer, k) || (Active(z.job) && HasKey(ToPut(z.job, g), k))
  }

  /** The entries admitted after the first n put other keys. */
  predicate NoPutAfter(z: ZoneState, n: nat, k: Bytes) {
    forall i :: n <= i < |z.history| ==> z.history[i].key != k
  }

  // ------------------------------------------------------------------- sequences

  lemma KeyInSplit(es: seq<KV>, n: nat, k: Bytes)
    requires n <= |es|
    ensures HasKey(es, k) <==> HasKey(es[..n], k) || HasKey(es[n..], k)
  {
    if HasKey(es, k) {
      var i :| 0 <= i < |es| && es[i].key == k;
      if i < n { assert es[..n][i].key == k; } else { assert es[n..][i - n].key == k; }
    }
    if HasKey(es[..n], k) {
      var i :| 0 <= i < n && es[..n][i].key == k;
      assert es[i].key == k;
    }
    if HasKey(es[n..], k) {
      var i :| 0 <= i < |es| - n && es[n..][i].key == k;
      assert es[n + i].key == k;
    }
  }

  lemma KeyInSnoc(es: seq<KV>, kv: KV, k: Bytes)
    ensures HasKey(es + [kv], k) <==> HasKey(es, k) || kv.key == k
  {
    KeyInSplit(es + [kv], |es|, k);
    assert (es + [kv])[..|es|] == es && (es + [kv])[|es|..] == [kv];
    assert HasKey([kv], k) <==> [kv][0].key == k;
  }

  lemma {:induction false} PutsItsKeys(m: Cluster, es: seq<KV>, k: Bytes)
    requires HasKey(es, k)
    ensures k in PutAll(m, es)
  {
    var init := es[..|es| - 1];
    if es[|es| - 1].key != k {
      var i :| 0 <= i < |es| && es[i].key == k;
      assert init[i].key == k;
      PutsItsKeys(m, init, k);
    }
  }

  /** The entries of a flush from its current chunk on. */
  lemma ChunkAndRest(j: Job, k: Bytes)
    requires Active(j)
    ensures HasKey(j.taken[j.start..], k)
            <==> HasKey(CurrentChunk(j), k) || HasKey(j.taken[Min(j.start + MAX_BATCH, |j.taken|)..], k)
  {
    var end := Min(j.start + MAX_BATCH, |j.taken|);
    KeyInSplit(j.taken[j.start..], end - j.start, k);
    assert j.taken[j.start..][..end - j.start] == CurrentChunk(j);
    assert j.taken[j.start..][end - j.start..] == j.taken[end..];
  }

  // ------------------------------------------------------------- the drain's moves

  /** No drain move writes the key of a put that is not pending. */
  lemma DrainKeepsAbsent(z: ZoneState, d: DrainStep, g: Signals, k: Bytes)
    requires DrainEnabled(z, d, g) && !PutPending(z, g, k) && k !in z.cluster
    ensures !PutPending(Drain(z, d, g), g, k) && k !in Drain(z, d, g).cluster
  {
    hide HasKey;
    ChunkAndRest(z.job, k);
    match d {
      case PutBatch(o, after) => RefusedOrNot(z, o, after, k);
      case SettleChunk => SettledRest(z, g, k);
      case _ =>
    }
  }

  lemma RefusedOrNot(z: ZoneState, o: Outcome, after: Cluster, k: Bytes)
    requires Active(z.job) && PutBatchEffect(z.cluster, CurrentChunk(z.job), o, after)
    requires !HasKey(CurrentChunk(z.job), k)
    ensures k in after <==> k in z.cluster
  {
    PutAllLocal(z.cluster, z.cluster, CurrentChunk(z.job), k);
    assert Lookup(after, k) == Lookup(z.cluster, k);
  }

  lemma SettledRest(z: ZoneState, g: Signals, k: Bytes)
    requires Active(z.job) && z.job.pc.Settle?
    ensures PutPending(ZoneSettle(z), g, k) <==> PutPending(z, g, k)
  {
    var j, j' := z.job, ZoneSettle(z).job;
    if Active(j') {
      assert j.taken[Min(j.start + MAX_BATCH, |j.taken|)..] == j'.taken[j'.start..];
    } else {
      assert j.taken[Min(j.start + MAX_BATCH, |j.taken|)..] == [];
    }
  }

  // ------------------------------------------------------------------ other moves

  /** What a step that is not the records zone's own drain can do to it. */
  datatype Effect = Nothing | Took | Joined | Appended(kv: KV) | Deleted(key: Bytes)

  predicate HasEffect(z: ZoneState, e: Effect, t: ZoneState) {
    && t.history == (if e.Appended? then z.history + [e.kv] else z.history)
    && t.cluster == (if e.Deleted? then z.cluster - {e.key} else z.cluster)
    && t.shelf.buffer == (if e.Took? then [] else if e.Appended? then z.shelf.buffer + [e.kv] else z.shelf.buffer)
    && (if e.Took? then z.job.NoJob? && t.job == Job(z.shelf.buffer, 0, Attempt, Retry(0, 0))
        else if e.Joined? then !Active(z.job) && !Active(t.job)
        else t.job == z.job)
  }

  lemma AdmitEffect(s: State, p: nat) returns (e: Effect)
    requires At(s, p).Entering? && At(s, p).call < |s.calls|
    ensures HasEffect(s.records, e, DoAdmit(s, p).records) && (e.Nothing? || e.Appended?)
  {
    hide Buffered;
    e := if At(s, p).zone == Records then Appended(At(s, p).kv) else Nothing;
  }

  lemma RefuseEffect(s: State, p: nat)
    requires At(s, p).Entering? && At(s, p).call < |s.calls|
    ensures HasEffect(s.records, Nothing, DoRefuse(s, p).records)
  {
    hide Buffered;
  }

  lemma ProduceEffect(s: State, p: nat, ps: ProducerStep) returns (e: Effect)
    requires Enabled(s, Produce(p, ps))
    ensures HasEffect(s.records, e, DoProduce(s, p, ps).records) && (e.Nothing? || e.Appended?)
  {
    hide Buffered, DoRefuse, DoAdmit;
    e := Nothing;
    if ps.PushLock? {
      RefuseEffect(s, p);
      if !s.closed && Buffered(s) < BUFFER_CAP { e := AdmitEffect(s, p); }
    }
  }

  lemma FlushEffect(s: State, fs: FlusherStep)
    requires Bounded(s) && Enabled(s, Flush(fs))
    ensures HasEffect(s.records, if fs == Take then Took else if fs == Join then Joined else Nothing, DoFlush(s, fs).records)
  {
    hide WakeAll, Buffered;
  }

  lemma ShutdownEffect(s: State, ss: ShutdownStep)
    requires Enabled(s, Shutdown(ss))
    ensures HasEffect(s.records, Nothing, DoShutdown(s, ss).records)
  {
    hide WakeAll, Remaining, Lost;
  }

  lemma StepEffect(s: State, step: Step) returns (e: Effect)
    requires Bounded(s) && Enabled(s, step) && !(step.Drains? && step.zone == Records)
    ensures HasEffect(s.records, e, Next(s, step).records)
    ensures e.Appended? ==> step.Produce?
  {
    hide DoFlush, DoShutdown, DoProduce, Drain, DrainEnabled, Bounded;
    match step {
      case Drains(_, _) => e := Nothing;
      case Flush(fs) => FlushEffect(s, fs); e := if fs == Take then Took else if fs == Join then Joined else Nothing;
      case Produce(p, ps) => e := ProduceEffect(s, p, ps);
      case Shutdown(ss) => ShutdownEffect(s, ss); e := Nothing;
      case DeleteKey(key) => e := Deleted(key);
    }
  }

  lemma EffectKeepsAbsent(z: ZoneState, e: Effect, t: ZoneState, g: Signals, k: Bytes)
    requires HasEffect(z, e, t) && !PutPending(z, g, k) && k !in z.cluster
    requires e.Appended? ==> e.kv.key != k
    ensures !PutPending(t, g, k) && k !in t.cluster
  {
    hide HasKey;
    match e {
      case Appended(kv) => KeyInSnoc(z.shelf.buffer, kv, k);
      case Took => NoKeys(k);
      case _ =>
    }
    if t.job.Job? && t.job.taken == z.shelf.buffer && t.job.start == 0 { assert t.job.taken[0..] == z.shelf.buffer; }
  }

  lemma NoKeys(k: Bytes)
    ensures !HasKey([], k)
  {
  }

  /** Signals only rise, and a risen one can only end a chunk. */
  lemma SignalsKeepAbsent(z: ZoneState, g: Signals, g': Signals, k: Bytes)
    requires !PutPending(z, g, k) && (g.expired ==> g'.expired) && (g.ctxInstalled ==> g'.ctxInstalled)
    ensures !PutPending(z, g', k)
  {
    hide HasKey;
    if Active(z.job) { ChunkAndRest(z.job, k); }
  }

  lemma StepHistory(s: State, step: Step)
    requires Bounded(s) && Enabled(s, step)
    ensures s.records.history <= Next(s, step).records.history
  {
    hide Next, Enabled, Bounded;
    if step.Drains? && step.zone == Records {
      D.OwnDrain(s, step.ds, Records);
      DrainFrame(s.records, step.ds, s.signals);
    } else {
      var e := StepEffect(s, step);
    }
  }

  lemma SignalsRise(s: State, step: Step)
    requires Enabled(s, step)
    ensures s.signals.expired ==> Next(s, step).signals.expired
    ensures s.signals.ctxInstalled ==> Next(s, step).signals.ctxInstalled
  {
    hide Next, Enabled, ZoneOf;
    if step.Drains? { D.OwnDrain(s, step.ds, step.zone); } else { D.OtherUntouched(s, step, Records); }
  }

  lemma StepKeepsAbsent(s: State, step: Step, n: nat, k: Bytes)
    requires Bounded(s) && Enabled(s, step) && n <= |s.records.history|
    requires !PutPending(s.records, s.signals, k) && k !in s.records.cluster
    requires NoPutAfter(Next(s, step).records, n, k)
    ensures !PutPending(Next(s, step).records, Next(s, step).signals, k) && k !in Next(s, step).records.cluster
  {
    hide Next, Enabled, Bounded, PutPending;
    if step.Drains? && step.zone == Records {
      D.OwnDrain(s, step.ds, Records);
      DrainKeepsAbsent(s.records, step.ds, s.signals, k);
    } else {
      var e := StepEffect(s, step);
      if e.Appended? { assert Next(s, step).records.history[|s.records.history|] == e.kv; }
      EffectKeepsAbsent(s.records, e, Next(s, step).records, s.signals, k);
    }
    SignalsRise(s, step);
    SignalsKeepAbsent(Next(s, step).records, s.signals, Next(s, step).signals, k);
  }

  /** An absent key with no put pending stays absent until one is admitted. */
  lemma {:induction false} AbsentStays(s: State, steps: seq<Step>, t: State, k: Bytes)
    requires Inv(s) && Run(s, steps, t)
    requires !PutPending(s.records, s.signals, k) && k !in s.records.cluster
    requires NoPutAfter(t.records, |s.records.history|, k)
    ensures !PutPending(t.records, t.signals, k) && k !in t.records.cluster
    ensures s.records.history <= t.records.history
    decreases |steps|
  {
    hide Enabled, Next, PutPending, ZonesInv, ShutdownOrder, Announced, CallsInv, NilInv, Bounded, ZoneOf;
    if steps != [] {
      var mid := D.LastStep(s, steps, t);
      InvRun(s, steps[..|steps| - 1], mid);
      StepHistory(mid, steps[|steps| - 1]);
      assert forall i :: 0 <= i < |mid.records.history| ==> mid.records.history[i] == t.records.history[i];
      AbsentStays(s, steps[..|steps| - 1], mid, k);
      StepKeepsAbsent(mid, steps[|steps| - 1], |s.records.history|, k);
    }
  }

  // -------------------------------------------------------------- bringing it back

  /** The next move of the flusher side when every batch is accepted. */
  lemma HealthyMove(s: State) returns (step: Step)
    requires Inv(s) && s.flusher != Exited
    ensures Bounded(s) && Enabled(s, step) && T.FlusherSide(step)
    ensures step == Flush(Take) <==> s.flusher.Taking?
    ensures step.Drains? && step.ds.PutBatch? ==> step.ds.outcome == Success
    ensures step.Drains? && step.zone == Records ==>
              Active(s.records.job) && step.ds == T.ZoneMove(s.records, s.signals)
  {
    hide ZonesInv, Announced, CallsInv, NilInv, ShutdownOrder, DrainEnabled;
    match s.flusher {
      case Selecting => step := Flush(Tick);
      case Taking(_) => step := Flush(Take);
      case Draining(_) =>
        if Active(s.records.job) { step := Drains(Records, T.ZoneMove(s.records, s.signals)); }
        else if Active(s.links.job) { step := Drains(Backlinks, T.ZoneMove(s.links, s.signals)); }
        else { step := Flush(Join); }
    }
  }

  /** A healthy drain of the records zone writes the pending put, or keeps it pending. */
  lemma DrainBringsPut(z: ZoneState, g: Signals, k: Bytes)
    requires Active(z.job) && PutPending(z, g, k)
    ensures var t := Drain(z, T.ZoneMove(z, g), g);
            k in t.cluster || PutPending(t, g, k)
  {
    hide HasKey;
    ChunkAndRest(z.job, k);
    match z.job.pc {
      case Attempt =>
        if HasKey(CurrentChunk(z.job), k) { PutsItsKeys(z.cluster, CurrentChunk(z.job), k); }
      case Settle(_) => SettledRest(z, g, k);
      case _ =>
    }
  }

  lemma EffectKeepsPending(z: ZoneState, e: Effect, t: ZoneState, g: Signals, k: Bytes)
    requires HasEffect(z, e, t) && PutPending(z, g, k) && !e.Appended?
    ensures PutPending(t, g, k)
    ensures HasKey(t.shelf.buffer, k) <==> HasKey(z.shelf.buffer, k) && !e.Took?
  {
    hide HasKey;
    NoKeys(k);
    if e.Took? { assert t.job.taken[0..] == z.shelf.buffer; }
  }

  lemma SignalsSame(s: State, step: Step)
    requires Enabled(s, step) && T.FlusherSide(step)
    ensures Next(s, step).signals == s.signals
  {
    hide Drain, DrainEnabled, WakeAll;
  }

  /** One healthy move: nothing is admitted, and the put is written or still pending. */
  lemma MoveBringsPut(s: State, k: Bytes) returns (step: Step)
    requires Inv(s) && PutPending(s.records, s.signals, k)
    ensures Enabled(s, step) && T.FlusherSide(step)
    ensures step.Drains? && step.ds.PutBatch? ==> step.ds.outcome == Success
    ensures var t := Next(s, step);
            && t.records.history == s.records.history
            && (k in t.records.cluster || PutPending(t.records, t.signals, k))
            && (HasKey(t.records.shelf.buffer, k) ==> HasKey(s.records.shelf.buffer, k))
            && (step == Flush(Take) ==> HasKey(s.records.shelf.buffer, k) && !HasKey(t.records.shelf.buffer, k))
  {
    NotExited(s, k);
    hide Enabled, Next, Drain, DrainEnabled, HasKey, ZoneOf, PutPending, Inv;
    step := HealthyMove(s);
    SignalsSame(s, step);
    if step.Drains? && step.zone == Records {
      D.OwnDrain(s, step.ds, Records);
      DrainFrame(s.records, step.ds, s.signals);
      DrainBringsPut(s.records, s.signals, k);
    } else {
      var e := StepEffect(s, step);
      EffectKeepsPending(s.records, e, Next(s, step).records, s.signals, k);
    }
  }

  lemma NotExited(s: State, k: Bytes)
    requires Inv(s) && PutPending(s.records, s.signals, k)
    ensures s.flusher != Exited
    ensures s.flusher.Taking? ==> HasKey(s.records.shelf.buffer, k)
  {
    hide ZonesInv, Announced, CallsInv, NilInv, PcMatches;
    NoKeys(k);
    hide HasKey;
  }

  /** From any state with a put of the key pending, an accepting cluster lets a run write it, admitting nothing more. */
  lemma {:induction false} BringBack(s: State, k: Bytes) returns (steps: seq<Step>, t: State)
    requires Inv(s) && PutPending(s.records, s.signals, k)
    ensures Run(s, steps, t) && t.records.history == s.records.history && k in t.records.cluster
    decreases if HasKey(s.records.shelf.buffer, k) then 1 else 0, T.HealthyRank(s)
  {
    hide Enabled, Next, HasKey, PutPending, Inv, T.HealthyRank;
    var step := MoveBringsPut(s, k);
    var next := Next(s, step);
    if k in next.records.cluster {
      steps, t := [], next;
      NoMore(next);
    } else {
      InvStep(s, step);
      if step != Flush(Take) { T.HealthyRankStep(s, step); }
      steps, t := BringBack(next, k);
    }
    T.RunCons(s, step, steps, t, T.FlusherSide);
    steps := [step] + steps;
  }

  lemma NoMore(s: State)
    ensures Run(s, [], s)
  {
  }

  lemma DeleteStep(s: State, k: Bytes)
    ensures Enabled(s, DeleteKey(k))
    ensures var t := Next(s, DeleteKey(k));
            && k !in t.records.cluster
            && (forall j :: j != k ==> Lookup(t.records.cluster, j) == Lookup(s.records.cluster, j))
            && t.links == s.links && t.signals == s.signals
            && t.records.history == s.records.history && t.records.shelf == s.records.shelf && t.records.job == s.records.job
  {
  }

  /** In every continuation, the key stays away until a put of it is admitted. */
  ghost predicate StaysDeleted(s: State, k: Bytes) {
    forall steps: seq<Step>, t: State ::
      Run(Next(s, DeleteKey(k)), steps, t) && NoPutAfter(t.records, |s.records.history|, k) ==> k !in t.records.cluster
  }

  /**
    A direct delete lasts exactly if no put of the key is still on its way: one that
    is buffered, or in a flush and not decided yet, can bring the key back.
  */
  lemma DeleteLastsExactly(s: State, k: Bytes)
    requires Inv(s)
    ensures StaysDeleted(s, k) <==> !PutPending(s.records, s.signals, k)
  {
    var next := Next(s, DeleteKey(k));
    DeleteStep(s, k);
    InvStep(s, DeleteKey(k));
    hide Enabled, Next, Inv, Run, NoPutAfter, HasKey;
    if PutPending(s.records, s.signals, k) {
      var steps, t := BringBack(next, k);
      NothingAfter(t.records, k);
    } else {
      forall steps: seq<Step>, t: State | Run(next, steps, t) && NoPutAfter(t.records, |s.records.history|, k)
        ensures k !in t.records.cluster {
        AbsentStays(next, steps, t, k);
      }
    }
  }

  lemma NothingAfter(z: ZoneState, k: Bytes)
    ensures NoPutAfter(z, |z.history|, k)
  {
  }
}
