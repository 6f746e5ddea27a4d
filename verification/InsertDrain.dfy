/**
  From a cut batch to a settled one, and how Close waits for it: producers and the
  flush loop dispatch batches through a semaphore, each insert runs in its own
  goroutine with a bounded number of attempts, and Close waits for the group.
*/
module InsertDrain {
  import opened Common
  import opened PartitionLedger
  import opened ValsRetry

  const MAX_ATTEMPTS := 12

  /** A writer: its partition key, its batch size and how many inserts may run at once. */
  datatype Config = Config(key: Key, size: nat, permits: nat)

  /** BatchWriter's and BacklinkWriter's. */
  const RECORD_WRITER := Config((r: Row) => PartitionKey(r.createdAt), 50000, 30)
  const BACKLINK_WRITER := Config((r: Row) => BacklinkPartitionKey(r.createdAt), 10000, 8)

  datatype Owner = Producer(id: int) | Flusher

  /** Where a batch is. */
  datatype Status =
    | Held(owner: Owner)         // cut, waiting in its thread's toFlush
    | Admitted(owner: Owner)     // its thread has the semaphore and is about to start the insert
    | Running(failures: nat)
    | Released(ok: bool)      // semaphore given back, not yet out of the wait group
    | Settled(ok: bool)       // inserted, or given up after the last attempt

  datatype FlusherPc = Polling | Draining | Stopped

  datatype Closer = NotCalled | Waiting | Returned

  datatype State = State(
    ledger: Ledger, status: seq<Status>, taken: nat, group: nat, flusher: FlusherPc, statsLoop: bool, closer: Closer)

  datatype Step =
    | Write(id: int, rows: seq<Row>)   // up to the end of the critical section
    | Sweep                            // flushStalePartitions, up to the same point
    | Acquire(i: nat)
    | Start(i: nat)
    | Fail(i: nat)
    | Succeed(i: nat)
    | Leave(i: nat)
    | Close
    | Drain                            // flushAll, up to the end of its critical section
    | FlusherExits
    | StatsExits
    | Return

  // -------------------------------------------------------------------- inserts

  const INSERT_BASE := 500     // milliseconds
  const INSERT_CAP := 30000

  /** The sleep before an attempt. */
  function InsertDelay(attempt: nat): int {
    if attempt == 0 then 0 else Min(Doubled(INSERT_BASE, attempt - 1), INSERT_CAP)
  }

  function SleptBefore(attempts: nat): int {
    if attempts == 0 then 0 else SleptBefore(attempts - 1) + InsertDelay(attempts - 1)
  }

  /**
    insertRecords, without the wait for merges: it succeeds exactly if one of the
    first twelve attempts would, makes no attempt after that one, and gives up only
    after 181.5 seconds of backoff.
  */
  method InsertRecords(answers: nat -> bool) returns (ok: bool, attempts: nat, slept: int)
    ensures ok <==> exists n: nat :: n < 12 && answers(n)
    ensures ok ==> 0 < attempts <= 12 && answers(attempts - 1)
    ensures forall n: nat :: n < attempts - (if ok then 1 else 0) ==> !answers(n)
    ensures !ok ==> attempts == 12 && slept == 181500
    ensures slept == SleptBefore(attempts)
  {
    ok, attempts, slept := false, 0, 0;
    while attempts < MAX_ATTEMPTS
      invariant attempts <= MAX_ATTEMPTS && slept == SleptBefore(attempts)
      invariant forall n: nat :: n < attempts ==> !answers(n)
    {
      if attempts > 0 {
        var delay := Doubled(INSERT_BASE, attempts - 1);
        if delay > INSERT_CAP {
          delay := INSERT_CAP;
        }
        slept := slept + delay;
      }
      attempts := attempts + 1;
      if answers(attempts - 1) {
        return true, attempts, slept;
      }
    }
    AllSleeps();
  }

  /** Half a second, doubled for each later attempt, up to thirty seconds. */
  lemma InsertDelays(attempt: nat)
    requires attempt < 12
    ensures InsertDelay(attempt) == if attempt < 7 then [0, 500, 1000, 2000, 4000, 8000, 16000][attempt] else 30000
  {
    assert Doubled(INSERT_BASE, 2) == 2000;
    assert Doubled(INSERT_BASE, 4) == 8000;
    DoubledMonotone(INSERT_BASE, 6, if attempt < 7 then 6 else attempt - 1);
    assert Doubled(INSERT_BASE, 6) == 32000;
  }

  lemma AllSleeps()
    ensures SleptBefore(MAX_ATTEMPTS) == 181500
  {
    assert Doubled(INSERT_BASE, 2) == 2000;
    assert Doubled(INSERT_BASE, 4) == 8000;
    assert Doubled(INSERT_BASE, 6) == 32000;
    assert Doubled(INSERT_BASE, 8) == 128000;
    assert Doubled(INSERT_BASE, 10) == 512000;
    assert SleptBefore(3) == 1500;
    assert SleptBefore(5) == 7500;
    assert SleptBefore(7) == 31500;
    assert SleptBefore(9) == 91500;
    assert SleptBefore(11) == 151500;
  }

  // ------------------------------------------------------------------- counting

  predicate HasPermit(s: Status) {
    s.Admitted? || s.Running?
  }

  predicate InGroup(s: Status) {
    s.Running? || s.Released?
  }

  function Count(p: Status -> bool, ss: seq<Status>): nat {
    if ss == [] then 0 else Count(p, ss[..|ss| - 1]) + (if p(ss[|ss| - 1]) then 1 else 0)
  }

  lemma {:induction false} CountUpdate(p: Status -> bool, ss: seq<Status>, i: nat, s: Status)
    requires i < |ss|
    ensures Count(p, ss[i := s]) == Count(p, ss) - (if p(ss[i]) then 1 else 0) + (if p(s) then 1 else 0)
  {
    var init := ss[..|ss| - 1];
    if i < |ss| - 1 {
      assert ss[i := s][..|ss| - 1] == init[i := s];
      CountUpdate(p, init, i, s);
    } else {
      assert ss[i := s][..|ss| - 1] == init;
    }
  }

  lemma {:induction false} CountExtend(p: Status -> bool, ss: seq<Status>, more: seq<Status>)
    requires forall i :: 0 <= i < |more| ==> !p(more[i])
    ensures Count(p, ss + more) == Count(p, ss)
  {
    if more == [] {
      assert ss + more == ss;
    } else {
      assert (ss + more)[..|ss + more| - 1] == ss + more[..|more| - 1];
      CountExtend(p, ss, more[..|more| - 1]);
    }
  }

  lemma {:induction false} CountZero(p: Status -> bool, ss: seq<Status>)
    ensures Count(p, ss) == 0 <==> forall i :: 0 <= i < |ss| ==> !p(ss[i])
  {
    if ss != [] {
      var init := ss[..|ss| - 1];
      CountZero(p, init);
      assert forall i :: 0 <= i < |init| ==> init[i] == ss[i];
    }
  }

  // ---------------------------------------------------------------------- steps

  predicate Idle(s: State, who: Owner) {
    forall i :: 0 <= i < |s.status| ==> s.status[i] != Held(who) && s.status[i] != Admitted(who)
  }

  /** New batches, held by the thread that cut them. */
  function NewlyHeld(n: nat, who: Owner): seq<Status> {
    seq(n, _ => Held(who))
  }

  ghost predicate Cuts(s: State, t: State, who: Owner) {
    && |s.ledger.batches| <= |t.ledger.batches|
    && t == s.(ledger := t.ledger, flusher := t.flusher,
               status := s.status + NewlyHeld(|t.ledger.batches| - |s.ledger.batches|, who))
  }

  ghost predicate Next(c: Config, s: State, step: Step, t: State) {
    match step
    case Write(id, rows) =>
      && Idle(s, Producer(id))
      && Adds(c.key, c.size, s.ledger, rows, t.ledger)
      && Cuts(s, t, Producer(id)) && t.flusher == s.flusher
    case Sweep =>
      && s.flusher == Polling && Idle(s, Flusher)
      && Takes(c.key, c.size, s.ledger, t.ledger)
      && Cuts(s, t, Flusher) && t.flusher == Polling
    case Drain =>
      && s.flusher == Polling && Idle(s, Flusher) && s.closer != NotCalled
      && Takes(c.key, c.size, s.ledger, t.ledger) && Empty(t.ledger)
      && Cuts(s, t, Flusher) && t.flusher == Draining
    case Acquire(i) =>
      && i < |s.status| && s.status[i].Held? && s.taken < c.permits
      && (forall j :: 0 <= j < |s.status| ==> s.status[j] != Admitted(s.status[i].owner))
      && (forall j :: 0 <= j < i ==> s.status[j] != s.status[i])
      && t == s.(status := s.status[i := Admitted(s.status[i].owner)], taken := s.taken + 1)
    case Start(i) =>
      && i < |s.status| && s.status[i].Admitted?
      && t == s.(status := s.status[i := Running(0)], group := s.group + 1)
    case Fail(i) =>
      && i < |s.status| && s.status[i].Running? && s.taken > 0
      && var n := s.status[i].failures + 1;
         t == if n < MAX_ATTEMPTS then s.(status := s.status[i := Running(n)])
              else s.(status := s.status[i := Released(false)], taken := s.taken - 1)
    case Succeed(i) =>
      && i < |s.status| && s.status[i].Running? && s.taken > 0
      && t == s.(status := s.status[i := Released(true)], taken := s.taken - 1)
    case Leave(i) =>
      && i < |s.status| && s.status[i].Released? && s.group > 0
      && t == s.(status := s.status[i := Settled(s.status[i].ok)], group := s.group - 1)
    case Close =>
      s.closer == NotCalled && t == s.(closer := Waiting)
    case FlusherExits =>
      && s.flusher == Draining && Idle(s, Flusher) && s.group > 0
      && t == s.(flusher := Stopped, group := s.group - 1)
    case StatsExits =>
      s.statsLoop && s.closer != NotCalled && s.group > 0 && t == s.(statsLoop := false, group := s.group - 1)
    case Return =>
      s.closer == Waiting && s.group == 0 && t == s.(closer := Returned)
  }

  function Init(statsLoop: bool): State {
    State(Ledger([], [], map[]), [], 0, if statsLoop then 2 else 1, Polling, statsLoop, NotCalled)
  }

  ghost predicate Run(c: Config, s: State, steps: seq<Step>, t: State) {
    if steps == [] then t == s
    else
      var init, last := steps[..|steps| - 1], steps[|steps| - 1];
      exists mid :: Run(c, s, init, mid) && Next(c, mid, last, t)
  }

  // ------------------------------------------------------------------ invariant

  function Loops(s: State): nat {
    (if s.flusher == Stopped then 0 else 1) + (if s.statsLoop then 1 else 0)
  }

  ghost predicate Inv(c: Config, s: State) {
    && Kept(c.key, c.size, s.ledger)
    && |s.status| == |s.ledger.batches|
    && s.taken == Count(HasPermit, s.status) <= c.permits
    && s.group == Loops(s) + Count(InGroup, s.status)
    && (s.flusher == Stopped ==> Idle(s, Flusher))
    && (s.flusher != Polling ==> s.closer != NotCalled)
    && (s.closer == NotCalled ==> s.flusher == Polling)
    && (forall i :: 0 <= i < |s.status| && s.status[i].Running? ==> s.status[i].failures < MAX_ATTEMPTS)
  }

  lemma InitInv(c: Config, statsLoop: bool)
    requires c.size > 0
    ensures Inv(c, Init(statsLoop))
  {
  }

  lemma CutsInv(c: Config, s: State, t: State, who: Owner)
    requires Inv(c, s) && Cuts(s, t, who) && Kept(c.key, c.size, t.ledger)
    requires t.flusher == s.flusher || (t.flusher == Draining && s.flusher == Polling && s.closer != NotCalled)
    requires who == Flusher ==> s.flusher == Polling
    ensures Inv(c, t)
  {
    hide Kept, Count;
    var more := NewlyHeld(|t.ledger.batches| - |s.ledger.batches|, who);
    CountExtend(HasPermit, s.status, more);
    CountExtend(InGroup, s.status, more);
  }

  lemma MovesInv(c: Config, s: State, i: nat, x: Status, t: State)
    requires Inv(c, s) && i < |s.status|
    requires t == s.(status := s.status[i := x], taken := t.taken, group := t.group)
    requires t.taken == s.taken - (if HasPermit(s.status[i]) then 1 else 0) + (if HasPermit(x) then 1 else 0) <= c.permits
    requires t.group == s.group - (if InGroup(s.status[i]) then 1 else 0) + (if InGroup(x) then 1 else 0)
    requires !x.Held? && (x.Admitted? ==> s.status[i] == Held(x.owner))
    requires x.Running? ==> x.failures < MAX_ATTEMPTS
    ensures Inv(c, t)
  {
    hide Kept;
    CountUpdate(HasPermit, s.status, i, x);
    CountUpdate(InGroup, s.status, i, x);
  }

  lemma LoopsInv(c: Config, s: State, step: Step, t: State)
    requires Inv(c, s) && Next(c, s, step, t)
    requires step.Close? || step.FlusherExits? || step.StatsExits? || step.Return?
    ensures Inv(c, t)
  {
    hide Kept, Count;
  }

  lemma WhoCuts(c: Config, s: State, step: Step, t: State)
    requires Inv(c, s) && Next(c, s, step, t)
    ensures step.Write? || step.Sweep? || step.Drain? ==> Kept(c.key, c.size, t.ledger)
    ensures forall i :: 0 <= i < |s.status| && s.status[i].Running? ==> s.status[i].failures < MAX_ATTEMPTS
    ensures s.taken <= c.permits
  {
    hide Kept, Cuts, Count, Idle;
  }

  lemma InvStep(c: Config, s: State, step: Step, t: State)
    requires Inv(c, s) && Next(c, s, step, t)
    ensures Inv(c, t)
  {
    hide Kept, Cuts, Adds, Takes;
    if step.Close? || step.FlusherExits? || step.StatsExits? || step.Return? {
      LoopsInv(c, s, step, t);
      return;
    }
    WhoCuts(c, s, step, t);
    hide Inv;
    match step {
      case Write(id, _) => CutsInv(c, s, t, Producer(id));
      case Sweep => CutsInv(c, s, t, Flusher);
      case Drain => CutsInv(c, s, t, Flusher);
      case Acquire(i) => MovesInv(c, s, i, Admitted(s.status[i].owner), t);
      case Start(i) => MovesInv(c, s, i, Running(0), t);
      case Fail(i) =>
        var n := s.status[i].failures + 1;
        MovesInv(c, s, i, if n < MAX_ATTEMPTS then Running(n) else Released(false), t);
      case Succeed(i) => MovesInv(c, s, i, Released(true), t);
      case Leave(i) => MovesInv(c, s, i, Settled(s.status[i].ok), t);
      case _ =>
    }
  }

  lemma {:induction false} InvRun(c: Config, s: State, steps: seq<Step>, t: State)
    requires Inv(c, s) && Run(c, s, steps, t)
    ensures Inv(c, t)
    decreases |steps|
  {
    hide Inv, Next;
    if steps != [] {
      var mid :| Run(c, s, steps[..|steps| - 1], mid) && Next(c, mid, steps[|steps| - 1], t);
      InvRun(c, s, steps[..|steps| - 1], mid);
      InvStep(c, mid, steps[|steps| - 1], t);
    }
  }

  // ------------------------------------------------------------------- theorems

  ghost predicate Reachable(c: Config, t: State) {
    exists statsLoop, steps :: Run(c, Init(statsLoop), steps, t)
  }

  lemma ReachableInv(c: Config, t: State)
    requires c.size > 0 && Reachable(c, t)
    ensures Inv(c, t)
  {
    var statsLoop, steps :| Run(c, Init(statsLoop), steps, t);
    InitInv(c, statsLoop);
    InvRun(c, Init(statsLoop), steps, t);
  }

  predicate IsRunning(s: Status) {
    s.Running?
  }

  lemma {:induction false} CountSubset(p: Status -> bool, q: Status -> bool, ss: seq<Status>)
    requires forall s :: p(s) ==> q(s)
    ensures Count(p, ss) <= Count(q, ss)
  {
    if ss != [] { CountSubset(p, q, ss[..|ss| - 1]); }
  }

  /** Never more inserts at once than the semaphore allows. */
  lemma InsertsAreBounded(c: Config, t: State)
    requires c.size > 0 && Reachable(c, t)
    ensures Count(IsRunning, t.status) <= c.permits
  {
    ReachableInv(c, t);
    CountSubset(IsRunning, HasPermit, t.status);
  }

  predicate AllSettled(s: State) {
    forall i :: 0 <= i < |s.status| ==> s.status[i].Settled?
  }

  /** No producer holds a batch it has not handed to an insert. */
  predicate Quiesced(s: State) {
    forall i :: 0 <= i < |s.status| ==>
      !(s.status[i].Held? && s.status[i].owner.Producer?) && !(s.status[i].Admitted? && s.status[i].owner.Producer?)
  }

  /**
    At the moment Close returns, every batch is settled exactly when no producer is
    still between cutting a batch and starting its insert: Close waits for the flush
    loop's batches and the running inserts, and for nothing else.
  */
  lemma CloseWaitsForAllButProducers(c: Config, s: State, t: State)
    requires c.size > 0 && Reachable(c, s) && Next(c, s, Return, t)
    ensures AllSettled(t) <==> Quiesced(t)
  {
    ReachableInv(c, s);
    hide Kept;
    CountZero(InGroup, s.status);
    forall i | 0 <= i < |t.status|
      ensures t.status[i].Settled? || (t.status[i].Held? && t.status[i].owner.Producer?)
              || (t.status[i].Admitted? && t.status[i].owner.Producer?)
    {
      assert !InGroup(s.status[i]);
      assert t.status[i] != Held(Flusher) && t.status[i] != Admitted(Flusher);
    }
  }

  /** What the ingester provides: producers have finished before Close and do not write after it. */
  ghost predicate Orderly(c: Config, s: State, steps: seq<Step>, t: State) {
    if steps == [] then t == s
    else
      var last := steps[|steps| - 1];
      exists mid ::
        && Orderly(c, s, steps[..|steps| - 1], mid)
        && Next(c, mid, last, t)
        && (last.Write? ==> mid.closer == NotCalled)
        && (last.Close? ==> Quiesced(mid))
  }

  ghost predicate OrderlyInv(c: Config, s: State) {
    && Inv(c, s)
    && (s.closer != NotCalled ==> Quiesced(s))
    && (s.flusher != Polling ==> Empty(s.ledger))
    && (s.closer == Returned ==> s.flusher == Stopped && AllSettled(s))
  }

  lemma OrderlyStep(c: Config, s: State, step: Step, t: State)
    requires OrderlyInv(c, s) && Next(c, s, step, t)
    requires step.Write? ==> s.closer == NotCalled
    requires step.Close? ==> Quiesced(s)
    ensures OrderlyInv(c, t)
  {
    hide Inv, Kept, Adds, Takes, Empty, Idle;
    InvStep(c, s, step, t);
    if step.Return? {
      ReturnSettles(c, s, t);
    } else if step.Write? {
      assert t.closer == NotCalled && t.flusher == s.flusher;
      WriteWhilePolling(c, s, t);
    }
  }

  lemma WriteWhilePolling(c: Config, s: State, t: State)
    requires Inv(c, s) && s.closer == NotCalled
    ensures s.flusher == Polling
  {
  }

  lemma ReturnSettles(c: Config, s: State, t: State)
    requires Inv(c, s) && Quiesced(s) && Next(c, s, Return, t)
    ensures t.flusher == Stopped && AllSettled(t)
  {
    hide Kept;
    CountZero(InGroup, s.status);
    forall i | 0 <= i < |t.status| ensures t.status[i].Settled? {
      assert !InGroup(s.status[i]);
      assert t.status[i] != Held(Flusher) && t.status[i] != Admitted(Flusher);
    }
  }

  lemma {:induction false} OrderlyRun(c: Config, s: State, steps: seq<Step>, t: State)
    requires OrderlyInv(c, s) && Orderly(c, s, steps, t)
    ensures OrderlyInv(c, t)
    decreases |steps|
  {
    hide OrderlyInv, Next, Quiesced;
    if steps != [] {
      var last := steps[|steps| - 1];
      var mid :| Orderly(c, s, steps[..|steps| - 1], mid) && Next(c, mid, last, t)
                 && (last.Write? ==> mid.closer == NotCalled) && (last.Close? ==> Quiesced(mid));
      OrderlyRun(c, s, steps[..|steps| - 1], mid);
      OrderlyStep(c, mid, last, t);
    }
  }

  ghost predicate OrderlyReachable(c: Config, t: State) {
    exists statsLoop, steps :: Orderly(c, Init(statsLoop), steps, t)
  }

  /**
    With producers quiesced first, when Close has returned every row written is in
    exactly one batch, in order within its partition, and every batch has been
    inserted or given up; every batch is non-empty with a single partition key.
  */
  lemma ClosedMeansSettled(c: Config, t: State)
    requires c.size > 0 && OrderlyReachable(c, t) && t.closer == Returned
    ensures Empty(t.ledger) && AllSettled(t) && |t.status| == |t.ledger.batches|
    ensures forall k :: Joined(c.key, k, t.ledger.batches) == Of(c.key, k, t.ledger.written)
    ensures BatchesFine(c.key, c.size, t.ledger)
  {
    var statsLoop, steps :| Orderly(c, Init(statsLoop), steps, t);
    InitInv(c, statsLoop);
    OrderlyRun(c, Init(statsLoop), steps, t);
    forall k ensures Joined(c.key, k, t.ledger.batches) == Of(c.key, k, t.ledger.written) {
      EmptyMeansAllCut(c.key, c.size, t.ledger, k);
    }
  }

  /** The two writers: at most 30 record inserts and 8 backlink inserts at once. */
  lemma WriterLimits(t: State)
    ensures Reachable(RECORD_WRITER, t) ==> Count(IsRunning, t.status) <= 30
    ensures Reachable(BACKLINK_WRITER, t) ==> Count(IsRunning, t.status) <= 8
  {
    if Reachable(RECORD_WRITER, t) { InsertsAreBounded(RECORD_WRITER, t); }
    if Reachable(BACKLINK_WRITER, t) { InsertsAreBounded(BACKLINK_WRITER, t); }
  }

  /** What an orderly Close leaves: settled batches of 1 to 50000 records of one partition, or 1 to 10000 backlinks of one month. */
  lemma WritersClosed(t: State, i: nat, a: nat, b: nat)
    requires t.closer == Returned && i < |t.ledger.batches| && a < |t.ledger.batches[i]| && b < |t.ledger.batches[i]|
    ensures OrderlyReachable(RECORD_WRITER, t) ==>
              && i < |t.status| && t.status[i].Settled? && |t.ledger.batches[i]| <= 50000
              && PartitionKey(t.ledger.batches[i][a].createdAt) == PartitionKey(t.ledger.batches[i][b].createdAt)
    ensures OrderlyReachable(BACKLINK_WRITER, t)
            && Calendar(t.ledger.batches[i][a].createdAt) && Calendar(t.ledger.batches[i][b].createdAt) ==>
              && i < |t.status| && t.status[i].Settled? && |t.ledger.batches[i]| <= 10000
              && t.ledger.batches[i][a].createdAt == t.ledger.batches[i][b].createdAt
  {
    hide OrderlyReachable;
    if OrderlyReachable(RECORD_WRITER, t) {
      ClosedMeansSettled(RECORD_WRITER, t);
      assert BatchFine(RECORD_WRITER.key, RECORD_WRITER.size, t.ledger.batches[i]);
    }
    var x, y := t.ledger.batches[i][a].createdAt, t.ledger.batches[i][b].createdAt;
    if OrderlyReachable(BACKLINK_WRITER, t) && Calendar(x) && Calendar(y) {
      ClosedMeansSettled(BACKLINK_WRITER, t);
      assert BatchFine(BACKLINK_WRITER.key, BACKLINK_WRITER.size, t.ledger.batches[i]);
      KeysSeparateMonths(x, y);
    }
  }

  /** Without that order it fails: a row written after the final flush stays in its buffer when Close returns. */
  lemma LateWriteIsLost(c: Config, r: Row) returns (steps: seq<Step>, t: State)
    requires c.size > 1
    ensures Run(c, Init(false), steps, t)
    ensures t.closer == Returned && !Empty(t.ledger) && t.ledger.written == [r] && t.ledger.batches == []
  {
    var empty := Ledger([], [], map[]);
    var s1 := Init(false).(closer := Waiting);
    var s2 := s1.(flusher := Draining);
    var s3 := s2.(ledger := Extended(empty, c.key(r), [r]).(written := [r]));
    var s4 := s3.(flusher := Stopped, group := 0);
    t := s4.(closer := Returned);
    LateWriteSteps(c, r, s2, s3);
    assert Next(c, Init(false), Close, s1);
    assert Next(c, s3, FlusherExits, s4);
    assert Next(c, s4, Return, t);
    assert Run(c, Init(false), [], Init(false));
    hide *;
    RunSnoc(c, Init(false), [], Init(false), Close, s1);
    RunSnoc(c, Init(false), [] + [Close], s1, Drain, s2);
    RunSnoc(c, Init(false), [] + [Close] + [Drain], s2, Write(0, [r]), s3);
    RunSnoc(c, Init(false), [] + [Close] + [Drain] + [Write(0, [r])], s3, FlusherExits, s4);
    RunSnoc(c, Init(false), [] + [Close] + [Drain] + [Write(0, [r])] + [FlusherExits], s4, Return, t);
    steps := [] + [Close] + [Drain] + [Write(0, [r])] + [FlusherExits] + [Return];
  }

  lemma RunSnoc(c: Config, s: State, steps: seq<Step>, mid: State, step: Step, t: State)
    requires Run(c, s, steps, mid) && Next(c, mid, step, t)
    ensures Run(c, s, steps + [step], t)
  {
    hide Next;
    assert (steps + [step])[..|steps|] == steps;
  }

  lemma LateWriteSteps(c: Config, r: Row, s2: State, s3: State)
    requires c.size > 1
    requires s2 == Init(false).(closer := Waiting, flusher := Draining)
    requires s3 == s2.(ledger := Extended(s2.ledger, c.key(r), [r]).(written := [r]))
    ensures Next(c, Init(false).(closer := Waiting), Drain, s2)
    ensures Next(c, s2, Write(0, [r]), s3)
    ensures !Empty(s3.ledger)
  {
    NothingHeld();
    hide Inv, Kept, Adds, Takes, Empty, Idle, NewlyHeld;
    NothingToTake(c.key, c.size, s2.ledger);
    OneRowAdded(c, r, s2.ledger, s3.ledger);
    NobodyHolds(s2);
    NobodyHolds(Init(false).(closer := Waiting));
    InitKept(c);
  }

  lemma NothingHeld()
    ensures NewlyHeld(0, Flusher) == [] && NewlyHeld(0, Producer(0)) == []
    ensures [] + NewlyHeld(0, Flusher) == [] && [] + NewlyHeld(0, Producer(0)) == []
  {
  }

  lemma NobodyHolds(s: State)
    requires s.status == []
    ensures Idle(s, Flusher) && Idle(s, Producer(0))
  {
  }

  lemma InitKept(c: Config)
    requires c.size > 0
    ensures Kept(c.key, c.size, Ledger([], [], map[]))
  {
    InitInv(c, false);
  }

  lemma NothingToTake(key: Key, size: nat, l: Ledger)
    requires l == Ledger([], [], map[]) && size > 0
    ensures Takes(key, size, l, l) && Empty(l)
  {
    InitKept(Config(key, size, 0));
    hide Kept;
  }

  lemma OneRowAdded(c: Config, r: Row, empty: Ledger, late: Ledger)
    requires c.size > 1 && empty == Ledger([], [], map[])
    requires late == Extended(empty, c.key(r), [r]).(written := [r])
    ensures Adds(c.key, c.size, empty, [r], late) && late.batches == [] && !Empty(late)
  {
    InitKept(c);
    OneAdded(c.key, c.size, empty, r);
    hide Kept, Adds;
    assert [] + [r] == [r];
    assert late.buffers[c.key(r)] == [r];
  }

  // ---------------------------------------------------------------- termination

  function Weight(s: Status): nat {
    match s
    case Held(_) => 17
    case Admitted(_) => 16
    case Running(n) => if n < MAX_ATTEMPTS then 15 - n else 3
    case Released(_) => 2
    case Settled(_) => 0
  }

  function Pending(ss: seq<Status>): nat {
    if ss == [] then 0 else Pending(ss[..|ss| - 1]) + Weight(ss[|ss| - 1])
  }

  lemma {:induction false} PendingUpdate(ss: seq<Status>, i: nat, s: Status)
    requires i < |ss|
    ensures Pending(ss[i := s]) == Pending(ss) - Weight(ss[i]) + Weight(s)
  {
    var init := ss[..|ss| - 1];
    if i < |ss| - 1 {
      assert ss[i := s][..|ss| - 1] == init[i := s];
      PendingUpdate(init, i, s);
    } else {
      assert ss[i := s][..|ss| - 1] == init;
    }
  }

  /** How far the loops and Close are from their ends. */
  function Phase(s: State): nat {
    (match s.flusher case Polling => 2 case Draining => 1 case Stopped => 0)
    + (if s.statsLoop then 1 else 0)
    + (match s.closer case NotCalled => 2 case Waiting => 1 case Returned => 0)
  }

  /** Steps that move one batch on. */
  predicate MovesBatch(step: Step) {
    step.Acquire? || step.Start? || step.Fail? || step.Succeed? || step.Leave?
  }

  lemma BatchMoves(c: Config, s: State, step: Step, t: State)
    requires Next(c, s, step, t) && MovesBatch(step)
    requires forall i :: 0 <= i < |s.status| && s.status[i].Running? ==> s.status[i].failures < MAX_ATTEMPTS
    ensures Phase(t) == Phase(s) && Pending(t.status) < Pending(s.status)
  {
    hide Pending;
    PendingUpdate(s.status, step.i, t.status[step.i]);
  }

  lemma LoopMoves(c: Config, s: State, step: Step, t: State)
    requires Next(c, s, step, t) && !step.Write? && !step.Sweep? && !MovesBatch(step)
    ensures Phase(t) < Phase(s)
  {
    hide Takes, Empty, Idle;
  }

  /** Every step but a write or a sweep brings the writer nearer to closed. */
  lemma StepsRunOut(c: Config, s: State, step: Step, t: State)
    requires Inv(c, s) && Next(c, s, step, t) && !step.Write? && !step.Sweep?
    ensures Phase(t) < Phase(s) || (Phase(t) == Phase(s) && Pending(t.status) < Pending(s.status))
  {
    assert forall i :: 0 <= i < |s.status| && s.status[i].Running? ==> s.status[i].failures < MAX_ATTEMPTS;
    hide Inv, Next, Phase, Pending;
    if MovesBatch(step) {
      BatchMoves(c, s, step, t);
    } else {
      LoopMoves(c, s, step, t);
    }
  }

  /** Steps other than writes and sweeps. */
  ghost predicate CanMove(c: Config, s: State) {
    exists step: Step, t: State :: !step.Write? && !step.Sweep? && Next(c, s, step, t)
  }

  lemma Moves(c: Config, s: State, step: Step, t: State)
    requires !step.Write? && !step.Sweep? && Next(c, s, step, t)
    ensures CanMove(c, s)
  {
  }

  /** A Close that is waiting is never stuck: some insert, loop or the return itself can go on. */
  lemma CloseIsNotStuck(c: Config, s: State)
    requires Inv(c, s) && s.closer == Waiting && c.permits > 0
    ensures CanMove(c, s)
  {
    hide Kept;
    if i :| 0 <= i < |s.status| && s.status[i].Released? {
      CountZero(InGroup, s.status);
      Moves(c, s, Leave(i), s.(status := s.status[i := Settled(s.status[i].ok)], group := s.group - 1));
    } else if i :| 0 <= i < |s.status| && s.status[i].Running? {
      CountZero(HasPermit, s.status);
      assert HasPermit(s.status[i]);
      Moves(c, s, Succeed(i), s.(status := s.status[i := Released(true)], taken := s.taken - 1));
    } else if i :| 0 <= i < |s.status| && s.status[i].Admitted? {
      Moves(c, s, Start(i), s.(status := s.status[i := Running(0)], group := s.group + 1));
    } else if i :| 0 <= i < |s.status| && s.status[i].Held? {
      CountZero(HasPermit, s.status);
      var j := FirstHeld(s.status, i);
      Moves(c, s, Acquire(j), s.(status := s.status[j := Admitted(s.status[j].owner)], taken := s.taken + 1));
    } else {
      LoopsEnd(c, s);
    }
  }

  lemma FirstHeld(ss: seq<Status>, i: nat) returns (j: nat)
    requires i < |ss| && ss[i].Held?
    ensures j < |ss| && ss[j].Held? && forall h :: 0 <= h < j ==> ss[h] != ss[j]
  {
    j := 0;
    while !ss[j].Held?
      invariant j <= i
      invariant forall h :: 0 <= h < j ==> !ss[h].Held?
      decreases i - j
    {
      j := j + 1;
    }
  }

  lemma LoopsEnd(c: Config, s: State)
    requires Inv(c, s) && s.closer == Waiting && AllSettled(s)
    ensures CanMove(c, s)
  {
    CountZero(InGroup, s.status);
    if s.statsLoop {
      Moves(c, s, StatsExits, s.(statsLoop := false, group := s.group - 1));
    } else if s.flusher == Draining {
      Moves(c, s, FlusherExits, s.(flusher := Stopped, group := s.group - 1));
    } else if s.flusher == Stopped {
      Moves(c, s, Return, s.(closer := Returned));
    } else {
      var l := TakeEverything(c, s.ledger);
      var t := s.(ledger := l, flusher := Draining,
                  status := s.status + NewlyHeld(|l.batches| - |s.ledger.batches|, Flusher));
      hide Takes, Empty, Kept;
      Moves(c, s, Drain, t);
    }
  }

  /** A flush of every buffer is always possible. */
  lemma TakeEverything(c: Config, l: Ledger) returns (after: Ledger)
    requires Kept(c.key, c.size, l)
    ensures Takes(c.key, c.size, l, after) && Empty(after)
  {
    after := l;
    var todo := l.buffers.Keys;
    hide Kept;
    while todo != {}
      invariant todo <= after.buffers.Keys
      invariant Takes(c.key, c.size, l, after)
      invariant forall k :: k in after.buffers && k !in todo ==> after.buffers[k] == []
      decreases |todo|
    {
      var pk := AnyOf(todo);
      if after.buffers[pk] != [] {
        WholeTaken(c.key, c.size, l, after, pk);
        after := Ledger(after.written, after.batches + [after.buffers[pk]], after.buffers[pk := []]);
      }
      todo := todo - {pk};
    }
  }

  // --------------------------------------------------------- a batch's own outcomes

  /** Where a batch is, from how often its own attempts failed and succeeded. */
  predicate Fate(x: Status, failures: nat, successes: nat) {
    match x
    case Held(_) => failures == 0 && successes == 0
    case Admitted(_) => failures == 0 && successes == 0
    case Running(n) => failures == n < 12 && successes == 0
    case Released(ok) => if ok then failures < 12 && successes == 1 else failures == 12 && successes == 0
    case Settled(ok) => if ok then failures < 12 && successes == 1 else failures == 12 && successes == 0
  }

  predicate FateOf(status: seq<Status>, i: nat, failures: nat, successes: nat) {
    if i < |status| then Fate(status[i], failures, successes) else failures == 0 && successes == 0
  }

  lemma CutsFate(s: State, t: State, who: Owner, i: nat, failures: nat, successes: nat)
    requires Cuts(s, t, who) && FateOf(s.status, i, failures, successes)
    ensures FateOf(t.status, i, failures, successes)
  {
  }

  lemma FateStep(c: Config, s: State, step: Step, t: State, i: nat, failures: nat, successes: nat)
    requires Next(c, s, step, t) && FateOf(s.status, i, failures, successes)
    ensures FateOf(t.status, i, failures + (if step == Fail(i) then 1 else 0), successes + (if step == Succeed(i) then 1 else 0))
  {
    hide Cuts, Adds, Takes, Idle;
    match step {
      case Write(id, _) => CutsFate(s, t, Producer(id), i, failures, successes);
      case Sweep => CutsFate(s, t, Flusher, i, failures, successes);
      case Drain => CutsFate(s, t, Flusher, i, failures, successes);
      case _ =>
    }
  }

  /** A batch is given up after exactly twelve failed attempts of its own, and settled as inserted by one success. */
  lemma {:induction false} FateByOutcomes(c: Config, statsLoop: bool, steps: seq<Step>, t: State, i: nat)
    requires Run(c, Init(statsLoop), steps, t)
    ensures FateOf(t.status, i, multiset(steps)[Fail(i)], multiset(steps)[Succeed(i)])
  {
    hide Next, FateOf;
    if steps == [] {
      NoFate(statsLoop, i);
    } else {
      var init, last := steps[..|steps| - 1], steps[|steps| - 1];
      var mid :| Run(c, Init(statsLoop), init, mid) && Next(c, mid, last, t);
      FateByOutcomes(c, statsLoop, init, mid, i);
      FateStep(c, mid, last, t, i, multiset(init)[Fail(i)], multiset(init)[Succeed(i)]);
      assert steps == init + [last];
    }
  }

  lemma NoFate(statsLoop: bool, i: nat)
    ensures FateOf(Init(statsLoop).status, i, 0, 0)
  {
  }
}
