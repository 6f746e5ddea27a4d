/**
  Ingester.CloseContext as one sequential call: which sinks it notifies, closes
  and reports on, in what order, and when it saves the cursor, however the three
  sink roles alias.  What the outside world answers is a parameter.
*/
module IngesterClose {
  import opened Common

  /** The identity of a sink's interface value. */
  type SinkId = nat

  /** A sink as the shutdown code sees it: the optional interfaces, and how its close ends. */
  datatype Sink = Sink(notifier: bool, reporter: bool, closesNil: bool)

  type Sinks = SinkId -> Sink

  datatype Event =
    | StopAdmission
    | Notified(sink: SinkId)
    | BackfillStopped(ok: bool)
    | Waited(ok: bool)
    | Reported(sink: SinkId)
    | Closed(sink: SinkId, ok: bool)
    | CursorSaved(cursor: int, ok: bool)

  type Roles = seq<Option<SinkId>>

  /** The roles' sinks without nil and without repeats, first appearance first. */
  function Distinct(roles: Roles): seq<SinkId> {
    if roles == [] then []
    else
      var front := Distinct(roles[..|roles| - 1]);
      match roles[|roles| - 1]
      case None => front
      case Some(id) => if id in front then front else front + [id]
  }

  /** The writer's sink, then the backlink writer's, then the delete queue's, leaving out nil and repeats. */
  function Present(writer: Option<SinkId>, backlinkWriter: Option<SinkId>, deleteQueue: Option<SinkId>): seq<SinkId> {
    (if writer.Some? then [writer.value] else [])
    + (if backlinkWriter.Some? && backlinkWriter != writer then [backlinkWriter.value] else [])
    + (if deleteQueue.Some? && deleteQueue != writer && deleteQueue != backlinkWriter then [deleteQueue.value] else [])
  }

  function NotifyTrace(ids: seq<SinkId>, sinks: Sinks): seq<Event> {
    if ids == [] then []
    else NotifyTrace(ids[..|ids| - 1], sinks) + (if sinks(ids[|ids| - 1]).notifier then [Notified(ids[|ids| - 1])] else [])
  }

  function ReportTrace(ids: seq<SinkId>, sinks: Sinks): seq<Event> {
    if ids == [] then []
    else ReportTrace(ids[..|ids| - 1], sinks) + (if sinks(ids[|ids| - 1]).reporter then [Reported(ids[|ids| - 1])] else [])
  }

  function CloseTrace(ids: seq<SinkId>, sinks: Sinks): seq<Event> {
    if ids == [] then []
    else CloseTrace(ids[..|ids| - 1], sinks) + [Closed(ids[|ids| - 1], sinks(ids[|ids| - 1]).closesNil)]
  }

  predicate AllClose(ids: seq<SinkId>, sinks: Sinks) {
    forall i :: 0 <= i < |ids| ==> sinks(ids[i]).closesNil
  }

  /** What the world answers during one shutdown. */
  datatype World = World(sinks: Sinks, backfillOk: bool, quiesced: bool, saveOk: bool)

  class Ingester {
    const writer: Option<SinkId>
    const backlinkWriter: Option<SinkId>
    const deleteQueue: Option<SinkId>
    const disableBackfill: bool
    var admissionClosed: bool
    var activeWork: nat
    var cursor: int
    var cursorDone: bool
    var log: seq<Event>

    constructor (writer: Option<SinkId>, backlinkWriter: Option<SinkId>, deleteQueue: Option<SinkId>, disableBackfill: bool)
      ensures this.writer == writer && this.backlinkWriter == backlinkWriter && this.deleteQueue == deleteQueue
      ensures this.disableBackfill == disableBackfill
      ensures !admissionClosed && activeWork == 0 && cursor == 0 && !cursorDone && log == []
    {
      this.writer, this.backlinkWriter, this.deleteQueue := writer, backlinkWriter, deleteQueue;
      this.disableBackfill := disableBackfill;
      admissionClosed, activeWork, cursor, cursorDone, log := false, 0, 0, false, [];
    }

    /** beginWork: admitted exactly while admission is open, and then counted. */
    method BeginWork() returns (admitted: bool)
      modifies this`activeWork
      ensures admitted <==> !admissionClosed
      ensures activeWork == old(activeWork) + (if admitted then 1 else 0)
    {
      if admissionClosed {
        return false;
      }
      activeWork := activeWork + 1;
      return true;
    }

    /** endWork; WaitGroup.Done on a zero counter panics. */
    method EndWork()
      requires activeWork > 0
      modifies this`activeWork
      ensures activeWork == old(activeWork) - 1
    {
      activeWork := activeWork - 1;
    }

    method BeginShutdown(sinks: Sinks)
      modifies this`admissionClosed, this`log
      ensures admissionClosed
      ensures log == old(log) + [StopAdmission] + NotifyTrace(Present(writer, backlinkWriter, deleteQueue), sinks)
    {
      hide Distinct, NotifyTrace, Present;
      admissionClosed := true;
      log := log + [StopAdmission];
      var roles := [writer, backlinkWriter, deleteQueue];
      NoRoles(roles, sinks);
      var seen: set<SinkId> := {};
      for i := 0 to |roles|
        invariant forall id :: id in seen <==> id in Distinct(roles[..i])
        invariant admissionClosed
        invariant log == old(log) + [StopAdmission] + NotifyTrace(Distinct(roles[..i]), sinks)
      {
        DistinctStep(roles, i);
        if roles[i] == None || roles[i].value in seen {
          continue;
        }
        NotifySnoc(Distinct(roles[..i]), roles[i].value, sinks);
        seen := seen + {roles[i].value};
        if sinks(roles[i].value).notifier {
          log := log + [Notified(roles[i].value)];
        }
      }
      assert roles[..|roles|] == roles;
      PresentIsDistinct(writer, backlinkWriter, deleteQueue);
    }

    method ReportUnclosedSinks(sinks: Sinks)
      modifies this`log
      ensures log == old(log) + ReportTrace(Present(writer, backlinkWriter, deleteQueue), sinks)
    {
      hide Distinct, ReportTrace, Present;
      var roles := [writer, backlinkWriter, deleteQueue];
      NoRoles(roles, sinks);
      var seen: set<SinkId> := {};
      for i := 0 to |roles|
        invariant forall id :: id in seen <==> id in Distinct(roles[..i])
        invariant log == old(log) + ReportTrace(Distinct(roles[..i]), sinks)
      {
        DistinctStep(roles, i);
        if roles[i] == None || roles[i].value in seen {
          continue;
        }
        ReportSnoc(Distinct(roles[..i]), roles[i].value, sinks);
        seen := seen + {roles[i].value};
        if sinks(roles[i].value).reporter {
          log := log + [Reported(roles[i].value)];
        }
      }
      assert roles[..|roles|] == roles;
      PresentIsDistinct(writer, backlinkWriter, deleteQueue);
    }

    /** The close loop: each distinct sink once; reports whether every one returned nil. */
    method CloseSinks(sinks: Sinks) returns (allNil: bool)
      modifies this`log
      ensures log == old(log) + CloseTrace(Present(writer, backlinkWriter, deleteQueue), sinks)
      ensures allNil <==> EachCloses(writer, backlinkWriter, deleteQueue, sinks)
    {
      hide Distinct, CloseTrace, AllClose, Present, EachCloses;
      allNil := true;
      var roles := [writer, backlinkWriter, deleteQueue];
      NoRoles(roles, sinks);
      var seen: set<SinkId> := {};
      for i := 0 to |roles|
        invariant forall id :: id in seen <==> id in Distinct(roles[..i])
        invariant log == old(log) + CloseTrace(Distinct(roles[..i]), sinks)
        invariant allNil <==> AllClose(Distinct(roles[..i]), sinks)
      {
        DistinctStep(roles, i);
        if roles[i] == None || roles[i].value in seen {
          continue;
        }
        CloseSnoc(Distinct(roles[..i]), roles[i].value, sinks);
        seen := seen + {roles[i].value};
        log := log + [Closed(roles[i].value, sinks(roles[i].value).closesNil)];
        if !sinks(roles[i].value).closesNil {
          allNil := false;
        }
      }
      assert roles[..|roles|] == roles;
      PresentIsDistinct(writer, backlinkWriter, deleteQueue);
      EachMeansAll(writer, backlinkWriter, deleteQueue, sinks);
    }

    /** CloseContext from the wait for active work on. */
    method DrainAndSave(w: World) returns (ok: bool)
      modifies this`log
      ensures log == old(log) + DrainTrace(Present(writer, backlinkWriter, deleteQueue), w, cursor)
      ensures ok <==> w.quiesced && EachCloses(writer, backlinkWriter, deleteQueue, w.sinks) && (cursor == 0 || w.saveOk)
    {
      hide Present, NotifyTrace, ReportTrace, CloseTrace, AllClose, EachCloses, DrainTrace;
      DrainLog(log, Present(writer, backlinkWriter, deleteQueue), w, cursor);
      log := log + [Waited(w.quiesced)];
      if !w.quiesced {
        ReportUnclosedSinks(w.sinks);
        return false;
      }
      var allNil := CloseSinks(w.sinks);
      ok := allNil;
      EachMeansAll(writer, backlinkWriter, deleteQueue, w.sinks);
      if allNil && cursor != 0 {
        log := log + [CursorSaved(cursor, w.saveOk)];
        ok := w.saveOk;
      }
    }

    /**
      CloseContext: exactly the effects that happen, each once and in its place, and
      nil only if all of them succeeded.
    */
    method CloseContext(w: World) returns (ok: bool)
      modifies this`admissionClosed, this`log, this`cursorDone
      ensures admissionClosed && cursorDone
      ensures log == old(log) + ShutdownTrace(Present(writer, backlinkWriter, deleteQueue), w, disableBackfill, cursor)
      ensures |log| >= |old(log)| && log[..|old(log)|] == old(log)
      ensures forall e :: multiset(log[|old(log)|..])[e]
                == if Happens(e, writer, backlinkWriter, deleteQueue, w, disableBackfill, cursor) then 1 else 0
      ensures InPlaces(log[|old(log)|..], writer, backlinkWriter)
      ensures ok <==> Quiesced(w, disableBackfill) && EachCloses(writer, backlinkWriter, deleteQueue, w.sinks)
                      && (cursor == 0 || w.saveOk)
    {
      hide Present, NotifyTrace, ReportTrace, DrainTrace, ShutdownTrace, StopTrace, InPlaces, Happens, EachCloses;
      ghost var ids := Present(writer, backlinkWriter, deleteQueue);
      ghost var before := log;
      if !cursorDone {
        cursorDone := true;
      }
      BeginShutdown(w.sinks);
      StopLog(before, ids, w);
      if !disableBackfill {
        log := log + [BackfillStopped(w.backfillOk)];
      }
      assert log == before + StopTrace(ids, w, disableBackfill);
      if !disableBackfill && !w.backfillOk {
        ReportUnclosedSinks(w.sinks);
        ShutdownLog(before, log, writer, backlinkWriter, deleteQueue, w, disableBackfill, cursor);
        return false;
      }
      ok := DrainAndSave(w);
      ShutdownLog(before, log, writer, backlinkWriter, deleteQueue, w, disableBackfill, cursor);
    }
  }

  /** Up to the point where the backfiller has answered. */
  function StopTrace(ids: seq<SinkId>, w: World, disableBackfill: bool): seq<Event> {
    [StopAdmission] + NotifyTrace(ids, w.sinks) + (if disableBackfill then [] else [BackfillStopped(w.backfillOk)])
  }

  /** From the answer of waitForActiveWork on. */
  function DrainTrace(ids: seq<SinkId>, w: World, cursor: int): seq<Event> {
    if !w.quiesced then [Waited(false)] + ReportTrace(ids, w.sinks)
    else
      [Waited(true)] + CloseTrace(ids, w.sinks)
      + (if AllClose(ids, w.sinks) && cursor != 0 then [CursorSaved(cursor, w.saveOk)] else [])
  }

  /** The outside effects of one CloseContext call. */
  function ShutdownTrace(ids: seq<SinkId>, w: World, disableBackfill: bool, cursor: int): seq<Event> {
    StopTrace(ids, w, disableBackfill)
    + (if !disableBackfill && !w.backfillOk then ReportTrace(ids, w.sinks) else DrainTrace(ids, w, cursor))
  }

  predicate Quiesced(w: World, disableBackfill: bool) {
    (disableBackfill || w.backfillOk) && w.quiesced
  }

  /** Every sink that fills a role closes with nil. */
  predicate EachCloses(writer: Option<SinkId>, backlinkWriter: Option<SinkId>, deleteQueue: Option<SinkId>, sinks: Sinks) {
    && (writer.Some? ==> sinks(writer.value).closesNil)
    && (backlinkWriter.Some? ==> sinks(backlinkWriter.value).closesNil)
    && (deleteQueue.Some? ==> sinks(deleteQueue.value).closesNil)
  }

  /** Whether one shutdown has this effect, by the three fields and the world's answers alone. */
  predicate Happens(e: Event, writer: Option<SinkId>, backlinkWriter: Option<SinkId>, deleteQueue: Option<SinkId>,
                    w: World, disableBackfill: bool, cursor: int) {
    match e
    case StopAdmission => true
    case Notified(id) => (Some(id) == writer || Some(id) == backlinkWriter || Some(id) == deleteQueue) && w.sinks(id).notifier
    case BackfillStopped(ok) => !disableBackfill && ok == w.backfillOk
    case Waited(ok) => (disableBackfill || w.backfillOk) && ok == w.quiesced
    case Reported(id) =>
      && !Quiesced(w, disableBackfill)
      && (Some(id) == writer || Some(id) == backlinkWriter || Some(id) == deleteQueue) && w.sinks(id).reporter
    case Closed(id, ok) =>
      && Quiesced(w, disableBackfill)
      && (Some(id) == writer || Some(id) == backlinkWriter || Some(id) == deleteQueue) && ok == w.sinks(id).closesNil
    case CursorSaved(c, ok) =>
      && Quiesced(w, disableBackfill) && EachCloses(writer, backlinkWriter, deleteQueue, w.sinks)
      && c == cursor && cursor != 0 && ok == w.saveOk
  }

  /** Where an effect stands: by kind, and among sinks the writer's, then the backlink writer's, then the other. */
  function Place(e: Event, writer: Option<SinkId>, backlinkWriter: Option<SinkId>): nat {
    match e
    case StopAdmission => 0
    case Notified(id) => 1 + RoleOf(id, writer, backlinkWriter)
    case BackfillStopped(_) => 4
    case Waited(_) => 5
    case Reported(id) => 6 + RoleOf(id, writer, backlinkWriter)
    case Closed(id, _) => 6 + RoleOf(id, writer, backlinkWriter)
    case CursorSaved(_, _) => 9
  }

  function RoleOf(id: SinkId, writer: Option<SinkId>, backlinkWriter: Option<SinkId>): nat {
    if Some(id) == writer then 0 else if Some(id) == backlinkWriter then 1 else 2
  }

  predicate InPlaces(es: seq<Event>, writer: Option<SinkId>, backlinkWriter: Option<SinkId>) {
    forall i, j :: 0 <= i < j < |es| ==> Place(es[i], writer, backlinkWriter) < Place(es[j], writer, backlinkWriter)
  }

  // ------------------------------------------------------------ what a trace says

  lemma NewPart(before: seq<Event>, added: seq<Event>)
    ensures (before + added)[|before|..] == added && (before + added)[..|before|] == before
  {
  }

  lemma DrainLog(before: seq<Event>, ids: seq<SinkId>, w: World, cursor: int)
    ensures !w.quiesced ==> before + [Waited(w.quiesced)] + ReportTrace(ids, w.sinks) == before + DrainTrace(ids, w, cursor)
    ensures w.quiesced && AllClose(ids, w.sinks) && cursor != 0 ==>
              before + [Waited(w.quiesced)] + CloseTrace(ids, w.sinks) + [CursorSaved(cursor, w.saveOk)]
              == before + DrainTrace(ids, w, cursor)
    ensures w.quiesced && !(AllClose(ids, w.sinks) && cursor != 0) ==>
              before + [Waited(w.quiesced)] + CloseTrace(ids, w.sinks) == before + DrainTrace(ids, w, cursor)
  {
    hide ReportTrace, CloseTrace, AllClose;
  }

  lemma StopLog(before: seq<Event>, ids: seq<SinkId>, w: World)
    ensures before + [StopAdmission] + NotifyTrace(ids, w.sinks) == before + StopTrace(ids, w, true)
    ensures before + [StopAdmission] + NotifyTrace(ids, w.sinks) + [BackfillStopped(w.backfillOk)] == before + StopTrace(ids, w, false)
  {
    hide NotifyTrace;
  }

  lemma ShutdownLog(before: seq<Event>, log: seq<Event>,
                    writer: Option<SinkId>, backlinkWriter: Option<SinkId>, deleteQueue: Option<SinkId>,
                    w: World, disableBackfill: bool, cursor: int)
    requires var ids := Present(writer, backlinkWriter, deleteQueue);
             log == before + StopTrace(ids, w, disableBackfill)
                    + (if !disableBackfill && !w.backfillOk then ReportTrace(ids, w.sinks) else DrainTrace(ids, w, cursor))
    ensures log == before + ShutdownTrace(Present(writer, backlinkWriter, deleteQueue), w, disableBackfill, cursor)
    ensures |log| >= |before| && log[..|before|] == before
    ensures forall e :: multiset(log[|before|..])[e]
              == if Happens(e, writer, backlinkWriter, deleteQueue, w, disableBackfill, cursor) then 1 else 0
    ensures InPlaces(log[|before|..], writer, backlinkWriter)
  {
    var ids := Present(writer, backlinkWriter, deleteQueue);
    ShutdownIsExact(writer, backlinkWriter, deleteQueue, w, disableBackfill, cursor);
    hide Present, StopTrace, DrainTrace, ReportTrace, Happens, InPlaces;
    Regroup(before, StopTrace(ids, w, disableBackfill), DrainTrace(ids, w, cursor));
    Regroup(before, StopTrace(ids, w, disableBackfill), ReportTrace(ids, w.sinks));
    assert log == before + ShutdownTrace(ids, w, disableBackfill, cursor);
    hide ShutdownTrace;
    NewPart(before, ShutdownTrace(Present(writer, backlinkWriter, deleteQueue), w, disableBackfill, cursor));
  }

  /** The three fields in the order the loops visit them. */
  lemma PresentIsDistinct(writer: Option<SinkId>, backlinkWriter: Option<SinkId>, deleteQueue: Option<SinkId>)
    ensures Present(writer, backlinkWriter, deleteQueue) == Distinct([writer, backlinkWriter, deleteQueue])
  {
    var roles := [writer, backlinkWriter, deleteQueue];
    assert roles[..2] == [writer, backlinkWriter] && roles[..2][..1] == [writer] && [writer][..0] == [];
    assert Distinct([writer]) == if writer.Some? then [writer.value] else [];
  }

  lemma PresentIsExact(writer: Option<SinkId>, backlinkWriter: Option<SinkId>, deleteQueue: Option<SinkId>)
    ensures var ids := Present(writer, backlinkWriter, deleteQueue);
            && (forall id :: id in ids <==> Some(id) == writer || Some(id) == backlinkWriter || Some(id) == deleteQueue)
            && (forall i, j :: 0 <= i < j < |ids| ==>
                  RoleOf(ids[i], writer, backlinkWriter) < RoleOf(ids[j], writer, backlinkWriter))
            && (forall i :: 0 <= i < |ids| ==> RoleOf(ids[i], writer, backlinkWriter) <= 2)
  {
  }

  /** Distinct keeps exactly the sinks that fill some role, each once. */
  lemma {:induction false} DistinctIsExact(roles: Roles)
    ensures forall id :: id in Distinct(roles) <==> Some(id) in roles
    ensures forall i, j :: 0 <= i < j < |Distinct(roles)| ==> Distinct(roles)[i] != Distinct(roles)[j]
  {
    if roles != [] {
      var front, last := roles[..|roles| - 1], roles[|roles| - 1];
      DistinctIsExact(front);
      assert roles == front + [last];
    }
  }

  lemma DistinctStep(roles: Roles, i: nat)
    requires i < |roles|
    ensures Distinct(roles[..i + 1]) ==
            match roles[i]
            case None => Distinct(roles[..i])
            case Some(id) => if id in Distinct(roles[..i]) then Distinct(roles[..i]) else Distinct(roles[..i]) + [id]
  {
    assert roles[..i + 1][..i] == roles[..i];
  }

  lemma NoRoles(roles: Roles, sinks: Sinks)
    ensures Distinct(roles[..0]) == []
    ensures NotifyTrace([], sinks) == [] && ReportTrace([], sinks) == [] && CloseTrace([], sinks) == []
    ensures AllClose([], sinks)
  {
  }

  lemma NotifySnoc(ids: seq<SinkId>, id: SinkId, sinks: Sinks)
    ensures NotifyTrace(ids + [id], sinks) == NotifyTrace(ids, sinks) + (if sinks(id).notifier then [Notified(id)] else [])
  {
    assert (ids + [id])[..|ids|] == ids;
  }

  lemma ReportSnoc(ids: seq<SinkId>, id: SinkId, sinks: Sinks)
    ensures ReportTrace(ids + [id], sinks) == ReportTrace(ids, sinks) + (if sinks(id).reporter then [Reported(id)] else [])
  {
    assert (ids + [id])[..|ids|] == ids;
  }

  lemma CloseSnoc(ids: seq<SinkId>, id: SinkId, sinks: Sinks)
    ensures CloseTrace(ids + [id], sinks) == CloseTrace(ids, sinks) + [Closed(id, sinks(id).closesNil)]
    ensures AllClose(ids + [id], sinks) <==> AllClose(ids, sinks) && sinks(id).closesNil
  {
    assert (ids + [id])[..|ids|] == ids;
    assert (ids + [id])[|ids|] == id;
    assert forall i :: 0 <= i < |ids| ==> (ids + [id])[i] == ids[i];
  }

  predicate NoRepeats(ids: seq<SinkId>) {
    forall i, j :: 0 <= i < j < |ids| ==> ids[i] != ids[j]
  }

  lemma FrontAndLast(ids: seq<SinkId>)
    requires NoRepeats(ids) && ids != []
    ensures NoRepeats(ids[..|ids| - 1]) && ids[|ids| - 1] !in ids[..|ids| - 1]
    ensures forall id :: id in ids <==> id in ids[..|ids| - 1] || id == ids[|ids| - 1]
  {
    assert ids == ids[..|ids| - 1] + [ids[|ids| - 1]];
  }

  lemma {:induction false} NotifyCounts(ids: seq<SinkId>, sinks: Sinks, e: Event)
    requires NoRepeats(ids)
    ensures multiset(NotifyTrace(ids, sinks))[e] == if e.Notified? && e.sink in ids && sinks(e.sink).notifier then 1 else 0
  {
    if ids != [] {
      FrontAndLast(ids);
      NotifyCounts(ids[..|ids| - 1], sinks, e);
    }
  }

  lemma {:induction false} ReportCounts(ids: seq<SinkId>, sinks: Sinks, e: Event)
    requires NoRepeats(ids)
    ensures multiset(ReportTrace(ids, sinks))[e] == if e.Reported? && e.sink in ids && sinks(e.sink).reporter then 1 else 0
  {
    if ids != [] {
      FrontAndLast(ids);
      ReportCounts(ids[..|ids| - 1], sinks, e);
    }
  }

  lemma {:induction false} CloseCounts(ids: seq<SinkId>, sinks: Sinks, e: Event)
    requires NoRepeats(ids)
    ensures multiset(CloseTrace(ids, sinks))[e] == if e.Closed? && e.sink in ids && e.ok == sinks(e.sink).closesNil then 1 else 0
  {
    if ids != [] {
      FrontAndLast(ids);
      CloseCounts(ids[..|ids| - 1], sinks, e);
    }
  }

  lemma OccurrenceCounts(es: seq<Event>, i: nat)
    requires i < |es|
    ensures multiset(es)[es[i]] > 0
  {
    assert es[i] in es;
  }

  lemma NotifyTraceKind(ids: seq<SinkId>, sinks: Sinks)
    requires NoRepeats(ids)
    ensures forall i :: 0 <= i < |NotifyTrace(ids, sinks)| ==> NotifyTrace(ids, sinks)[i].Notified?
  {
    hide NotifyTrace, NoRepeats;
    forall i | 0 <= i < |NotifyTrace(ids, sinks)| ensures NotifyTrace(ids, sinks)[i].Notified? {
      NotifyCounts(ids, sinks, NotifyTrace(ids, sinks)[i]);
      OccurrenceCounts(NotifyTrace(ids, sinks), i);
    }
  }

  lemma ReportTraceKind(ids: seq<SinkId>, sinks: Sinks)
    requires NoRepeats(ids)
    ensures forall i :: 0 <= i < |ReportTrace(ids, sinks)| ==> ReportTrace(ids, sinks)[i].Reported?
  {
    hide ReportTrace, NoRepeats;
    forall i | 0 <= i < |ReportTrace(ids, sinks)| ensures ReportTrace(ids, sinks)[i].Reported? {
      ReportCounts(ids, sinks, ReportTrace(ids, sinks)[i]);
      OccurrenceCounts(ReportTrace(ids, sinks), i);
    }
  }

  lemma {:induction false} CloseTraceIsExact(ids: seq<SinkId>, sinks: Sinks)
    ensures |CloseTrace(ids, sinks)| == |ids|
    ensures forall i :: 0 <= i < |ids| ==> CloseTrace(ids, sinks)[i] == Closed(ids[i], sinks(ids[i]).closesNil)
  {
    if ids != [] { CloseTraceIsExact(ids[..|ids| - 1], sinks); }
  }

  lemma StopTraceKind(ids: seq<SinkId>, w: World, disableBackfill: bool)
    requires NoRepeats(ids)
    ensures var t := StopTrace(ids, w, disableBackfill);
            forall i :: 0 <= i < |t| ==> !t[i].Closed? && !t[i].Waited? && !t[i].CursorSaved?
  {
    NotifyTraceKind(ids, w.sinks);
    hide NotifyTrace, NoRepeats;
  }

  /** Which of a shutdown's effects happens, by the sinks present. */
  predicate Effect(e: Event, ids: seq<SinkId>, w: World, disableBackfill: bool, cursor: int) {
    match e
    case StopAdmission => true
    case Notified(id) => id in ids && w.sinks(id).notifier
    case BackfillStopped(ok) => !disableBackfill && ok == w.backfillOk
    case Waited(ok) => (disableBackfill || w.backfillOk) && ok == w.quiesced
    case Reported(id) => !Quiesced(w, disableBackfill) && id in ids && w.sinks(id).reporter
    case Closed(id, ok) => Quiesced(w, disableBackfill) && id in ids && ok == w.sinks(id).closesNil
    case CursorSaved(c, ok) => Quiesced(w, disableBackfill) && AllClose(ids, w.sinks) && c == cursor && cursor != 0 && ok == w.saveOk
  }

  /** A shutdown's trace holds each effect that happens once, and no other. */
  lemma ShutdownCounts(ids: seq<SinkId>, w: World, disableBackfill: bool, cursor: int, e: Event)
    requires NoRepeats(ids)
    ensures multiset(ShutdownTrace(ids, w, disableBackfill, cursor))[e]
            == if Effect(e, ids, w, disableBackfill, cursor) then 1 else 0
  {
    hide NotifyTrace, ReportTrace, CloseTrace, NoRepeats, AllClose, DrainTrace;
    NotifyCounts(ids, w.sinks, e);
    ReportCounts(ids, w.sinks, e);
    DrainCounts(ids, w, cursor, e);
  }

  lemma DrainCounts(ids: seq<SinkId>, w: World, cursor: int, e: Event)
    requires NoRepeats(ids)
    ensures multiset(DrainTrace(ids, w, cursor))[e]
            == match e
               case Waited(ok) => if ok == w.quiesced then 1 else 0
               case Reported(id) => if !w.quiesced && id in ids && w.sinks(id).reporter then 1 else 0
               case Closed(id, ok) => if w.quiesced && id in ids && ok == w.sinks(id).closesNil then 1 else 0
               case CursorSaved(c, ok) =>
                 if w.quiesced && AllClose(ids, w.sinks) && c == cursor && cursor != 0 && ok == w.saveOk then 1 else 0
               case _ => 0
  {
    hide NotifyTrace, ReportTrace, CloseTrace, NoRepeats, AllClose;
    ReportCounts(ids, w.sinks, e);
    CloseCounts(ids, w.sinks, e);
  }

  /**
    However the roles alias: with producers quiesced each sink that fills a role
    is closed exactly once; otherwise no sink is closed.
  */
  lemma ClosesEachSinkOnce(roles: Roles, w: World, disableBackfill: bool, cursor: int, id: SinkId)
    ensures var t := multiset(ShutdownTrace(Distinct(roles), w, disableBackfill, cursor));
            t[Closed(id, true)] + t[Closed(id, false)] == if Quiesced(w, disableBackfill) && Some(id) in roles then 1 else 0
  {
    DistinctIsExact(roles);
    hide Distinct, ShutdownTrace;
    ShutdownCounts(Distinct(roles), w, disableBackfill, cursor, Closed(id, true));
    ShutdownCounts(Distinct(roles), w, disableBackfill, cursor, Closed(id, false));
  }

  /** The whole shutdown, read off the three fields. */
  lemma ShutdownIsExact(writer: Option<SinkId>, backlinkWriter: Option<SinkId>, deleteQueue: Option<SinkId>,
                        w: World, disableBackfill: bool, cursor: int)
    ensures var t := ShutdownTrace(Present(writer, backlinkWriter, deleteQueue), w, disableBackfill, cursor);
            && (forall e :: multiset(t)[e]
                  == if Happens(e, writer, backlinkWriter, deleteQueue, w, disableBackfill, cursor) then 1 else 0)
            && InPlaces(t, writer, backlinkWriter)
    ensures AllClose(Present(writer, backlinkWriter, deleteQueue), w.sinks)
            <==> EachCloses(writer, backlinkWriter, deleteQueue, w.sinks)
  {
    var ids := Present(writer, backlinkWriter, deleteQueue);
    var t := ShutdownTrace(ids, w, disableBackfill, cursor);
    PresentIsExact(writer, backlinkWriter, deleteQueue);
    EachMeansAll(writer, backlinkWriter, deleteQueue, w.sinks);
    hide Present, ShutdownTrace, InPlaces, AllClose, EachCloses, Quiesced;
    forall e ensures multiset(t)[e] == if Happens(e, writer, backlinkWriter, deleteQueue, w, disableBackfill, cursor) then 1 else 0 {
      ShutdownCounts(ids, w, disableBackfill, cursor, e);
    }
    ShutdownInPlaces(ids, writer, backlinkWriter, w, disableBackfill, cursor);
  }

  lemma NotifiedEach(writer: Option<SinkId>, backlinkWriter: Option<SinkId>, deleteQueue: Option<SinkId>, sinks: Sinks)
    ensures forall id: SinkId :: multiset(NotifyTrace(Present(writer, backlinkWriter, deleteQueue), sinks))[Notified(id)]
              == if (Some(id) == writer || Some(id) == backlinkWriter || Some(id) == deleteQueue) && sinks(id).notifier then 1 else 0
  {
    hide Present, NotifyTrace;
    PresentIsExact(writer, backlinkWriter, deleteQueue);
    forall id: SinkId ensures multiset(NotifyTrace(Present(writer, backlinkWriter, deleteQueue), sinks))[Notified(id)]
      == if (Some(id) == writer || Some(id) == backlinkWriter || Some(id) == deleteQueue) && sinks(id).notifier then 1 else 0 {
      NotifyCounts(Present(writer, backlinkWriter, deleteQueue), sinks, Notified(id));
    }
  }

  lemma ReportedEach(writer: Option<SinkId>, backlinkWriter: Option<SinkId>, deleteQueue: Option<SinkId>, sinks: Sinks)
    ensures forall id: SinkId :: multiset(ReportTrace(Present(writer, backlinkWriter, deleteQueue), sinks))[Reported(id)]
              == if (Some(id) == writer || Some(id) == backlinkWriter || Some(id) == deleteQueue) && sinks(id).reporter then 1 else 0
  {
    hide Present, ReportTrace;
    PresentIsExact(writer, backlinkWriter, deleteQueue);
    forall id: SinkId ensures multiset(ReportTrace(Present(writer, backlinkWriter, deleteQueue), sinks))[Reported(id)]
      == if (Some(id) == writer || Some(id) == backlinkWriter || Some(id) == deleteQueue) && sinks(id).reporter then 1 else 0 {
      ReportCounts(Present(writer, backlinkWriter, deleteQueue), sinks, Reported(id));
    }
  }

  lemma ClosedEach(writer: Option<SinkId>, backlinkWriter: Option<SinkId>, deleteQueue: Option<SinkId>, sinks: Sinks)
    ensures forall id: SinkId, ok :: multiset(CloseTrace(Present(writer, backlinkWriter, deleteQueue), sinks))[Closed(id, ok)]
              == if (Some(id) == writer || Some(id) == backlinkWriter || Some(id) == deleteQueue) && ok == sinks(id).closesNil then 1 else 0
    ensures AllClose(Present(writer, backlinkWriter, deleteQueue), sinks) <==> EachCloses(writer, backlinkWriter, deleteQueue, sinks)
  {
    hide Present, CloseTrace;
    PresentIsExact(writer, backlinkWriter, deleteQueue);
    EachMeansAll(writer, backlinkWriter, deleteQueue, sinks);
    hide AllClose, EachCloses;
    forall id: SinkId, ok ensures multiset(CloseTrace(Present(writer, backlinkWriter, deleteQueue), sinks))[Closed(id, ok)]
      == if (Some(id) == writer || Some(id) == backlinkWriter || Some(id) == deleteQueue) && ok == sinks(id).closesNil then 1 else 0 {
      CloseCounts(Present(writer, backlinkWriter, deleteQueue), sinks, Closed(id, ok));
    }
  }

  lemma EachMeansAll(writer: Option<SinkId>, backlinkWriter: Option<SinkId>, deleteQueue: Option<SinkId>, sinks: Sinks)
    ensures AllClose(Present(writer, backlinkWriter, deleteQueue), sinks) <==> EachCloses(writer, backlinkWriter, deleteQueue, sinks)
  {
    var ids := Present(writer, backlinkWriter, deleteQueue);
    PresentIsExact(writer, backlinkWriter, deleteQueue);
    hide Present, RoleOf;
    if AllClose(ids, sinks) {
      forall id | id in ids ensures sinks(id).closesNil {
        var i :| 0 <= i < |ids| && ids[i] == id;
      }
      assert forall id :: Some(id) == writer || Some(id) == backlinkWriter || Some(id) == deleteQueue ==> id in ids;
      assert writer.Some? ==> writer.value in ids;
      assert backlinkWriter.Some? ==> backlinkWriter.value in ids;
      assert deleteQueue.Some? ==> deleteQueue.value in ids;
    } else {
      var i :| 0 <= i < |ids| && !sinks(ids[i]).closesNil;
      assert ids[i] in ids;
    }
  }

  /** The sinks are listed in the order of their roles. */
  predicate InRoles(ids: seq<SinkId>, writer: Option<SinkId>, backlinkWriter: Option<SinkId>) {
    forall i, j :: 0 <= i < j < |ids| ==> RoleOf(ids[i], writer, backlinkWriter) < RoleOf(ids[j], writer, backlinkWriter)
  }

  /** Places of the effects all lie from low up to below high. */
  predicate Within(es: seq<Event>, writer: Option<SinkId>, backlinkWriter: Option<SinkId>, low: nat, high: nat) {
    && InPlaces(es, writer, backlinkWriter)
    && forall i :: 0 <= i < |es| ==> low <= Place(es[i], writer, backlinkWriter) < high
  }

  lemma WithinConcat(a: seq<Event>, b: seq<Event>, writer: Option<SinkId>, backlinkWriter: Option<SinkId>, low: nat, mid: nat, high: nat)
    requires Within(a, writer, backlinkWriter, low, mid) && Within(b, writer, backlinkWriter, mid, high) && low <= mid <= high
    ensures Within(a + b, writer, backlinkWriter, low, high)
  {
    hide Place;
  }

  lemma WithinSnoc(es: seq<Event>, last: seq<Event>, writer: Option<SinkId>, backlinkWriter: Option<SinkId>,
                   low: nat, high: nat, k: nat, top: nat)
    requires Within(es, writer, backlinkWriter, low, high) && low <= high <= k < top
    requires Within(last, writer, backlinkWriter, k, k + 1)
    ensures Within(es + last, writer, backlinkWriter, low, k + 1) && Within(es + last, writer, backlinkWriter, low, top)
  {
    hide Place;
  }

  lemma EmptyWithin(writer: Option<SinkId>, backlinkWriter: Option<SinkId>, low: nat, high: nat)
    ensures Within([], writer, backlinkWriter, low, high)
  {
  }

  lemma SinkPlaces(id: SinkId, ok: bool, writer: Option<SinkId>, backlinkWriter: Option<SinkId>)
    ensures var k := RoleOf(id, writer, backlinkWriter);
            && Within([Notified(id)], writer, backlinkWriter, 1 + k, 2 + k)
            && Within([Reported(id)], writer, backlinkWriter, 6 + k, 7 + k)
            && Within([Closed(id, ok)], writer, backlinkWriter, 6 + k, 7 + k)
  {
    hide RoleOf;
  }

  lemma FrontInRoles(ids: seq<SinkId>, writer: Option<SinkId>, backlinkWriter: Option<SinkId>)
    requires InRoles(ids, writer, backlinkWriter) && ids != []
    ensures var front, k := ids[..|ids| - 1], RoleOf(ids[|ids| - 1], writer, backlinkWriter);
            && ids == front + [ids[|ids| - 1]] && k <= 2
            && InRoles(front, writer, backlinkWriter)
            && (front != [] ==> RoleOf(front[|front| - 1], writer, backlinkWriter) < k)
  {
  }

  lemma {:induction false} NotifyWithin(ids: seq<SinkId>, writer: Option<SinkId>, backlinkWriter: Option<SinkId>, sinks: Sinks)
    requires InRoles(ids, writer, backlinkWriter)
    ensures Within(NotifyTrace(ids, sinks), writer, backlinkWriter, 1,
                   if ids == [] then 1 else 2 + RoleOf(ids[|ids| - 1], writer, backlinkWriter))
    ensures Within(NotifyTrace(ids, sinks), writer, backlinkWriter, 1, 4)
  {
    hide NotifyTrace, Within, Place, RoleOf, InRoles, AllClose;
    if ids == [] {
      NoRoles([], sinks);
      EmptyWithin(writer, backlinkWriter, 1, 1);
      EmptyWithin(writer, backlinkWriter, 1, 4);
    } else {
      var front, id := ids[..|ids| - 1], ids[|ids| - 1];
      var k := 1 + RoleOf(id, writer, backlinkWriter);
      FrontInRoles(ids, writer, backlinkWriter);
      NotifyWithin(front, writer, backlinkWriter, sinks);
      SinkPlaces(id, sinks(id).closesNil, writer, backlinkWriter);
      EmptyWithin(writer, backlinkWriter, k, k + 1);
      NotifySnoc(front, id, sinks);
      var high := if front == [] then 1 else 2 + RoleOf(front[|front| - 1], writer, backlinkWriter);
      WithinSnoc(NotifyTrace(front, sinks), if sinks(id).notifier then [Notified(id)] else [], writer, backlinkWriter, 1, high, k, 4);
    }
  }

  lemma {:induction false} ReportWithin(ids: seq<SinkId>, writer: Option<SinkId>, backlinkWriter: Option<SinkId>, sinks: Sinks)
    requires InRoles(ids, writer, backlinkWriter)
    ensures Within(ReportTrace(ids, sinks), writer, backlinkWriter, 6,
                   if ids == [] then 6 else 7 + RoleOf(ids[|ids| - 1], writer, backlinkWriter))
    ensures Within(ReportTrace(ids, sinks), writer, backlinkWriter, 6, 9)
  {
    hide ReportTrace, Within, Place, RoleOf, InRoles, AllClose;
    if ids == [] {
      NoRoles([], sinks);
      EmptyWithin(writer, backlinkWriter, 6, 6);
      EmptyWithin(writer, backlinkWriter, 6, 9);
    } else {
      var front, id := ids[..|ids| - 1], ids[|ids| - 1];
      var k := 6 + RoleOf(id, writer, backlinkWriter);
      FrontInRoles(ids, writer, backlinkWriter);
      ReportWithin(front, writer, backlinkWriter, sinks);
      SinkPlaces(id, sinks(id).closesNil, writer, backlinkWriter);
      EmptyWithin(writer, backlinkWriter, k, k + 1);
      ReportSnoc(front, id, sinks);
      var high := if front == [] then 6 else 7 + RoleOf(front[|front| - 1], writer, backlinkWriter);
      WithinSnoc(ReportTrace(front, sinks), if sinks(id).reporter then [Reported(id)] else [], writer, backlinkWriter, 6, high, k, 9);
    }
  }

  lemma {:induction false} CloseWithin(ids: seq<SinkId>, writer: Option<SinkId>, backlinkWriter: Option<SinkId>, sinks: Sinks)
    requires InRoles(ids, writer, backlinkWriter)
    ensures Within(CloseTrace(ids, sinks), writer, backlinkWriter, 6,
                   if ids == [] then 6 else 7 + RoleOf(ids[|ids| - 1], writer, backlinkWriter))
    ensures Within(CloseTrace(ids, sinks), writer, backlinkWriter, 6, 9)
  {
    hide CloseTrace, Within, Place, RoleOf, InRoles, AllClose;
    if ids == [] {
      NoRoles([], sinks);
      EmptyWithin(writer, backlinkWriter, 6, 6);
      EmptyWithin(writer, backlinkWriter, 6, 9);
    } else {
      var front, id := ids[..|ids| - 1], ids[|ids| - 1];
      var k := 6 + RoleOf(id, writer, backlinkWriter);
      FrontInRoles(ids, writer, backlinkWriter);
      CloseWithin(front, writer, backlinkWriter, sinks);
      SinkPlaces(id, sinks(id).closesNil, writer, backlinkWriter);
      EmptyWithin(writer, backlinkWriter, k, k + 1);
      CloseSnoc(front, id, sinks);
      var high := if front == [] then 6 else 7 + RoleOf(front[|front| - 1], writer, backlinkWriter);
      WithinSnoc(CloseTrace(front, sinks), [Closed(id, sinks(id).closesNil)], writer, backlinkWriter, 6, high, k, 9);
    }
  }

  lemma ShutdownInPlaces(ids: seq<SinkId>, writer: Option<SinkId>, backlinkWriter: Option<SinkId>,
                         w: World, disableBackfill: bool, cursor: int)
    requires InRoles(ids, writer, backlinkWriter)
    ensures InPlaces(ShutdownTrace(ids, w, disableBackfill, cursor), writer, backlinkWriter)
  {
    hide StopTrace, DrainTrace, ReportTrace, InPlaces, InRoles;
    StopInPlaces(ids, writer, backlinkWriter, w, disableBackfill);
    ReportWithin(ids, writer, backlinkWriter, w.sinks);
    DrainInPlaces(ids, writer, backlinkWriter, w, cursor);
    StopsThenDrains(StopTrace(ids, w, disableBackfill), ReportTrace(ids, w.sinks), DrainTrace(ids, w, cursor), writer, backlinkWriter);
  }

  lemma WithinWiden(es: seq<Event>, writer: Option<SinkId>, backlinkWriter: Option<SinkId>, low: nat, high: nat, top: nat)
    requires Within(es, writer, backlinkWriter, low, high) && high <= top
    ensures Within(es, writer, backlinkWriter, low, top)
  {
    hide Place;
  }

  lemma LonePlaces(ok: bool, cursor: int, writer: Option<SinkId>, backlinkWriter: Option<SinkId>)
    ensures Within([StopAdmission], writer, backlinkWriter, 0, 1)
    ensures Within([BackfillStopped(ok)], writer, backlinkWriter, 4, 5)
    ensures Within([Waited(ok)], writer, backlinkWriter, 5, 6)
    ensures Within([CursorSaved(cursor, ok)], writer, backlinkWriter, 9, 10)
  {
  }

  lemma StopInPlaces(ids: seq<SinkId>, writer: Option<SinkId>, backlinkWriter: Option<SinkId>, w: World, disableBackfill: bool)
    requires InRoles(ids, writer, backlinkWriter)
    ensures Within(StopTrace(ids, w, disableBackfill), writer, backlinkWriter, 0, 5)
  {
    hide NotifyTrace, InRoles, RoleOf, Within, Place;
    var answer := if disableBackfill then [] else [BackfillStopped(w.backfillOk)];
    var notes := NotifyTrace(ids, w.sinks);
    NotifyWithin(ids, writer, backlinkWriter, w.sinks);
    LonePlaces(w.backfillOk, 0, writer, backlinkWriter);
    EmptyWithin(writer, backlinkWriter, 4, 5);
    WithinConcat([StopAdmission], notes, writer, backlinkWriter, 0, 1, 4);
    WithinConcat([StopAdmission] + notes, answer, writer, backlinkWriter, 0, 4, 5);
  }

  lemma DrainInPlaces(ids: seq<SinkId>, writer: Option<SinkId>, backlinkWriter: Option<SinkId>, w: World, cursor: int)
    requires InRoles(ids, writer, backlinkWriter)
    ensures Within(DrainTrace(ids, w, cursor), writer, backlinkWriter, 5, 10)
  {
    hide ReportTrace, CloseTrace, AllClose, InRoles, RoleOf, Within, Place;
    var save := if AllClose(ids, w.sinks) && cursor != 0 then [CursorSaved(cursor, w.saveOk)] else [];
    ReportWithin(ids, writer, backlinkWriter, w.sinks);
    CloseWithin(ids, writer, backlinkWriter, w.sinks);
    LonePlaces(w.quiesced, 0, writer, backlinkWriter);
    LonePlaces(w.saveOk, cursor, writer, backlinkWriter);
    EmptyWithin(writer, backlinkWriter, 9, 10);
    var waited := [Waited(w.quiesced)];
    WithinConcat(waited, ReportTrace(ids, w.sinks), writer, backlinkWriter, 5, 6, 9);
    WithinConcat(waited, CloseTrace(ids, w.sinks), writer, backlinkWriter, 5, 6, 9);
    WithinWiden(waited + ReportTrace(ids, w.sinks), writer, backlinkWriter, 5, 9, 10);
    WithinConcat(waited + CloseTrace(ids, w.sinks), save, writer, backlinkWriter, 5, 9, 10);
  }

  lemma StopsThenDrains(stop: seq<Event>, reports: seq<Event>, drain: seq<Event>, writer: Option<SinkId>, backlinkWriter: Option<SinkId>)
    requires Within(stop, writer, backlinkWriter, 0, 5) && Within(reports, writer, backlinkWriter, 6, 9)
    requires Within(drain, writer, backlinkWriter, 5, 10)
    ensures InPlaces(stop + reports, writer, backlinkWriter) && InPlaces(stop + drain, writer, backlinkWriter)
  {
    hide Place;
  }

  /** When a shutdown saves the cursor. */
  ghost predicate Saves(roles: Roles, w: World, disableBackfill: bool, cursor: int) {
    Quiesced(w, disableBackfill) && cursor != 0 && forall id :: Some(id) in roles ==> w.sinks(id).closesNil
  }

  lemma AllCloseMeansRoles(roles: Roles, sinks: Sinks)
    ensures AllClose(Distinct(roles), sinks) <==> forall id :: Some(id) in roles ==> sinks(id).closesNil
  {
    DistinctIsExact(roles);
    hide Distinct;
    if AllClose(Distinct(roles), sinks) {
      forall id | Some(id) in roles ensures sinks(id).closesNil {
        assert id in Distinct(roles);
      }
    }
  }

  /**
    The cursor is saved exactly when producers quiesced, every sink that fills a
    role returned nil and there is a cursor; it is the last thing done.
  */
  lemma CursorIsSavedLast(roles: Roles, w: World, disableBackfill: bool, cursor: int)
    ensures var t := ShutdownTrace(Distinct(roles), w, disableBackfill, cursor);
            && (Saves(roles, w, disableBackfill, cursor) ==> t[|t| - 1] == CursorSaved(cursor, w.saveOk))
            && (forall i :: 0 <= i < |t| && t[i].CursorSaved? ==> Saves(roles, w, disableBackfill, cursor) && i == |t| - 1)
  {
    hide Distinct, StopTrace, DrainTrace, ReportTrace, AllClose, NoRepeats;
    var ids := Distinct(roles);
    AllCloseMeansRoles(roles, w.sinks);
    DistinctIsExact(roles);
    DistinctHasNoRepeats(roles);
    StopTraceKind(ids, w, disableBackfill);
    ReportTraceKind(ids, w.sinks);
    DrainSavesLast(ids, w, cursor);
    hide Quiesced;
    assert Saves(roles, w, disableBackfill, cursor) <==> Quiesced(w, disableBackfill) && cursor != 0 && AllClose(ids, w.sinks);
  }

  lemma DistinctHasNoRepeats(roles: Roles)
    ensures NoRepeats(Distinct(roles))
  {
    DistinctIsExact(roles);
    hide Distinct;
  }

  lemma DrainSavesLast(ids: seq<SinkId>, w: World, cursor: int)
    requires NoRepeats(ids)
    ensures var d := DrainTrace(ids, w, cursor);
            && d != []
            && (w.quiesced && AllClose(ids, w.sinks) && cursor != 0 ==> d[|d| - 1] == CursorSaved(cursor, w.saveOk))
            && (forall i :: 0 <= i < |d| && d[i].CursorSaved? ==> w.quiesced && AllClose(ids, w.sinks) && cursor != 0 && i == |d| - 1)
  {
    ReportTraceKind(ids, w.sinks);
    CloseTraceIsExact(ids, w.sinks);
    hide ReportTrace, CloseTrace, AllClose, NoRepeats;
  }

  /** No sink is closed before every active producer has finished. */
  lemma ClosesAfterQuiescence(roles: Roles, w: World, disableBackfill: bool, cursor: int, i: nat)
    requires var t := ShutdownTrace(Distinct(roles), w, disableBackfill, cursor); i < |t| && t[i].Closed?
    ensures var t := ShutdownTrace(Distinct(roles), w, disableBackfill, cursor);
            exists j :: 0 <= j < i && t[j] == Waited(true)
  {
    var ids := Distinct(roles);
    var t := ShutdownTrace(ids, w, disableBackfill, cursor);
    DistinctIsExact(roles);
    StopTraceKind(ids, w, disableBackfill);
    ReportTraceKind(ids, w.sinks);
    hide Distinct, StopTrace, ReportTrace, CloseTrace, AllClose, NoRepeats;
    assert t[|StopTrace(ids, w, disableBackfill)|] == Waited(true);
  }
}
