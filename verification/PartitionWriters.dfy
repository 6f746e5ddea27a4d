/**
  The batch writers: a map of growing buffers, one per partition, from which
  batches are cut and handed to insert goroutines. Buffers and batches are Go
  slices over heap arrays, so the invariant also says that no array is shared:
  what is appended later cannot reach a batch already handed off.
*/
module PartitionWriters {
  import opened Common
  import opened PartitionLedger

  /** A Go slice from the start of its array; the array's length is its capacity. */
  datatype Slice = Slice(cells: array<Row>, len: nat)

  /** A partition buffer. */
  datatype Buffer = Buffer(slice: Slice, lastWrite: int)

  /** A sweep empties the buffers not written to for longer than age and leaves the others alone. */
  predicate AfterSweep(was: Buffer, b: Buffer, now: int, age: int) {
    if was.slice.len > 0 && now - was.lastWrite > age then b.slice.len == 0 && b.lastWrite == was.lastWrite else b == was
  }

  /** The partitions of some rows. */
  function KeysOf(key: Key, rows: seq<Row>): set<int> {
    set i | 0 <= i < |rows| :: key(rows[i])
  }

  /** The given partitions were written to at `now`; no other buffer changed, none disappeared. */
  predicate Stamped(was: map<int, Buffer>, b: map<int, Buffer>, written: set<int>, now: int) {
    && b.Keys == was.Keys + written
    && (forall k :: k in written ==> b[k].lastWrite == now)
    && (forall k :: k in was && k !in written ==> b[k] == was[k])
  }

  /** append: in place if the capacity allows, in a larger copy otherwise. */
  method Append(s: Slice, rows: seq<Row>) returns (r: Slice)
    requires s.len <= s.cells.Length
    modifies s.cells
    ensures r.len <= r.cells.Length && r.cells[..r.len] == old(s.cells[..s.len]) + rows
    ensures r.cells == s.cells || fresh(r.cells)
  {
    var cells := s.cells;
    var need := s.len + |rows|;
    if need > cells.Length {
      cells := new Row[if need > 2 * s.cells.Length then need else 2 * s.cells.Length];
      forall i | 0 <= i < s.len {
        cells[i] := s.cells[i];
      }
    }
    forall i | 0 <= i < |rows| {
      cells[s.len + i] := rows[i];
    }
    r := Slice(cells, need);
    assert cells[..need] == cells[..s.len] + cells[s.len..need];
    assert cells[s.len..need] == rows;
  }

  /** make and copy: the rows after the first n, in an array of their own. */
  method Rest(s: Slice, n: nat) returns (r: array<Row>)
    requires n <= s.len <= s.cells.Length
    ensures fresh(r) && r[..] == s.cells[..s.len][n..]
  {
    r := new Row[s.len - n];
    forall i | 0 <= i < r.Length {
      r[i] := s.cells[n + i];
    }
  }

  /** The state BacklinkWriter and BatchWriter guard with their mutex. */
  class PartitionWriter {
    const key: Key
    const batchSize: nat
    var partitions: map<int, Buffer>
    /** Batches in the order they were cut. */
    ghost var taken: seq<Slice>
    /** The same state as values: what was written, what the batches held when cut, what the buffers hold. */
    ghost var ledger: Ledger

    /** The arrays of the buffers, and those of the batches. */
    ghost var live: set<array<Row>>
    ghost var handed: set<array<Row>>

    /** Lengths fit, no two buffers share an array, no batch shares one with a buffer. */
    ghost predicate Separate()
      reads this
    {
      && live !! handed
      && (forall k :: k in partitions ==>
            partitions[k].slice.cells in live && partitions[k].slice.len <= partitions[k].slice.cells.Length)
      && (forall j, k :: j in partitions && k in partitions && j != k ==>
            partitions[j].slice.cells != partitions[k].slice.cells)
      && (forall i :: 0 <= i < |taken| ==> taken[i].cells in handed && taken[i].len <= taken[i].cells.Length)
    }

    /** The heap holds what the ledger says; every batch still holds what it held when it was cut. */
    ghost predicate Tied()
      reads this, live, handed
    {
      && batchSize > 0
      && Separate()
      && ledger.buffers.Keys == partitions.Keys
      && (forall k :: k in partitions ==>
            partitions[k].slice.cells[..partitions[k].slice.len] == ledger.buffers[k])
      && |taken| == |ledger.batches|
      && (forall i :: 0 <= i < |taken| ==> taken[i].cells[..taken[i].len] == ledger.batches[i])
    }

    ghost predicate Valid()
      reads this, live, handed
    {
      Tied() && Kept(key, batchSize, ledger)
    }

    constructor (key: Key, batchSize: nat)
      requires batchSize > 0
      ensures Valid() && this.key == key && this.batchSize == batchSize
      ensures ledger == Ledger([], [], map[]) && taken == [] && live == {}
    {
      this.key, this.batchSize := key, batchSize;
      partitions := map[];
      taken, live, handed, ledger := [], {}, {}, Ledger([], [], map[]);
    }

    lemma BuffersAgree()
      requires Tied()
      ensures batchSize > 0 && ledger.buffers.Keys == partitions.Keys
      ensures forall k :: k in partitions ==> |Buffered(ledger, k)| == partitions[k].slice.len
    {
    }

    /** Notes rows as written. */
    ghost method NoteWritten(rows: seq<Row>)
      requires Tied()
      modifies this`ledger
      ensures Tied() && live == old(live) && handed == old(handed)
      ensures ledger == old(ledger).(written := old(ledger).written + rows)
    {
      ledger := ledger.(written := ledger.written + rows);
    }

    /** The buffer of a partition, made with room for one batch if it is not there. */
    method Prepare(pk: int)
      requires Tied()
      modifies this`partitions, this`ledger, this`live
      ensures Tied() && fresh(live - old(live))
      ensures pk in partitions && partitions.Keys == old(partitions).Keys + {pk}
      ensures forall k :: k in old(partitions) ==> partitions[k] == old(partitions)[k]
      ensures ledger == old(ledger).(buffers := old(ledger).buffers[pk := Buffered(old(ledger), pk)])
    {
      if pk in partitions {
        assert ledger.buffers[pk := Buffered(ledger, pk)] == ledger.buffers;
        return;
      }
      var cells := new Row[batchSize];
      partitions := partitions[pk := Buffer(Slice(cells, 0), 0)];
      live := live + {cells};
      ledger := ledger.(buffers := ledger.buffers[pk := []]);
    }

    /** A group's rows go to the end of its buffer, whose age starts again. */
    method Extend(pk: int, rows: seq<Row>, now: int)
      requires Tied() && pk in partitions
      modifies this`partitions, this`ledger, this`live, live
      ensures Tied() && fresh(live - old(live))
      ensures partitions.Keys == old(partitions).Keys
      ensures ledger == Extended(old(ledger), pk, rows)
      ensures partitions[pk].lastWrite == now
      ensures forall k :: k in partitions && k != pk ==> partitions[k] == old(partitions)[k]
    {
      var s := Append(partitions[pk].slice, rows);
      partitions := partitions[pk := Buffer(s, now)];
      live := live + {s.cells};
      ledger := ledger.(buffers := ledger.buffers[pk := ledger.buffers[pk] + rows]);
    }

    /** Gives a partition a buffer on an array nobody else has; its old array is left behind. */
    method SetBuffer(pk: int, b: Buffer)
      requires Tied() && pk in partitions && b.slice.len <= b.slice.cells.Length
      requires b.slice.cells !in live && b.slice.cells !in handed
      modifies this`partitions, this`ledger, this`live
      ensures Tied() && live == old(live) + {b.slice.cells}
      ensures partitions == old(partitions)[pk := b]
      ensures ledger == old(ledger).(buffers := old(ledger).buffers[pk := b.slice.cells[..b.slice.len]])
    {
      partitions := partitions[pk := b];
      live := live + {b.slice.cells};
      ledger := ledger.(buffers := ledger.buffers[pk := b.slice.cells[..b.slice.len]]);
    }

    /** The array a buffer has left behind becomes a batch's. */
    ghost method HandOff(batch: Slice)
      requires Tied() && batch.len <= batch.cells.Length && batch.cells in live
      requires forall k :: k in partitions ==> partitions[k].slice.cells != batch.cells
      modifies this`taken, this`ledger, this`live, this`handed
      ensures Tied() && taken == old(taken) + [batch] && live <= old(live)
      ensures ledger == old(ledger).(batches := old(ledger).batches + [batch.cells[..batch.len]])
    {
      taken := taken + [batch];
      live, handed := live - {batch.cells}, handed + {batch.cells};
      ledger := ledger.(batches := ledger.batches + [batch.cells[..batch.len]]);
    }

    lemma OwnArray(pk: int)
      requires Tied() && pk in partitions
      ensures partitions[pk].slice.cells in live && partitions[pk].slice.len <= partitions[pk].slice.cells.Length
      ensures forall k :: k in partitions && k != pk ==> partitions[k].slice.cells != partitions[pk].slice.cells
      ensures pk in ledger.buffers && Buffered(ledger, pk) == ledger.buffers[pk]
      ensures ledger.buffers[pk] == partitions[pk].slice.cells[..partitions[pk].slice.len]
    {
    }

    /** The front of a buffer becomes a batch; the rest moves to a new array. */
    method Cut(pk: int) returns (batch: Slice)
      requires Tied() && pk in partitions && partitions[pk].slice.len >= batchSize
      modifies this
      ensures Tied() && fresh(live - old(live))
      ensures partitions.Keys == old(partitions).Keys && taken == old(taken) + [batch]
      ensures batchSize <= |Buffered(old(ledger), pk)| && ledger == CutFront(old(ledger), pk, batchSize)
      ensures partitions[pk].lastWrite == old(partitions)[pk].lastWrite
      ensures partitions[pk].slice.len < old(partitions)[pk].slice.len
      ensures forall k :: k in partitions && k != pk ==> partitions[k] == old(partitions)[k]
    {
      BuffersAgree();
      OwnArray(pk);
      hide Tied, Buffered;
      var buf := partitions[pk];
      var s := buf.slice;
      batch := Slice(s.cells, batchSize);
      var remaining := Rest(s, batchSize);
      assert remaining[..remaining.Length] == remaining[..];
      ghost var rows := s.cells[..s.len];
      assert s.cells[..batchSize] == rows[..batchSize];
      SetBuffer(pk, Buffer(Slice(remaining, remaining.Length), buf.lastWrite));
      HandOff(batch);
    }

    /** takePartitionLocked: the whole buffer becomes a batch, if it holds anything. */
    method Take(pk: int) returns (batch: Option<Slice>)
      requires Tied()
      modifies this
      ensures Tied() && fresh(live - old(live))
      ensures partitions.Keys == old(partitions).Keys
      ensures batch.Some? <==> Buffered(old(ledger), pk) != []
      ensures batch.Some? ==> taken == old(taken) + [batch.value]
                              && ledger == Ledger(old(ledger).written, old(ledger).batches + [old(ledger).buffers[pk]],
                                                  old(ledger).buffers[pk := []])
      ensures batch.Some? ==> partitions[pk].slice.len == 0 && partitions[pk].lastWrite == old(partitions)[pk].lastWrite
      ensures batch.None? ==> partitions == old(partitions) && taken == old(taken) && ledger == old(ledger)
      ensures forall k :: k in partitions && k != pk ==> partitions[k] == old(partitions)[k]
    {
      BuffersAgree();
      if pk in partitions {
        OwnArray(pk);
      } else {
        assert Buffered(ledger, pk) == [];
      }
      hide Tied, Buffered;
      if pk !in partitions || partitions[pk].slice.len == 0 {
        return None;
      }
      var buf := partitions[pk];
      batch := Some(buf.slice);
      var cells := new Row[batchSize];
      assert cells[..0] == [];
      SetBuffer(pk, Buffer(Slice(cells, 0), buf.lastWrite));
      HandOff(buf.slice);
    }

    /** One partition's turn in Write: append its group, then cut full batches. */
    method AddGroup(pk: int, rows: seq<Row>, now: int) returns (cut: seq<Slice>)
      requires Tied() && BuffersFine(key, batchSize, ledger) && BatchesFine(key, batchSize, ledger)
      requires AllOf(key, pk, rows)
      modifies this, live
      ensures Tied() && fresh(live - old(live)) && taken == old(taken) + cut
      ensures BuffersFine(key, batchSize, ledger) && BatchesFine(key, batchSize, ledger)
      ensures Gained(key, batchSize, old(ledger), pk, rows, ledger)
      ensures Stamped(old(partitions), partitions, {pk}, now)
    {
      hide Gained, Cutting, BuffersFine, BatchesFine, AllOf, Tied, Stamped;
      ghost var before, was := ledger, partitions;
      GroupStarts(key, batchSize, ledger, pk, rows);
      Prepare(pk);
      assert Extended(ledger, pk, rows) == Extended(before, pk, rows);
      ghost var mid := partitions;
      Extend(pk, rows, now);
      StampedOnce(was, mid, partitions, pk, now);
      cut := [];
      BuffersAgree();
      while partitions[pk].slice.len >= batchSize
        invariant Tied() && fresh(live - old(live)) && taken == old(taken) + cut
        invariant pk in partitions
        invariant Stamped(was, partitions, {pk}, now)
        invariant |Buffered(ledger, pk)| == partitions[pk].slice.len
        invariant Cutting(key, batchSize, ledger, pk) && Gained(key, batchSize, before, pk, rows, ledger)
        decreases partitions[pk].slice.len
      {
        GroupCuts(key, batchSize, before, pk, rows, ledger);
        mid := partitions;
        var batch := Cut(pk);
        StampStays(was, mid, partitions, pk, now);
        BuffersAgree();
        cut := cut + [batch];
      }
      GroupEnds(key, batchSize, ledger, pk);
    }

    /** The grouping by partition that Write does before it takes the lock. */
    method GroupRows(rows: seq<Row>) returns (groups: map<int, seq<Row>>)
      ensures Grouped(key, rows, groups) && groups.Keys == KeysOf(key, rows)
    {
      hide Grouped, KeysOf;
      groups := map[];
      NothingGrouped(key);
      KeysSnoc(key, rows, 0);
      var i := 0;
      while i < |rows|
        invariant 0 <= i <= |rows|
        invariant Grouped(key, rows[..i], groups) && groups.Keys == KeysOf(key, rows[..i])
      {
        var r := rows[i];
        KeysSnoc(key, rows, i);
        var pk := key(r);
        GroupedSnoc(key, rows[..i], groups, r);
        groups := groups[pk := (if pk in groups then groups[pk] else []) + [r]];
        assert rows[..i] + [r] == rows[..i + 1];
        i := i + 1;
      }
      assert rows[..i] == rows;
    }

    /** Write's critical section. */
    method AddGroups(groups: map<int, seq<Row>>, now: int) returns (toFlush: seq<Slice>)
      requires Tied() && BuffersFine(key, batchSize, ledger) && BatchesFine(key, batchSize, ledger)
      requires forall k :: k in groups ==> AllOf(key, k, groups[k])
      modifies this, live
      ensures Tied() && fresh(live - old(live)) && taken == old(taken) + toFlush
      ensures GroupsAdded(key, batchSize, old(ledger), groups, groups.Keys, ledger)
      ensures Stamped(old(partitions), partitions, groups.Keys, now)
    {
      hide *;
      ghost var before, was := ledger, partitions;
      NoGroupAdded(key, batchSize, before, groups);
      var todo := groups.Keys;
      ghost var done: set<int> := {};
      RemainingMoves(groups.Keys);
      NothingStamped(was, groups.Keys, now);
      toFlush := [];
      while todo != {}
        invariant Remaining(groups.Keys, done, todo)
        invariant Tied() && fresh(live - old(live)) && taken == old(taken) + toFlush
        invariant GroupsAdded(key, batchSize, before, groups, done, ledger)
        invariant StampedBut(was, partitions, groups.Keys, todo, now)
        decreases |todo|
      {
        ghost var some := AnyOf(todo);
        var pk :| pk in todo;
        RemainingStep(groups.Keys, done, todo, pk);
        GroupsFine(key, batchSize, before, groups, done, ledger);
        ghost var mid := ledger;
        ghost var buffers := partitions;
        var cut := AddGroup(pk, groups[pk], now);
        StampedTwice(was, buffers, partitions, groups.Keys, todo, pk, now);
        GroupAdded(key, batchSize, before, groups, done, mid, pk, ledger);
        toFlush := toFlush + cut;
        todo, done := todo - {pk}, done + {pk};
      }
      AllStamped(was, partitions, groups.Keys, now);
    }

    /**
      BacklinkWriter.Write up to the end of its critical section: the rows are
      added, every buffer is shorter than the batch size, the batches to dispatch
      are the ones cut now, and the ages of the rows' partitions start again.
    */
    method Write(rows: seq<Row>, now: int) returns (toFlush: seq<Slice>)
      requires Valid()
      modifies this, live
      ensures Valid() && fresh(live - old(live))
      ensures Adds(key, batchSize, old(ledger), rows, ledger)
      ensures taken == old(taken) + toFlush
      ensures Stamped(old(partitions), partitions, KeysOf(key, rows), now)
    {
      hide Stamped, KeysOf, Grouped, BatchesFine, BuffersFine, Adds, GroupsAdded, Tied, AllOf;
      ghost var before := ledger;
      var groups := GroupRows(rows);
      forall k | k in groups ensures AllOf(key, k, groups[k]) {
        GroupKeyed(key, rows, groups, k);
      }
      toFlush := AddGroups(groups, now);
      AllGroupsAdded(key, batchSize, before, rows, groups, ledger);
      NoteWritten(rows);
      AddsKeeps(key, batchSize, before, rows, ledger);
    }

    /** BatchWriter.WriteRecord up to the end of its critical section. */
    method WriteRecord(r: Row, indexedAt: int) returns (toFlush: Option<Slice>)
      requires Valid()
      modifies this, live
      ensures Valid() && fresh(live - old(live))
      ensures Adds(key, batchSize, old(ledger), [r], ledger)
      ensures taken == match toFlush case None => old(taken) case Some(s) => old(taken) + [s]
      ensures Stamped(old(partitions), partitions, {key(r)}, indexedAt)
    {
      hide Kept, Adds, Tied, Stamped;
      ghost var before, was := ledger, partitions;
      BuffersAgree();
      OneAdded(key, batchSize, before, r);
      var pk := key(r);
      Prepare(pk);
      assert Extended(ledger, pk, [r]) == Extended(before, pk, [r]);
      ghost var mid := partitions;
      Extend(pk, [r], indexedAt);
      StampedOnce(was, mid, partitions, pk, indexedAt);
      BuffersAgree();
      toFlush := None;
      if partitions[pk].slice.len >= batchSize {
        mid := partitions;
        toFlush := Take(pk);
        StampStays(was, mid, partitions, pk, indexedAt);
        WholeIsFront(Extended(before, pk, [r]), pk, batchSize);
      }
      NoteWritten([r]);
      AddsKeeps(key, batchSize, before, [r], ledger);
    }

    /** One partition's turn in a flush: its buffer is taken if it holds anything. */
    method TakeInto(pk: int, ghost before: Ledger) returns (cut: seq<Slice>)
      requires Tied() && Takes(key, batchSize, before, ledger) && pk in partitions
      modifies this
      ensures Tied() && fresh(live - old(live)) && Takes(key, batchSize, before, ledger)
      ensures partitions.Keys == old(partitions).Keys && taken == old(taken) + cut
      ensures partitions[pk].slice.len == 0 && partitions[pk].lastWrite == old(partitions)[pk].lastWrite
      ensures forall k :: k in partitions && k != pk ==> partitions[k] == old(partitions)[k]
    {
      BuffersAgree();
      OwnArray(pk);
      WholeTakenIfAny(key, batchSize, before, ledger, pk);
      hide Tied, Takes, Buffered;
      var batch := Take(pk);
      cut := if batch.Some? then [batch.value] else [];
    }

    /** Buffers not written to for longer than age are taken. */
    method FlushStale(now: int, age: int) returns (toFlush: seq<Slice>)
      requires Valid()
      modifies this
      ensures Valid() && fresh(live - old(live))
      ensures Takes(key, batchSize, old(ledger), ledger)
      ensures taken == old(taken) + toFlush
      ensures partitions.Keys == old(partitions).Keys
      ensures forall k :: k in partitions ==> AfterSweep(old(partitions)[k], partitions[k], now, age)
    {
      hide Kept, Takes, Tied;
      toFlush := [];
      ghost var before := ledger;
      NothingTaken(key, batchSize, ledger);
      var todo := partitions.Keys;
      while todo != {}
        invariant todo <= partitions.Keys == old(partitions).Keys
        invariant Tied() && fresh(live - old(live)) && taken == old(taken) + toFlush
        invariant Takes(key, batchSize, before, ledger)
        invariant forall k :: k in todo ==> partitions[k] == old(partitions)[k]
        invariant forall k :: k in partitions && k !in todo ==> AfterSweep(old(partitions)[k], partitions[k], now, age)
        decreases |todo|
      {
        ghost var some := AnyOf(todo);
        var pk :| pk in todo;
        var buf := partitions[pk];
        if buf.slice.len > 0 && now - buf.lastWrite > age {
          var cut := TakeInto(pk, before);
          toFlush := toFlush + cut;
        }
        todo := todo - {pk};
      }
      TakesKeeps(key, batchSize, before, ledger);
    }

    /** flushAll and FlushAll: every buffer is taken, so everything written is in a batch. */
    method FlushAll() returns (toFlush: seq<Slice>)
      requires Valid()
      modifies this
      ensures Valid() && fresh(live - old(live))
      ensures Takes(key, batchSize, old(ledger), ledger) && Empty(ledger)
      ensures taken == old(taken) + toFlush
    {
      hide Kept, Takes, Tied, Empty;
      toFlush := [];
      ghost var before := ledger;
      NothingTaken(key, batchSize, ledger);
      var todo := partitions.Keys;
      while todo != {}
        invariant todo <= partitions.Keys
        invariant Tied() && fresh(live - old(live)) && taken == old(taken) + toFlush
        invariant Takes(key, batchSize, before, ledger)
        invariant forall k :: k in partitions && k !in todo ==> partitions[k].slice.len == 0
        decreases |todo|
      {
        ghost var some := AnyOf(todo);
        var pk :| pk in todo;
        var cut := TakeInto(pk, before);
        toFlush := toFlush + cut;
        todo := todo - {pk};
      }
      NothingBuffered();
      TakesKeeps(key, batchSize, before, ledger);
    }

    lemma NothingBuffered()
      requires Tied() && forall k :: k in partitions ==> partitions[k].slice.len == 0
      ensures Empty(ledger)
    {
    }
  }

  lemma KeysSnoc(key: Key, rows: seq<Row>, i: nat)
    requires i <= |rows|
    ensures KeysOf(key, []) == {} && rows[..0] == []
    ensures i < |rows| ==> KeysOf(key, rows[..i + 1]) == KeysOf(key, rows[..i]) + {key(rows[i])}
  {
    if i < |rows| {
      assert rows[..i + 1] == rows[..i] + [rows[i]];
      assert forall j :: 0 <= j < i ==> rows[..i + 1][j] == rows[..i][j];
      assert rows[..i + 1][i] == rows[i];
      forall k | k in KeysOf(key, rows[..i + 1]) ensures k in KeysOf(key, rows[..i]) + {key(rows[i])} {
        var j :| 0 <= j < i + 1 && key(rows[..i + 1][j]) == k;
        if j < i { assert key(rows[..i][j]) == k; }
      }
      forall k | k in KeysOf(key, rows[..i]) + {key(rows[i])} ensures k in KeysOf(key, rows[..i + 1]) {
        if k != key(rows[i]) {
          var j :| 0 <= j < i && key(rows[..i][j]) == k;
          assert key(rows[..i + 1][j]) == k;
        } else {
          assert key(rows[..i + 1][i]) == k;
        }
      }
    }
  }

  /** All but some of these partitions were written to. */
  predicate StampedBut(was: map<int, Buffer>, b: map<int, Buffer>, all: set<int>, todo: set<int>, now: int) {
    todo <= all && Stamped(was, b, all - todo, now)
  }

  lemma NothingStamped(b: map<int, Buffer>, all: set<int>, now: int)
    ensures StampedBut(b, b, all, all, now)
  {
  }

  lemma StampedOnce(was: map<int, Buffer>, mid: map<int, Buffer>, b: map<int, Buffer>, pk: int, now: int)
    requires mid.Keys == was.Keys + {pk} && (forall k :: k in was ==> mid[k] == was[k])
    requires b.Keys == mid.Keys && b[pk].lastWrite == now && (forall k :: k in b && k != pk ==> b[k] == mid[k])
    ensures Stamped(was, b, {pk}, now)
  {
  }

  lemma StampStays(was: map<int, Buffer>, mid: map<int, Buffer>, b: map<int, Buffer>, pk: int, now: int)
    requires Stamped(was, mid, {pk}, now) && b.Keys == mid.Keys && b[pk].lastWrite == mid[pk].lastWrite
    requires forall k :: k in b && k != pk ==> b[k] == mid[k]
    ensures Stamped(was, b, {pk}, now)
  {
  }

  lemma AllStamped(was: map<int, Buffer>, b: map<int, Buffer>, all: set<int>, now: int)
    requires StampedBut(was, b, all, {}, now)
    ensures Stamped(was, b, all, now)
  {
    assert all - {} == all;
  }

  lemma StampedTwice(was: map<int, Buffer>, mid: map<int, Buffer>, b: map<int, Buffer>, all: set<int>, todo: set<int>, pk: int, now: int)
    requires StampedBut(was, mid, all, todo, now) && Stamped(mid, b, {pk}, now) && pk in todo
    ensures StampedBut(was, b, all, todo - {pk}, now)
  {
  }

  // ------------------------------------------------------------------ buffer ages

  /** What a writer's calls do to its buffers, in the order of its mutex. */
  datatype Call =
    | Wrote(keys: set<int>, at: int)
    | Swept(now: int, age: int)

  predicate Does(was: map<int, Buffer>, call: Call, b: map<int, Buffer>) {
    match call
    case Wrote(keys, at) => Stamped(was, b, keys, at)
    case Swept(now, age) => b.Keys == was.Keys && forall k :: k in was ==> AfterSweep(was[k], b[k], now, age)
  }

  /** Successive contents of the partition map, from the empty one on. */
  predicate Timeline(maps: seq<map<int, Buffer>>, calls: seq<Call>) {
    && |maps| == |calls| + 1 && maps[0] == map[]
    && forall i :: 0 <= i < |calls| ==> Does(maps[i], calls[i], maps[i + 1])
  }

  /** The time of the latest of these calls that wrote to the partition. */
  function LastWritten(calls: seq<Call>, k: int): Option<int> {
    if calls == [] then None
    else if calls[|calls| - 1].Wrote? && k in calls[|calls| - 1].keys then Some(calls[|calls| - 1].at)
    else LastWritten(calls[..|calls| - 1], k)
  }

  /** A buffer exists once its partition was written to, and knows when that last happened. */
  lemma {:induction false} AgeIsSinceLastWrite(maps: seq<map<int, Buffer>>, calls: seq<Call>, k: int)
    requires Timeline(maps, calls)
    ensures var last := maps[|calls|];
            LastWritten(calls, k) == if k in last then Some(last[k].lastWrite) else None
  {
    if calls != [] {
      var n := |calls| - 1;
      TimelineFront(maps, calls);
      AgeIsSinceLastWrite(maps[..|calls|], calls[..n], k);
      assert Does(maps[n], calls[n], maps[n + 1]);
    }
  }

  lemma TimelineFront(maps: seq<map<int, Buffer>>, calls: seq<Call>)
    requires Timeline(maps, calls) && calls != []
    ensures Timeline(maps[..|calls|], calls[..|calls| - 1])
  {
    hide Does;
    var front, n := maps[..|calls|], |calls| - 1;
    forall i | 0 <= i < n ensures Does(front[i], calls[..n][i], front[i + 1]) {
      assert Does(maps[i], calls[i], maps[i + 1]);
    }
  }

  /** A sweep takes a buffer's rows exactly if the last write to its partition is longer than age ago. */
  lemma SweepIsExact(maps: seq<map<int, Buffer>>, calls: seq<Call>, b: map<int, Buffer>, now: int, age: int, k: int)
    requires Timeline(maps, calls) && Does(maps[|calls|], Swept(now, age), b)
    requires k in maps[|calls|] && maps[|calls|][k].slice.len > 0
    ensures LastWritten(calls, k).Some? && k in b
    ensures now - LastWritten(calls, k).value > age ==> b[k].slice.len == 0
    ensures now - LastWritten(calls, k).value <= age ==> b[k] == maps[|calls|][k]
  {
    AgeIsSinceLastWrite(maps, calls, k);
    hide LastWritten, Timeline;
  }

  /** A loop over a set has done some of it and not the rest. */
  predicate Remaining(all: set<int>, done: set<int>, todo: set<int>) {
    done !! todo && done + todo == all
  }

  lemma RemainingMoves(all: set<int>)
    ensures Remaining(all, {}, all)
    ensures forall done :: Remaining(all, done, {}) ==> done == all
  {
  }

  lemma RemainingStep(all: set<int>, done: set<int>, todo: set<int>, k: int)
    requires Remaining(all, done, todo) && k in todo
    ensures k in all && k !in done && Remaining(all, done + {k}, todo - {k})
  {
  }

  lemma AddsKeeps(key: Key, size: nat, before: Ledger, rows: seq<Row>, after: Ledger)
    requires Adds(key, size, before, rows, after)
    ensures Kept(key, size, after)
  {
    hide Kept;
  }

  lemma TakesKeeps(key: Key, size: nat, before: Ledger, after: Ledger)
    requires Takes(key, size, before, after)
    ensures Kept(key, size, after)
  {
    hide Kept;
  }

  lemma NothingTaken(key: Key, size: nat, l: Ledger)
    requires Kept(key, size, l)
    ensures Takes(key, size, l, l)
  {
    hide Kept;
  }

  lemma GroupsFine(key: Key, size: nat, before: Ledger, groups: map<int, seq<Row>>, added: set<int>, l: Ledger)
    requires GroupsAdded(key, size, before, groups, added, l)
    ensures BuffersFine(key, size, l) && BatchesFine(key, size, l)
  {
    hide Total;
  }

  lemma NothingGrouped(key: Key)
    ensures Grouped(key, [], map[])
  {
  }

  lemma WholeIsFront(l: Ledger, pk: int, n: nat)
    requires pk in l.buffers
    ensures n == |Buffered(l, pk)| ==>
              CutFront(l, pk, n) == Ledger(l.written, l.batches + [l.buffers[pk]], l.buffers[pk := []])
  {
    if n == |l.buffers[pk]| {
      assert l.buffers[pk][..n] == l.buffers[pk] && l.buffers[pk][n..] == [];
    }
  }

  lemma WholeTakenIfAny(key: Key, size: nat, before: Ledger, l: Ledger, pk: int)
    requires Takes(key, size, before, l) && pk in l.buffers
    ensures l.buffers[pk] != [] ==>
              Takes(key, size, before, Ledger(l.written, l.batches + [l.buffers[pk]], l.buffers[pk := []]))
  {
    if l.buffers[pk] != [] { WholeTaken(key, size, before, l, pk); }
  }
}
