/**
  What a batch writer has been given and what became of it: rows buffered by
  partition and batches cut from the buffers, as values. The writers' methods are
  specified by the relations at the end.
*/
module PartitionLedger {
  import opened Common

  datatype Month = Month(year: int, month: int)

  /** A Record or a BacklinkRecord: what it holds and the month it was created in. */
  datatype Row = Row(body: int, createdAt: Month)

  type Key = Row -> int

  // -------------------------------------------------------------- partition keys

  function BacklinkPartitionKey(t: Month): int {
    t.year * 100 + t.month
  }

  function PartitionKey(t: Month): int {
    if t.year < 2023 then 202200 else t.year * 100 + t.month
  }

  /** time.Month is 1 to 12. */
  predicate Calendar(t: Month) {
    1 <= t.month <= 12
  }

  /** One backlink partition is one month, and one record partition is one month from 2023 on. */
  lemma KeysSeparateMonths(t: Month, u: Month)
    requires Calendar(t) && Calendar(u)
    ensures BacklinkPartitionKey(t) == BacklinkPartitionKey(u) <==> t == u
    ensures PartitionKey(t) == PartitionKey(u) <==> (t == u || (t.year < 2023 && u.year < 2023))
  {
    if t.year < u.year {
      assert t.year * 100 + 100 <= u.year * 100;
    } else if u.year < t.year {
      assert u.year * 100 + 100 <= t.year * 100;
    }
  }

  // ---------------------------------------------------------------- projections

  /** The rows of one partition, in order. */
  function Of(key: Key, k: int, rows: seq<Row>): seq<Row> {
    if rows == [] then []
    else
      var last := rows[|rows| - 1];
      Of(key, k, rows[..|rows| - 1]) + (if key(last) == k then [last] else [])
  }

  /** The rows of one partition over all batches, in the order they were cut. */
  function Joined(key: Key, k: int, batches: seq<seq<Row>>): seq<Row> {
    if batches == [] then []
    else Joined(key, k, batches[..|batches| - 1]) + Of(key, k, batches[|batches| - 1])
  }

  predicate AllOf(key: Key, k: int, rows: seq<Row>) {
    forall i :: 0 <= i < |rows| ==> key(rows[i]) == k
  }

  lemma {:induction false} OfConcat(key: Key, k: int, a: seq<Row>, b: seq<Row>)
    ensures Of(key, k, a + b) == Of(key, k, a) + Of(key, k, b)
  {
    if b == [] {
      assert a + b == a;
    } else {
      assert (a + b)[..|a + b| - 1] == a + b[..|b| - 1];
      OfConcat(key, k, a, b[..|b| - 1]);
    }
  }

  lemma {:induction false} OfAll(key: Key, k: int, j: int, rows: seq<Row>)
    requires AllOf(key, j, rows)
    ensures Of(key, k, rows) == if k == j then rows else []
  {
    if rows != [] {
      OfAll(key, k, j, rows[..|rows| - 1]);
    }
  }

  lemma {:induction false} OfKeepsKey(key: Key, k: int, rows: seq<Row>)
    ensures AllOf(key, k, Of(key, k, rows))
  {
    if rows != [] {
      OfKeepsKey(key, k, rows[..|rows| - 1]);
    }
  }

  // --------------------------------------------------------------------- ledger

  datatype Ledger = Ledger(written: seq<Row>, batches: seq<seq<Row>>, buffers: map<int, seq<Row>>)

  function Buffered(l: Ledger, k: int): seq<Row> {
    if k in l.buffers then l.buffers[k] else []
  }

  /** Everything a partition has accounted for: its batches in order, then its buffer. */
  function Total(key: Key, l: Ledger, k: int): seq<Row> {
    Joined(key, k, l.batches) + Buffered(l, k)
  }

  predicate BatchFine(key: Key, size: nat, batch: seq<Row>) {
    0 < |batch| <= size && AllOf(key, key(batch[0]), batch)
  }

  /** Buffers stay below the batch size and hold only their partition's rows. */
  predicate BuffersFine(key: Key, size: nat, l: Ledger) {
    forall k :: k in l.buffers ==> |l.buffers[k]| < size && AllOf(key, k, l.buffers[k])
  }

  predicate BatchesFine(key: Key, size: nat, l: Ledger) {
    forall i :: 0 <= i < |l.batches| ==> BatchFine(key, size, l.batches[i])
  }

  /** Nothing is lost, duplicated or reordered within a partition. */
  ghost predicate Conserved(key: Key, l: Ledger) {
    forall k :: Total(key, l, k) == Of(key, k, l.written)
  }

  ghost predicate Kept(key: Key, size: nat, l: Ledger) {
    BuffersFine(key, size, l) && BatchesFine(key, size, l) && Conserved(key, l)
  }

  // ---------------------------------------------------------- what a method does

  /** Rows are added; batches of exactly the batch size are cut. */
  ghost predicate Adds(key: Key, size: nat, before: Ledger, rows: seq<Row>, after: Ledger) {
    && after.written == before.written + rows
    && before.batches <= after.batches
    && (forall i :: |before.batches| <= i < |after.batches| ==> |after.batches[i]| == size)
    && Kept(key, size, after)
  }

  /** Whole buffers become batches; no row is added. */
  ghost predicate Takes(key: Key, size: nat, before: Ledger, after: Ledger) {
    && after.written == before.written
    && before.batches <= after.batches
    && after.buffers.Keys == before.buffers.Keys
    && (forall k :: k in after.buffers ==> after.buffers[k] == before.buffers[k] || after.buffers[k] == [])
    && Kept(key, size, after)
  }

  predicate Empty(l: Ledger) {
    forall k :: k in l.buffers ==> l.buffers[k] == []
  }

  /** With the buffers empty, each partition's batches in order are its writes in order. */
  lemma EmptyMeansAllCut(key: Key, size: nat, l: Ledger, k: int)
    requires Kept(key, size, l) && Empty(l)
    ensures Joined(key, k, l.batches) == Of(key, k, l.written)
  {
    assert Total(key, l, k) == Joined(key, k, l.batches) + [];
  }

  // ------------------------------------------------------------- single changes

  function Extended(l: Ledger, pk: int, rows: seq<Row>): Ledger {
    l.(buffers := l.buffers[pk := Buffered(l, pk) + rows])
  }

  /** The first n rows of a buffer become a batch. */
  function CutFront(l: Ledger, pk: int, n: nat): Ledger
    requires n <= |Buffered(l, pk)|
  {
    var b := Buffered(l, pk);
    Ledger(l.written, l.batches + [b[..n]], l.buffers[pk := b[n..]])
  }

  lemma JoinedSnoc(key: Key, k: int, batches: seq<seq<Row>>, batch: seq<Row>)
    ensures Joined(key, k, batches + [batch]) == Joined(key, k, batches) + Of(key, k, batch)
  {
    assert (batches + [batch])[..|batches|] == batches;
  }

  /** Cutting leaves every partition's total as it was. */
  lemma CutKeepsTotals(key: Key, l: Ledger, pk: int, n: nat)
    requires n <= |Buffered(l, pk)| && AllOf(key, pk, Buffered(l, pk))
    ensures forall k :: Total(key, CutFront(l, pk, n), k) == Total(key, l, k)
  {
    forall k ensures Total(key, CutFront(l, pk, n), k) == Total(key, l, k) {
      CutKeepsTotal(key, l, pk, n, k);
    }
    hide *;
  }

  lemma CutKeepsTotal(key: Key, l: Ledger, pk: int, n: nat, k: int)
    requires n <= |Buffered(l, pk)| && AllOf(key, pk, Buffered(l, pk))
    ensures Total(key, CutFront(l, pk, n), k) == Total(key, l, k)
  {
    var rows := Buffered(l, pk);
    FrontOf(key, pk, rows, n);
    hide *;
    TotalAfterCut(key, l, pk, n, k);
    OfAll(key, k, pk, rows[..n]);
    if k == pk {
      Rejoin(Joined(key, k, l.batches), rows, n);
    } else {
      NothingAdded(Joined(key, k, l.batches));
    }
  }

  lemma FrontOf(key: Key, k: int, rows: seq<Row>, n: nat)
    requires n <= |rows| && AllOf(key, k, rows)
    ensures AllOf(key, k, rows[..n])
  {
  }

  lemma TotalAfterCut(key: Key, l: Ledger, pk: int, n: nat, k: int)
    requires n <= |Buffered(l, pk)|
    ensures Total(key, CutFront(l, pk, n), k)
            == Joined(key, k, l.batches) + Of(key, k, Buffered(l, pk)[..n])
               + (if k == pk then Buffered(l, pk)[n..] else Buffered(l, k))
    ensures Total(key, l, k) == Joined(key, k, l.batches) + Buffered(l, k)
  {
    hide Of, Joined;
    JoinedSnoc(key, k, l.batches, Buffered(l, pk)[..n]);
  }

  lemma Rejoin(before: seq<Row>, rows: seq<Row>, n: nat)
    requires n <= |rows|
    ensures before + rows[..n] + rows[n..] == before + rows
  {
    assert rows == rows[..n] + rows[n..];
    Regroup(before, rows[..n], rows[n..]);
  }

  lemma NothingAdded(rows: seq<Row>)
    ensures rows + [] == rows
  {
  }

  /** Appending to one buffer adds to that partition's total only. */
  lemma ExtendAddsToTotal(key: Key, l: Ledger, pk: int, rows: seq<Row>)
    ensures forall k :: Total(key, Extended(l, pk, rows), k) == Total(key, l, k) + (if k == pk then rows else [])
  {
    forall k ensures Total(key, Extended(l, pk, rows), k) == Total(key, l, k) + (if k == pk then rows else []) {
      if k == pk {
        assert Total(key, Extended(l, pk, rows), k) == Joined(key, k, l.batches) + (Buffered(l, pk) + rows);
      }
    }
  }

  // ------------------------------------------------------ one partition's group

  /** The state while one partition's buffer may be too long. */
  predicate Cutting(key: Key, size: nat, l: Ledger, pk: int) {
    && BatchesFine(key, size, l)
    && AllOf(key, pk, Buffered(l, pk))
    && forall k :: k in l.buffers && k != pk ==> |l.buffers[k]| < size && AllOf(key, k, l.buffers[k])
  }

  /** One partition has gained rows; the batches cut since are full. */
  ghost predicate Gained(key: Key, size: nat, before: Ledger, pk: int, rows: seq<Row>, after: Ledger) {
    && after.written == before.written
    && before.batches <= after.batches
    && (forall i :: |before.batches| <= i < |after.batches| ==> |after.batches[i]| == size)
    && forall k :: Total(key, after, k) == Total(key, before, k) + (if k == pk then rows else [])
  }

  lemma GroupStarts(key: Key, size: nat, l: Ledger, pk: int, rows: seq<Row>)
    requires BuffersFine(key, size, l) && BatchesFine(key, size, l) && AllOf(key, pk, rows)
    ensures Cutting(key, size, Extended(l, pk, rows), pk)
    ensures Gained(key, size, l, pk, rows, Extended(l, pk, rows))
  {
    ExtendAddsToTotal(key, l, pk, rows);
    hide Total;
  }

  lemma GroupCuts(key: Key, size: nat, before: Ledger, pk: int, rows: seq<Row>, l: Ledger)
    requires size > 0 && Cutting(key, size, l, pk) && Gained(key, size, before, pk, rows, l) && size <= |Buffered(l, pk)|
    ensures Cutting(key, size, CutFront(l, pk, size), pk)
    ensures Gained(key, size, before, pk, rows, CutFront(l, pk, size))
  {
    CutKeepsTotals(key, l, pk, size);
    hide Total;
    var after := CutFront(l, pk, size);
    forall i | 0 <= i < |after.batches| ensures BatchFine(key, size, after.batches[i]) {
      assert i < |l.batches| ==> after.batches[i] == l.batches[i];
    }
  }

  lemma GroupEnds(key: Key, size: nat, l: Ledger, pk: int)
    requires Cutting(key, size, l, pk) && |Buffered(l, pk)| < size
    ensures BuffersFine(key, size, l) && BatchesFine(key, size, l)
  {
  }

  // ------------------------------------------------------------- several groups

  /** Several partitions have gained their group of rows. */
  ghost predicate GroupsAdded(key: Key, size: nat, before: Ledger, groups: map<int, seq<Row>>, added: set<int>, after: Ledger) {
    && after.written == before.written
    && before.batches <= after.batches
    && (forall i :: |before.batches| <= i < |after.batches| ==> |after.batches[i]| == size)
    && BuffersFine(key, size, after) && BatchesFine(key, size, after)
    && forall k :: Total(key, after, k) == Total(key, before, k) + (if k in added && k in groups then groups[k] else [])
  }

  lemma NoGroupAdded(key: Key, size: nat, l: Ledger, groups: map<int, seq<Row>>)
    requires BuffersFine(key, size, l) && BatchesFine(key, size, l)
    ensures GroupsAdded(key, size, l, groups, {}, l)
  {
    assert forall k :: Total(key, l, k) + [] == Total(key, l, k);
  }

  lemma GroupAdded(key: Key, size: nat, before: Ledger, groups: map<int, seq<Row>>, added: set<int>,
                   mid: Ledger, pk: int, after: Ledger)
    requires GroupsAdded(key, size, before, groups, added, mid) && pk in groups && pk !in added
    requires Gained(key, size, mid, pk, groups[pk], after)
    requires BuffersFine(key, size, after) && BatchesFine(key, size, after)
    ensures GroupsAdded(key, size, before, groups, added + {pk}, after)
  {
    hide Total, BuffersFine, BatchesFine;
    forall i | |before.batches| <= i < |after.batches| ensures |after.batches[i]| == size {
      assert i < |mid.batches| ==> after.batches[i] == mid.batches[i];
    }
    forall k
      ensures Total(key, after, k)
              == Total(key, before, k) + (if k in added + {pk} && k in groups then groups[k] else [])
    {
      assert Total(key, before, k) + [] == Total(key, before, k);
      assert Total(key, mid, k) + [] == Total(key, mid, k);
    }
  }

  /** The groups are a grouping of rows by partition. */
  ghost predicate Grouped(key: Key, rows: seq<Row>, groups: map<int, seq<Row>>) {
    forall k :: Of(key, k, rows) == if k in groups then groups[k] else []
  }

  /** With every group added, the rows are written. */
  lemma AllGroupsAdded(key: Key, size: nat, before: Ledger, rows: seq<Row>, groups: map<int, seq<Row>>, after: Ledger)
    requires Kept(key, size, before) && Grouped(key, rows, groups)
    requires GroupsAdded(key, size, before, groups, groups.Keys, after)
    ensures after.written == before.written && Adds(key, size, before, rows, after.(written := before.written + rows))
  {
    var done := after.(written := before.written + rows);
    forall k ensures Total(key, done, k) == Of(key, k, done.written) {
      OfConcat(key, k, before.written, rows);
      assert Total(key, done, k) == Total(key, after, k);
    }
  }

  lemma GroupedSnoc(key: Key, rows: seq<Row>, groups: map<int, seq<Row>>, r: Row)
    requires Grouped(key, rows, groups)
    ensures Grouped(key, rows + [r], groups[key(r) := (if key(r) in groups then groups[key(r)] else []) + [r]])
  {
    var after := groups[key(r) := (if key(r) in groups then groups[key(r)] else []) + [r]];
    forall k ensures Of(key, k, rows + [r]) == if k in after then after[k] else [] {
      assert (rows + [r])[..|rows|] == rows;
      assert Of(key, k, rows + [r]) == Of(key, k, rows) + (if key(r) == k then [r] else []);
      assert Of(key, k, rows) + [] == Of(key, k, rows);
    }
  }

  lemma GroupKeyed(key: Key, rows: seq<Row>, groups: map<int, seq<Row>>, pk: int)
    requires Grouped(key, rows, groups) && pk in groups
    ensures AllOf(key, pk, groups[pk])
  {
    OfKeepsKey(key, pk, rows);
    assert groups[pk] == Of(key, pk, rows);
  }

  // --------------------------------------------------------------- whole buffers

  lemma WholeTaken(key: Key, size: nat, before: Ledger, l: Ledger, pk: int)
    requires Takes(key, size, before, l) && pk in l.buffers && l.buffers[pk] != []
    ensures var after := Ledger(l.written, l.batches + [l.buffers[pk]], l.buffers[pk := []]);
            Takes(key, size, before, after)
  {
    var after := Ledger(l.written, l.batches + [l.buffers[pk]], l.buffers[pk := []]);
    var n := |l.buffers[pk]|;
    assert l.buffers[pk][..n] == l.buffers[pk];
    assert after == CutFront(l, pk, n);
    CutKeepsTotals(key, l, pk, n);
    hide Total, Of;
    forall i | 0 <= i < |after.batches| ensures BatchFine(key, size, after.batches[i]) {
      assert i < |l.batches| ==> after.batches[i] == l.batches[i];
    }
  }

  /** One record written, and the whole buffer taken if that fills it. */
  lemma OneAdded(key: Key, size: nat, l: Ledger, r: Row)
    requires size > 0 && Kept(key, size, l)
    ensures var pk := key(r);
            var longer := Extended(l, pk, [r]);
            && (|Buffered(longer, pk)| < size ==> Adds(key, size, l, [r], longer.(written := l.written + [r])))
            && (|Buffered(longer, pk)| >= size ==>
                  |Buffered(longer, pk)| == size
                  && Adds(key, size, l, [r], CutFront(longer, pk, size).(written := l.written + [r])))
  {
    var pk := key(r);
    var groups := map[pk := [r]];
    var longer := Extended(l, pk, [r]);
    assert AllOf(key, pk, [r]);
    GroupStarts(key, size, l, pk, [r]);
    NoGroupAdded(key, size, l, groups);
    OneGrouped(key, r);
    assert {} + {pk} == groups.Keys;
    hide Kept, Adds, BatchesFine, Total, Gained, GroupsAdded, Grouped, Cutting;
    if |Buffered(longer, pk)| < size {
      GroupEnds(key, size, longer, pk);
      GroupAdded(key, size, l, groups, {}, l, pk, longer);
      AllGroupsAdded(key, size, l, [r], groups, longer);
    } else {
      GroupCuts(key, size, l, pk, [r], longer);
      GroupEnds(key, size, CutFront(longer, pk, size), pk);
      GroupAdded(key, size, l, groups, {}, l, pk, CutFront(longer, pk, size));
      AllGroupsAdded(key, size, l, [r], groups, CutFront(longer, pk, size));
    }
  }

  lemma OneGrouped(key: Key, r: Row)
    ensures Grouped(key, [r], map[key(r) := [r]])
  {
    forall k ensures Of(key, k, [r]) == if k in map[key(r) := [r]] then map[key(r) := [r]][k] else [] {
      assert [r][..0] == [];
      assert Of(key, k, []) == [];
    }
  }
}
