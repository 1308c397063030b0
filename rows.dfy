/**
 * Row assembly in LastQueryExecutor.execute: one row per resolved slot that
 * holds a pair, labelled by the series' display name, and the list data set
 * the rows are put into and, for a query that is not ascending, sorted by time.
 */
module Rows {
  import opened Wrappers
  import opened Series
  import opened Resolution

  /** A RowRecord of the last-query result: timestamp, series label, value cell (None is a null cell). */
  datatype Row = Row(timestamp: Int64, timeseries: string, value: Option<string>)

  /** The row label: tsAlias, else the full path with the measurement alias, else the full path. */
  function Label(p: Path): (name: string)
    ensures p.tsAlias.Some? ==> name == p.tsAlias.value
    ensures p.tsAlias.None? && p.measurementAlias.Some? ==>
              name == p.device + "." + p.measurementAlias.value
    ensures p.tsAlias.None? && p.measurementAlias.None? ==> name == p.device + "." + p.measurement
  {
    if p.tsAlias.Some? then p.tsAlias.value
    else if p.measurementAlias.Some? then p.FullPathWithAlias()
    else p.FullPath()
  }

  /** The row for a found pair; `render` is getStringValue, left uninterpreted. */
  function RecordOf(p: Path, pair: TimeValuePair, render: Value -> string): Row
  {
    Row(pair.timestamp, Label(p), if pair.value.Some? then Some(render(pair.value.value)) else None)
  }

  /** The number of slots holding a pair. */
  function CountFound(slots: seq<Slot>): nat
  {
    if slots == [] then 0
    else CountFound(slots[..|slots| - 1]) + (if slots[|slots| - 1].right.Some? then 1 else 0)
  }

  /** The rows put into the data set, in input order; a slot without a pair gives none. */
  function AssembleRows(series: seq<Path>, slots: seq<Slot>, render: Value -> string): (rows: seq<Row>)
    requires |series| == |slots|
    ensures |rows| == CountFound(slots)
  {
    if slots == [] then []
    else
      var n := |slots| - 1;
      AssembleRows(series[..n], slots[..n], render) +
        (if slots[n].right.Some? then [RecordOf(series[n], slots[n].right.value, render)] else [])
  }

  /** Rows ordered from the latest timestamp to the earliest. */
  ghost predicate DescendingByTime(rows: seq<Row>)
  {
    forall i, j :: 0 <= i < j < |rows| ==> rows[i].timestamp >= rows[j].timestamp
  }

  /** The rows of one timestamp, in order. */
  function WithTimestamp(rows: seq<Row>, t: Int64): seq<Row>
  {
    if rows == [] then []
    else (if rows[0].timestamp == t then [rows[0]] else []) + WithTimestamp(rows[1..], t)
  }

  /** Places `r` before the first row that is not later than it. */
  function InsertByTime(r: Row, sorted: seq<Row>): (out: seq<Row>)
    ensures |out| == |sorted| + 1
  {
    if sorted == [] || sorted[0].timestamp <= r.timestamp then [r] + sorted
    else [sorted[0]] + InsertByTime(r, sorted[1..])
  }

  /** ListDataSet.sortByTime, taken to be a stable sort from the latest timestamp down. */
  function TimeDescending(rows: seq<Row>): (sorted: seq<Row>)
    ensures |sorted| == |rows|
  {
    if rows == [] then [] else InsertByTime(rows[0], TimeDescending(rows[1..]))
  }

  /** The rows execute returns: input order when ascending, sorted by time otherwise. */
  function LastRows(series: seq<Path>, slots: seq<Slot>, ascending: bool, render: Value -> string): (rows: seq<Row>)
    requires |series| == |slots|
    ensures |rows| == CountFound(slots)
  {
    var rows := AssembleRows(series, slots, render);
    if ascending then rows else TimeDescending(rows)
  }

  /** ListDataSet: the records of a result set, put one by one and sorted in place. */
  class ListDataSet {
    var records: seq<Row>

    constructor ()
      ensures records == []
    {
      records := [];
    }

    method PutRecord(record: Row)
      modifies this
      ensures records == old(records) + [record]
    {
      records := records + [record];
    }

    method SortByTime()
      modifies this
      ensures records == TimeDescending(old(records))
    {
      records := TimeDescending(records);
    }
  }

  // ---------------------------------------------------------------------
  // Properties of row assembly.

  lemma {:induction false} CountFoundPrefix(slots: seq<Slot>, j: nat, k: nat)
    requires j <= k <= |slots|
    ensures CountFound(slots[..j]) <= CountFound(slots[..k])
    ensures j < k && slots[j].right.Some? ==> CountFound(slots[..j]) < CountFound(slots[..k])
    decreases k - j
  {
    if j < k {
      CountFoundPrefix(slots, j, k - 1);
      assert slots[..k][..k - 1] == slots[..k - 1];
    }
  }

  /**
   * Every slot holding a pair emits exactly one row, at the position given by
   * the number of pair-holding slots before it: its timestamp is the pair's,
   * its label follows tsAlias, then measurement alias, then full path, and its
   * value cell is null exactly when the pair's value is null. A later slot
   * holding a pair has its row further on, so the rows keep the input order.
   */
  lemma {:induction false} AssembleRowsAt(series: seq<Path>, slots: seq<Slot>, render: Value -> string, j: nat)
    requires |series| == |slots| && j < |slots| && slots[j].right.Some?
    ensures var rows := AssembleRows(series, slots, render);
            var pair := slots[j].right.value;
            var p := series[j];
            var k := CountFound(slots[..j]);
            k < |rows| &&
            rows[k] == RecordOf(p, pair, render) &&
            rows[k].timestamp == pair.timestamp &&
            (rows[k].value.None? <==> pair.value.None?) &&
            (p.tsAlias.Some? ==> rows[k].timeseries == p.tsAlias.value) &&
            (p.tsAlias.None? && p.measurementAlias.Some? ==> rows[k].timeseries == p.FullPathWithAlias()) &&
            (p.tsAlias.None? && p.measurementAlias.None? ==> rows[k].timeseries == p.FullPath()) &&
            forall j' :: j < j' < |slots| && slots[j'].right.Some? ==> k < CountFound(slots[..j'])
  {
    forall j' | j < j' < |slots| && slots[j'].right.Some? ensures CountFound(slots[..j]) < CountFound(slots[..j']) {
      CountFoundPrefix(slots, j, j');
    }
    var n := |slots| - 1;
    assert slots[..n][..n] == slots[..n];
    if j < n {
      assert slots[..n][..j] == slots[..j];
      AssembleRowsAt(series[..n], slots[..n], render, j);
    }
  }

  /** A data set whose slots hold no pair is empty. */
  lemma {:induction false} NoPairNoRows(series: seq<Path>, slots: seq<Slot>, render: Value -> string)
    requires |series| == |slots|
    requires forall j :: 0 <= j < |slots| ==> slots[j].right.None?
    ensures AssembleRows(series, slots, render) == []
  {
    if slots != [] {
      var n := |slots| - 1;
      NoPairNoRows(series[..n], slots[..n], render);
    }
  }

  // ---------------------------------------------------------------------
  // Properties of the descending sort.

  lemma {:induction false} InsertByTimeBounded(r: Row, sorted: seq<Row>, bound: int)
    requires r.timestamp <= bound
    requires forall k :: 0 <= k < |sorted| ==> sorted[k].timestamp <= bound
    ensures forall k :: 0 <= k < |InsertByTime(r, sorted)| ==> InsertByTime(r, sorted)[k].timestamp <= bound
  {
    if sorted != [] && sorted[0].timestamp > r.timestamp {
      InsertByTimeBounded(r, sorted[1..], bound);
    }
  }

  lemma {:induction false} InsertByTimeSorted(r: Row, sorted: seq<Row>)
    requires DescendingByTime(sorted)
    ensures DescendingByTime(InsertByTime(r, sorted))
  {
    if sorted != [] && sorted[0].timestamp > r.timestamp {
      var ins := InsertByTime(r, sorted[1..]);
      InsertByTimeSorted(r, sorted[1..]);
      InsertByTimeBounded(r, sorted[1..], sorted[0].timestamp);
      assert InsertByTime(r, sorted) == [sorted[0]] + ins;
    }
  }

  lemma {:induction false} InsertByTimePermutes(r: Row, sorted: seq<Row>)
    ensures multiset(InsertByTime(r, sorted)) == multiset(sorted) + multiset{r}
  {
    if sorted != [] && sorted[0].timestamp > r.timestamp {
      InsertByTimePermutes(r, sorted[1..]);
      assert sorted == [sorted[0]] + sorted[1..];
    }
  }

  /** The sort orders rows from the latest timestamp down and is a permutation. */
  lemma {:induction false} TimeDescendingSorted(rows: seq<Row>)
    ensures DescendingByTime(TimeDescending(rows))
    ensures multiset(TimeDescending(rows)) == multiset(rows)
    ensures |TimeDescending(rows)| == |rows|
  {
    if rows != [] {
      TimeDescendingSorted(rows[1..]);
      InsertByTimeSorted(rows[0], TimeDescending(rows[1..]));
      InsertByTimePermutes(rows[0], TimeDescending(rows[1..]));
      assert rows == [rows[0]] + rows[1..];
    }
  }

  lemma WithTimestampCons(x: Row, rest: seq<Row>, t: Int64)
    ensures WithTimestamp([x] + rest, t) == (if x.timestamp == t then [x] else []) + WithTimestamp(rest, t)
  {
    assert ([x] + rest)[0] == x && ([x] + rest)[1..] == rest;
  }

  lemma {:induction false} InsertByTimeStable(r: Row, sorted: seq<Row>, t: Int64)
    ensures WithTimestamp(InsertByTime(r, sorted), t) ==
            (if r.timestamp == t then [r] else []) + WithTimestamp(sorted, t)
  {
    if sorted == [] || sorted[0].timestamp <= r.timestamp {
      WithTimestampCons(r, sorted, t);
    } else {
      var ins := InsertByTime(r, sorted[1..]);
      InsertByTimeStable(r, sorted[1..], t);
      WithTimestampCons(sorted[0], ins, t);
      assert r.timestamp != t || sorted[0].timestamp != t;
    }
  }

  /** The sort is stable: the rows of any one timestamp keep their input order. */
  lemma {:induction false} TimeDescendingStable(rows: seq<Row>, t: Int64)
    ensures WithTimestamp(TimeDescending(rows), t) == WithTimestamp(rows, t)
  {
    if rows != [] {
      TimeDescendingStable(rows[1..], t);
      InsertByTimeStable(rows[0], TimeDescending(rows[1..]), t);
    }
  }

  /**
   * The rows execute returns: for an ascending query, the assembled rows in
   * input order; otherwise the same rows, sorted from the latest timestamp
   * down, with the rows of one timestamp in input order.
   */
  lemma LastRowsOrder(series: seq<Path>, slots: seq<Slot>, ascending: bool, render: Value -> string)
    requires |series| == |slots|
    ensures var rows := AssembleRows(series, slots, render);
            var out := LastRows(series, slots, ascending, render);
            (ascending ==> out == rows) &&
            (!ascending ==> DescendingByTime(out) && multiset(out) == multiset(rows) &&
                            forall t: Int64 :: WithTimestamp(out, t) == WithTimestamp(rows, t))
  {
    var rows := AssembleRows(series, slots, render);
    if !ascending {
      TimeDescendingSorted(rows);
      forall t: Int64 ensures WithTimestamp(TimeDescending(rows), t) == WithTimestamp(rows, t) {
        TimeDescendingStable(rows, t);
      }
    }
  }
}
