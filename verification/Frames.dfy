/** Time-indexed frames: the part of pandas and of the observation query that the quality
    control streams rely on. A frame is a sequence of rows; a well-kept frame is strictly
    ascending in time. */
module Frames {
  import opened Wrappers

  /** A quality label is the JSON text of an annotation; `None` is the database's null. */
  type Label = Option<string>

  datatype Value = Number(n: real) | Text(s: string) | Json(j: string) | Bool(b: bool)

  datatype Row = Row(time: int, data: Value, quality: Label, streamId: int)

  type Frame = seq<Row>

  ghost predicate InOrder(rows: Frame, i: int, j: int) {
    0 <= i < j < |rows| ==> rows[i].time < rows[j].time
  }

  ghost predicate Ascending(rows: Frame) {
    forall i, j :: InOrder(rows, i, j)
  }

  /** Orders are looked up pair by pair; this spells all of them out where a proof needs many. */
  lemma AllInOrder(rows: Frame)
    ensures Ascending(rows) <==> forall i, j :: 0 <= i < j < |rows| ==> rows[i].time < rows[j].time
  {
    if Ascending(rows) {
      forall i, j | 0 <= i < j < |rows| ensures rows[i].time < rows[j].time {
        assert InOrder(rows, i, j);
      }
    }
  }

  predicate HasTime(rows: Frame, t: int) {
    exists i :: 0 <= i < |rows| && rows[i].time == t
  }

  ghost predicate TimesDiffer(rows: Frame, i: int, j: int) {
    0 <= i < j < |rows| ==> rows[i].time != rows[j].time
  }

  ghost predicate DistinctTimes(rows: Frame) {
    forall i, j :: TimesDiffer(rows, i, j)
  }

  lemma AllDistinct(rows: Frame)
    ensures DistinctTimes(rows) <==> forall i, j :: 0 <= i < j < |rows| ==> rows[i].time != rows[j].time
  {
    if DistinctTimes(rows) {
      forall i, j | 0 <= i < j < |rows| ensures rows[i].time != rows[j].time {
        assert TimesDiffer(rows, i, j);
      }
    }
  }

  // ---------------------------------------------------------------- label slices

  /** Left insertion point of `t`: how many rows lie strictly before it. */
  function Before(rows: Frame, t: int): (k: nat)
    requires Ascending(rows)
    ensures k <= |rows|
  {
    SearchSorted(rows, t, 0)
  }

  function SearchSorted(rows: Frame, t: int, from: nat): (k: nat)
    requires from <= |rows|
    ensures from <= k <= |rows|
    decreases |rows| - from
  {
    if from == |rows| || t <= rows[from].time then from else SearchSorted(rows, t, from + 1)
  }

  /** Right insertion point of `t`: how many rows lie at or before it. */
  function UpTo(rows: Frame, t: int): (k: nat)
    requires Ascending(rows)
    ensures Before(rows, t) <= k <= Before(rows, t) + 1 && k <= |rows|
  {
    var k := Before(rows, t);
    if k < |rows| && rows[k].time == t then k + 1 else k
  }

  lemma {:induction false} SearchSplits(rows: Frame, t: int, from: nat)
    requires from <= |rows| && (from > 0 ==> rows[from - 1].time < t)
    ensures var k := SearchSorted(rows, t, from);
            (k > 0 ==> rows[k - 1].time < t) && (k < |rows| ==> t <= rows[k].time)
    decreases |rows| - from
  {
    if from < |rows| && rows[from].time < t { SearchSplits(rows, t, from + 1); }
  }

  /** The insertion points split the frame by time. */
  lemma InsertionPoints(rows: Frame, t: int)
    requires Ascending(rows)
    ensures forall i :: 0 <= i < |rows| ==> (i < Before(rows, t) <==> rows[i].time < t)
    ensures forall i :: 0 <= i < |rows| ==> (i < UpTo(rows, t) <==> rows[i].time <= t)
  {
    AllInOrder(rows);
    SearchSplits(rows, t, 0);
  }

  function LowIndex(rows: Frame, start: Option<int>): (k: nat)
    requires Ascending(rows)
    ensures k <= |rows|
  {
    if start.Some? then Before(rows, start.value) else 0
  }

  function HighIndex(rows: Frame, end: Option<int>): (k: nat)
    requires Ascending(rows)
    ensures k <= |rows|
  {
    if end.Some? then UpTo(rows, end.value) else |rows|
  }

  /** `.loc[start:end]`: both ends inclusive, `None` leaves an end open. */
  function Loc(rows: Frame, start: Option<int>, end: Option<int>): (r: Frame)
    requires Ascending(rows)
    ensures Ascending(r)
  {
    var a, b := LowIndex(rows, start), HighIndex(rows, end);
    assert Ascending(Slice(rows, a, b)) by { SliceAscends(rows, a, b); }
    Slice(rows, a, b)
  }

  lemma SliceAscends(rows: Frame, a: nat, b: nat)
    requires Ascending(rows) && b <= |rows|
    ensures Ascending(Slice(rows, a, b))
  {
    forall i, j ensures InOrder(Slice(rows, a, b), i, j) {
      assert InOrder(rows, a + i, a + j);
    }
  }

  function Slice(rows: Frame, a: int, b: int): (r: Frame)
    requires 0 <= a && b <= |rows|
  {
    if a <= b then rows[a..b] else []
  }

  predicate Within(t: int, start: Option<int>, end: Option<int>) {
    && (start.Some? ==> start.value <= t)
    && (end.Some? ==> t <= end.value)
  }

  /** Row `i` lies in a label slice's index range exactly if its time lies in the interval. */
  lemma IndexInRange(rows: Frame, start: Option<int>, end: Option<int>, i: nat)
    requires Ascending(rows) && i < |rows|
    ensures LowIndex(rows, start) <= i < HighIndex(rows, end) <==> Within(rows[i].time, start, end)
  {
    if start.Some? { InsertionPoints(rows, start.value); }
    if end.Some? { InsertionPoints(rows, end.value); }
  }

  /** A label slice holds exactly the rows whose time lies in the interval. */
  lemma LocIsTheRange(rows: Frame, start: Option<int>, end: Option<int>, row: Row)
    requires Ascending(rows)
    ensures row in Loc(rows, start, end) <==> row in rows && Within(row.time, start, end)
  {
    var a, b := LowIndex(rows, start), HighIndex(rows, end);
    if row in Loc(rows, start, end) {
      var i :| a <= i < b && rows[i] == row;
      IndexInRange(rows, start, end, i);
    }
    if row in rows && Within(row.time, start, end) {
      var i :| 0 <= i < |rows| && rows[i] == row;
      IndexInRange(rows, start, end, i);
      assert rows[a..b][i - a] == row;
    }
  }

  /** Insertion points are determined by their two halves. */
  lemma BeforeIs(rows: Frame, t: int, k: nat)
    requires Ascending(rows) && k <= |rows|
    requires k > 0 ==> rows[k - 1].time < t
    requires k < |rows| ==> t <= rows[k].time
    ensures Before(rows, t) == k
  {
    AllInOrder(rows);
    InsertionPoints(rows, t);
  }

  lemma UpToIs(rows: Frame, t: int, k: nat)
    requires Ascending(rows) && k <= |rows|
    requires k > 0 ==> rows[k - 1].time <= t
    requires k < |rows| ==> t < rows[k].time
    ensures UpTo(rows, t) == k
  {
    AllInOrder(rows);
    InsertionPoints(rows, t);
  }

  // ---------------------------------------------------------------- database queries

  function Reverse(rows: Frame): (r: Frame)
    ensures |r| == |rows|
    ensures forall i :: 0 <= i < |rows| ==> r[i] == rows[|rows| - 1 - i]
  {
    seq(|rows|, i requires 0 <= i < |rows| => rows[|rows| - 1 - i])
  }

  /** The observation query: rows of the interval, newest first, cut after `limit` rows. */
  function Query(table: Frame, start: Option<int>, end: Option<int>, limit: Option<nat>): (r: Frame)
    requires Ascending(table)
  {
    var newestFirst := Reverse(Loc(table, start, end));
    if limit.Some? && limit.value < |newestFirst| then newestFirst[..limit.value] else newestFirst
  }

  /** A limited query returns the newest rows of its interval, as one unbroken run. */
  lemma QueryIsARun(table: Frame, start: Option<int>, end: Option<int>, limit: Option<nat>)
    requires Ascending(table)
    ensures var a, b := LowIndex(table, start), HighIndex(table, end);
            var from := if limit.Some? && b - a > limit.value then b - limit.value else a;
            Query(table, start, end, limit) == Reverse(Slice(table, from, b))
  {
  }

  // ---------------------------------------------------------------- appending

  /** `df[~df.index.duplicated(keep="first")]` */
  function KeepFirst(rows: Frame): (r: Frame) {
    if rows == [] then [] else
      var last := |rows| - 1;
      var kept := KeepFirst(rows[..last]);
      if HasTime(rows[..last], rows[last].time) then kept else kept + [rows[last]]
  }

  function InsertByTime(rows: Frame, row: Row): Frame {
    if rows == [] || row.time <= rows[0].time then [row] + rows
    else [rows[0]] + InsertByTime(rows[1..], row)
  }

  /** `df.sort_index()` */
  function SortIndex(rows: Frame): Frame {
    if rows == [] then [] else InsertByTime(SortIndex(rows[1..]), rows[0])
  }

  /** `DatastreamSTA._append`: rows already present win over newly fetched ones. */
  function Append(present: Frame, fetched: Frame): Frame {
    SortIndex(KeepFirst(present + fetched))
  }

  lemma {:induction false} KeepFirstMember(rows: Frame, row: Row)
    ensures row in KeepFirst(rows) <==>
            exists i :: 0 <= i < |rows| && rows[i] == row && !HasTime(rows[..i], row.time)
  {
    if rows != [] {
      var last := |rows| - 1;
      KeepFirstMember(rows[..last], row);
      assert forall i :: 0 <= i < last ==> rows[..last][..i] == rows[..i];
    }
  }

  lemma {:induction false} KeepFirstDistinct(rows: Frame)
    ensures DistinctTimes(KeepFirst(rows))
  {
    if rows != [] {
      var last := |rows| - 1;
      KeepFirstDistinct(rows[..last]);
      AllDistinct(KeepFirst(rows[..last]));
      AllDistinct(KeepFirst(rows));
      forall row | row in KeepFirst(rows[..last]) ensures HasTime(rows[..last], row.time) {
        KeepFirstMember(rows[..last], row);
      }
      var kept := KeepFirst(rows[..last]);
      assert forall i :: 0 <= i < |kept| ==> kept[i] in kept;
    }
  }

  lemma {:induction false} InsertKeeps(rows: Frame, row: Row)
    ensures forall r :: r in InsertByTime(rows, row) <==> r == row || r in rows
  {
    if rows != [] && rows[0].time < row.time {
      InsertKeeps(rows[1..], row);
      assert rows == [rows[0]] + rows[1..];
    }
  }

  lemma {:induction false} InsertAscends(rows: Frame, row: Row)
    requires Ascending(rows) && !HasTime(rows, row.time)
    ensures Ascending(InsertByTime(rows, row))
  {
    AllInOrder(rows);
    AllInOrder(InsertByTime(rows, row));
    if rows != [] && rows[0].time < row.time {
      var tail := InsertByTime(rows[1..], row);
      AllInOrder(rows[1..]);
      AllInOrder(tail);
      InsertAscends(rows[1..], row);
      InsertKeeps(rows[1..], row);
      assert forall i :: 0 <= i < |tail| ==> tail[i] in tail;
    }
  }

  lemma InsertSorted(rows: Frame)
    requires rows != [] && DistinctTimes(rows)
    requires Ascending(SortIndex(rows[1..])) && forall r :: r in SortIndex(rows[1..]) ==> r in rows[1..]
    ensures Ascending(InsertByTime(SortIndex(rows[1..]), rows[0]))
  {
    var sorted := SortIndex(rows[1..]);
    AllDistinct(rows);
    assert forall i :: 0 <= i < |sorted| ==> sorted[i] in rows[1..];
    InsertAscends(sorted, rows[0]);
  }

  lemma {:induction false} SortKeeps(rows: Frame)
    ensures forall r :: r in SortIndex(rows) <==> r in rows
    ensures DistinctTimes(rows) ==> Ascending(SortIndex(rows))
  {
    if rows != [] {
      SortKeeps(rows[1..]);
      AllDistinct(rows);
      AllDistinct(rows[1..]);
      InsertKeeps(SortIndex(rows[1..]), rows[0]);
      if DistinctTimes(rows) { InsertSorted(rows); }
      assert rows == [rows[0]] + rows[1..];
    }
  }

  /** An ascending frame is determined by its set of rows. */
  lemma {:induction false} AscendingIsUnique(a: Frame, b: Frame)
    requires Ascending(a) && Ascending(b)
    requires forall r :: r in a <==> r in b
    ensures a == b
  {
    AllInOrder(a);
    AllInOrder(b);
    assert a != [] ==> a[0] in b;
    assert b != [] ==> b[0] in a;
    if a != [] && b != [] {
      assert a[0] == b[0];
      forall r ensures r in a[1..] <==> r in b[1..] {
        if r in a[1..] { assert r in b && r != b[0]; }
        if r in b[1..] { assert r in a && r != a[0]; }
      }
      AllInOrder(a[1..]);
      AllInOrder(b[1..]);
      AscendingIsUnique(a[1..], b[1..]);
      assert a == [a[0]] + a[1..] && b == [b[0]] + b[1..];
    }
  }

  ghost predicate Joins(present: Frame, fetched: Frame, row: Row) {
    row in present || (row in fetched && !HasTime(present, row.time))
  }

  /** What `_append` yields: the ascending frame of all rows present, plus the fetched rows
      whose time was not present yet. */
  lemma AppendMember(present: Frame, fetched: Frame)
    requires DistinctTimes(present) && DistinctTimes(fetched)
    ensures Ascending(Append(present, fetched))
    ensures forall r :: r in Append(present, fetched) <==> Joins(present, fetched, r)
  {
    var all := present + fetched;
    AllDistinct(present);
    AllDistinct(fetched);
    KeepFirstDistinct(all);
    SortKeeps(KeepFirst(all));
    forall r
      ensures r in KeepFirst(all) <==> Joins(present, fetched, r)
    {
      KeepFirstMember(all, r);
      if r in KeepFirst(all) {
        var i :| 0 <= i < |all| && all[i] == r && !HasTime(all[..i], r.time);
        assert i >= |present| ==> forall k :: 0 <= k < |present| ==> all[..i][k] == present[k];
      }
      if r in present {
        var i :| 0 <= i < |present| && present[i] == r;
        assert all[i] == r && !HasTime(all[..i], r.time);
      }
      if r in fetched && !HasTime(present, r.time) {
        var i :| 0 <= i < |fetched| && fetched[i] == r;
        var n := |present| + i;
        assert all[n] == r;
        assert forall k :: 0 <= k < n ==>
                 all[..n][k] == if k < |present| then present[k] else fetched[k - |present|];
      }
    }
  }

  // ---------------------------------------------------------------- local quality labels

  /** The rows with the locally stored quality labels laid over them. */
  function Overlay(rows: Frame, labels: map<int, Label>): (r: Frame)
    ensures |r| == |rows|
    ensures forall i :: 0 <= i < |rows| ==> r[i] == OverlayRow(rows[i], labels)
  {
    seq(|rows|, i requires 0 <= i < |rows| => OverlayRow(rows[i], labels))
  }

  function OverlayRow(row: Row, labels: map<int, Label>): Row {
    if row.time in labels then row.(quality := labels[row.time]) else row
  }

  lemma WindowAscends(table: Frame, lo: nat, hi: nat, labels: map<int, Label>)
    requires Ascending(table) && lo <= hi <= |table|
    ensures Ascending(table[lo..hi]) && Ascending(Overlay(table[lo..hi], labels))
    ensures DistinctTimes(Overlay(table[lo..hi], labels))
  {
    AllInOrder(table);
    AllInOrder(table[lo..hi]);
    AllInOrder(Overlay(table[lo..hi], labels));
  }

  /** Every label written locally sits on a row of `rows`. */
  ghost predicate LabelsFit(rows: Frame, labels: map<int, Label>) {
    forall t {:trigger HasTime(rows, t)} :: t in labels ==> HasTime(rows, t)
  }

  /** Label slices of a cached window are label slices of the table, cut to the window. */
  lemma WindowBefore(table: Frame, lo: nat, hi: nat, labels: map<int, Label>, t: int)
    requires Ascending(table) && lo <= hi <= |table|
    ensures var k := Before(table, t);
            && Ascending(Overlay(table[lo..hi], labels))
            && Before(Overlay(table[lo..hi], labels), t) ==
               if k <= lo then 0 else if k <= hi then k - lo else hi - lo
  {
    var k := Before(table, t);
    var c := if k <= lo then 0 else if k <= hi then k - lo else hi - lo;
    WindowAscends(table, lo, hi, labels);
    InsertionPoints(table, t);
    BeforeIs(Overlay(table[lo..hi], labels), t, c);
  }

  lemma WindowUpTo(table: Frame, lo: nat, hi: nat, labels: map<int, Label>, t: int)
    requires Ascending(table) && lo <= hi <= |table|
    ensures var k := UpTo(table, t);
            && Ascending(Overlay(table[lo..hi], labels))
            && UpTo(Overlay(table[lo..hi], labels), t) ==
               if k <= lo then 0 else if k <= hi then k - lo else hi - lo
  {
    var k := UpTo(table, t);
    var c := if k <= lo then 0 else if k <= hi then k - lo else hi - lo;
    WindowAscends(table, lo, hi, labels);
    InsertionPoints(table, t);
    UpToIs(Overlay(table[lo..hi], labels), t, c);
  }

  lemma WindowTimes(table: Frame, lo: nat, hi: nat, labels: map<int, Label>, k: nat)
    requires Ascending(table) && lo <= hi <= |table| && k < |table|
    ensures HasTime(Overlay(table[lo..hi], labels), table[k].time) <==> lo <= k < hi
    ensures HasTime(table[lo..hi], table[k].time) <==> lo <= k < hi
  {
    AllInOrder(table);
    if lo <= k < hi {
      assert Overlay(table[lo..hi], labels)[k - lo].time == table[k].time;
      assert table[lo..hi][k - lo].time == table[k].time;
    }
  }

  function Min(a: nat, b: nat): nat { if a < b then a else b }

  function Max(a: nat, b: nat): nat { if a < b then b else a }

  lemma WidenedRow(table: Frame, labels: map<int, Label>, lo: nat, hi: nat, a: nat, b: nat, k: nat)
    requires Ascending(table) && lo <= hi <= |table| && a <= b <= |table|
    requires a <= hi && lo <= b && Min(a, lo) <= k < Max(b, hi)
    requires LabelsFit(table[lo..hi], labels)
    ensures var present := Overlay(table[lo..hi], labels);
            var row := OverlayRow(table[k], labels);
            Joins(present, Reverse(table[a..b]), row)
  {
    var present := Overlay(table[lo..hi], labels);
    WindowTimes(table, lo, hi, labels, k);
    if lo <= k < hi {
      assert present[k - lo] == OverlayRow(table[k], labels);
    } else {
      assert Reverse(table[a..b])[b - 1 - k] == table[k];
    }
  }

  lemma JoinedRow(table: Frame, labels: map<int, Label>, lo: nat, hi: nat, a: nat, b: nat, row: Row)
      returns (k: nat)
    requires Ascending(table) && lo <= hi <= |table| && a <= b <= |table|
    requires LabelsFit(table[lo..hi], labels)
    requires var present := Overlay(table[lo..hi], labels);
             Joins(present, Reverse(table[a..b]), row)
    ensures Min(a, lo) <= k < Max(b, hi) && row == OverlayRow(table[k], labels)
  {
    var present := Overlay(table[lo..hi], labels);
    if row in present {
      var i :| 0 <= i < |present| && present[i] == row;
      k := lo + i;
    } else {
      var i :| 0 <= i < |table[a..b]| && Reverse(table[a..b])[i] == row;
      k := b - 1 - i;
      WindowTimes(table, lo, hi, labels, k);
    }
  }

  lemma AppendIs(present: Frame, fetched: Frame, wide: Frame)
    requires DistinctTimes(present) && DistinctTimes(fetched) && Ascending(wide)
    requires forall row :: row in wide <==> Joins(present, fetched, row)
    ensures Append(present, fetched) == wide
  {
    AppendMember(present, fetched);
    AscendingIsUnique(Append(present, fetched), wide);
  }

  lemma JoinedIsWide(table: Frame, labels: map<int, Label>, lo: nat, hi: nat, a: nat, b: nat, row: Row)
    requires Ascending(table) && lo <= hi <= |table| && a <= b <= |table|
    requires LabelsFit(table[lo..hi], labels)
    requires Joins(Overlay(table[lo..hi], labels), Reverse(table[a..b]), row)
    ensures row in Overlay(table[Min(a, lo)..Max(b, hi)], labels)
  {
    var k := JoinedRow(table, labels, lo, hi, a, b, row);
    assert Overlay(table[Min(a, lo)..Max(b, hi)], labels)[k - Min(a, lo)] == row;
  }

  lemma WideIsJoined(table: Frame, labels: map<int, Label>, lo: nat, hi: nat, a: nat, b: nat, row: Row)
    requires Ascending(table) && lo <= hi <= |table| && a <= b <= |table|
    requires a <= hi && lo <= b
    requires LabelsFit(table[lo..hi], labels)
    requires row in Overlay(table[Min(a, lo)..Max(b, hi)], labels)
    ensures Joins(Overlay(table[lo..hi], labels), Reverse(table[a..b]), row)
  {
    var wide := Overlay(table[Min(a, lo)..Max(b, hi)], labels);
    var i :| 0 <= i < |wide| && wide[i] == row;
    WidenedRow(table, labels, lo, hi, a, b, Min(a, lo) + i);
  }

  lemma ReversedWindowDistinct(table: Frame, a: nat, b: nat)
    requires Ascending(table) && a <= b <= |table|
    ensures DistinctTimes(Reverse(table[a..b]))
  {
    AllInOrder(table);
  }

  /** Appending a queried run that touches the cached window widens the window, without a
      hole and without losing a local label. */
  lemma AppendWidens(table: Frame, labels: map<int, Label>, lo: nat, hi: nat, a: nat, b: nat)
    requires Ascending(table) && lo <= hi <= |table| && a <= b <= |table|
    requires a <= hi && lo <= b
    requires LabelsFit(table[lo..hi], labels)
    ensures Append(Overlay(table[lo..hi], labels), Reverse(table[a..b]))
         == Overlay(table[Min(a, lo)..Max(b, hi)], labels)
  {
    WindowAscends(table, lo, hi, labels);
    WindowAscends(table, Min(a, lo), Max(b, hi), labels);
    ReversedWindowDistinct(table, a, b);
    var present, fetched, wide :=
      Overlay(table[lo..hi], labels), Reverse(table[a..b]), Overlay(table[Min(a, lo)..Max(b, hi)], labels);
    forall row ensures row in wide <==> Joins(present, fetched, row) {
      if row in wide { WideIsJoined(table, labels, lo, hi, a, b, row); }
      if Joins(present, fetched, row) { JoinedIsWide(table, labels, lo, hi, a, b, row); }
    }
    AppendIs(present, fetched, wide);
  }

  lemma OverlayNothing(rows: Frame)
    ensures Overlay(rows, map[]) == rows
  {
  }

  lemma OverlaySlice(rows: Frame, labels: map<int, Label>, a: nat, b: nat)
    requires a <= b <= |rows|
    ensures Overlay(rows, labels)[a..b] == Overlay(rows[a..b], labels)
  {
  }

  /** Labels written later win; labels for times without a row are ignored. */
  lemma OverlayTwice(rows: Frame, labels: map<int, Label>, newer: map<int, Label>)
    ensures var kept := map t | t in newer && HasTime(rows, t) :: newer[t];
            Overlay(Overlay(rows, labels), newer) == Overlay(rows, labels + kept)
  {
  }

  /** Sorting what a query returned gives the interval in time order. */
  lemma SortOfReverse(table: Frame, a: nat, b: nat)
    requires Ascending(table) && a <= b <= |table|
    ensures SortIndex(Reverse(table[a..b])) == table[a..b]
  {
    var run := table[a..b];
    ReversedWindowDistinct(table, a, b);
    SortKeeps(Reverse(run));
    WindowAscends(table, a, b, map[]);
    forall row ensures row in Reverse(run) <==> row in run {
      if row in run {
        var i :| 0 <= i < |run| && run[i] == row;
        assert Reverse(run)[|run| - 1 - i] == row;
      }
    }
    AscendingIsUnique(SortIndex(Reverse(run)), run);
  }

  lemma QueryIsDistinct(table: Frame, start: Option<int>, end: Option<int>, limit: Option<nat>)
    requires Ascending(table)
    ensures DistinctTimes(Query(table, start, end, limit))
  {
    AllInOrder(Loc(table, start, end));
  }

  function LastTime(rows: Frame): int
    requires rows != []
  {
    rows[|rows| - 1].time
  }

  lemma AppendKeepsTimes(present: Frame, fetched: Frame)
    requires DistinctTimes(present) && DistinctTimes(fetched)
    ensures Ascending(Append(present, fetched))
    ensures present != [] ==> Append(present, fetched) != []
    ensures present != [] ==> LastTime(present) <= LastTime(Append(present, fetched))
    ensures forall t :: HasTime(present, t) ==> HasTime(Append(present, fetched), t)
  {
    AppendMember(present, fetched);
    forall t | HasTime(present, t) ensures HasTime(Append(present, fetched), t) {
      var i :| 0 <= i < |present| && present[i].time == t;
      assert present[i] in Append(present, fetched);
    }
    assert present != [] ==> present[0] in Append(present, fetched);
    assert present != [] ==> HasTime(Append(present, fetched), LastTime(present));
    AllInOrder(Append(present, fetched));
  }
}
