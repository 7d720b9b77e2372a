/** A quality-control datastream: a local window of a stored stream that is widened on demand,
    carries quality labels that are not uploaded yet, and remembers where its upload starts. */
module Datastreams {
  import opened Wrappers
  import opened Frames

  datatype Kind = Immutable | Product | Local

  /** The context asked for in front of a read: none at all, a duration, or a number of rows. */
  datatype Window = NoWindow | Duration(d: nat) | Count(n: nat)

  datatype StreamError = IndexError | AssertionError | NeverUploaded | NotATime

  // ---------------------------------------------------------------- what a read means

  /** Row count of a counted context: `w + 1` if the window held that many rows at or before
      the start already, otherwise `w`, or all there are. */
  function ContextRows(available: nat, cached: nat, w: nat): (c: nat)
    ensures c <= available
  {
    if w + 1 <= cached <= available then w + 1 else Min(w, available)
  }

  /** How many of the first `u` rows lie behind row `lo`. */
  function Behind(u: nat, lo: nat): nat { if lo <= u then u - lo else 0 }

  /** The read of a whole table. `lo` is the number of rows in front of the cached window; only
      a counted context depends on it. */
  ghost function Read(table: Frame, lo: nat, start: int, end: Option<int>, window: Window)
      : Result<Frame, StreamError>
    requires Ascending(table)
  {
    var chunk := Loc(table, Some(start), end);
    if chunk == [] then Ok([])
    else
      match window
      case NoWindow => Ok(chunk)
      case Duration(d) => Ok(Loc(table, Some(start - d), end))
      case Count(n) =>
        var available := UpTo(table, start);
        if n == 0 then Ok(chunk)
        else if available == 0 then Err(IndexError)
        else Ok(Slice(table, available - ContextRows(available, Behind(available, lo), n), HighIndex(table, end)))
  }

  /** The part of the table a read looks at: an open read of a non-empty window never asks for
      rows behind the window. */
  ghost function Seen(table: Frame, warm: bool, hi: nat, end: Option<int>): Frame
    requires hi <= |table|
  {
    if end.None? && warm then table[..hi] else table
  }

  ghost function WithLabels(r: Result<Frame, StreamError>, labels: map<int, Label>): Result<Frame, StreamError> {
    match r
    case Ok(rows) => Ok(Overlay(rows, labels))
    case Err(e) => Err(e)
  }

  ghost predicate Mirrors(table: Frame, data: Frame, lo: nat, hi: nat, labels: map<int, Label>) {
    && lo <= hi <= |table|
    && data == Overlay(table[lo..hi], labels)
    && LabelsFit(table[lo..hi], labels)
  }

  ghost predicate IsLeast(ptr: Option<int>, starts: set<int>) {
    && (ptr.None? <==> starts == {})
    && (ptr.Some? ==> ptr.value in starts && forall s :: s in starts ==> ptr.value <= s)
  }

  lemma SubWindow(table: Frame, lo: nat, hi: nat, i: nat, j: nat)
    requires lo <= hi <= |table| && i <= j <= hi - lo
    ensures table[lo..hi][i..j] == table[lo + i..lo + j]
  {
    forall k | 0 <= k < j - i ensures table[lo..hi][i..j][k] == table[lo + i..lo + j][k] {
    }
  }

  lemma SliceOfWindow(table: Frame, lo: nat, hi: nat, labels: map<int, Label>, i: nat, j: nat)
    requires lo <= hi <= |table| && i <= hi - lo && j <= hi - lo
    ensures Slice(Overlay(table[lo..hi], labels), i, j) == Overlay(Slice(table, lo + i, lo + j), labels)
  {
    if i <= j {
      SubWindow(table, lo, hi, i, j);
      OverlaySlice(table[lo..hi], labels, i, j);
    }
  }

  lemma LocOfWindow(table: Frame, data: Frame, lo: nat, hi: nat, labels: map<int, Label>,
                    start: int, end: Option<int>)
    requires Ascending(table) && Mirrors(table, data, lo, hi, labels)
    requires lo <= Before(table, start)
    ensures Ascending(data)
    ensures var top := if end.Some? then Min(UpTo(table, end.value), hi) else hi;
            Loc(data, Some(start), end) == Overlay(Slice(table, Before(table, start), top), labels)
  {
    WindowBefore(table, lo, hi, labels, start);
    var low := LowIndex(data, Some(start));
    var high := HighIndexOfWindow(table, data, lo, hi, labels, end);
    SliceOfWindow(table, lo, hi, labels, low, high);
    var top := if end.Some? then Min(UpTo(table, end.value), hi) else hi;
    SameSlice(table, lo, hi, Before(table, start), top, low, high);
  }

  lemma SameSlice(table: Frame, lo: nat, hi: nat, k: nat, top: nat, low: nat, high: nat)
    requires lo <= hi <= |table| && lo <= k && top <= hi
    requires low == if k <= hi then k - lo else hi - lo
    requires if lo <= top then lo + high == top else high == 0
    ensures lo + low <= |table| && lo + high <= |table|
    ensures Slice(table, lo + low, lo + high) == Slice(table, k, top)
  {
  }

  lemma HighIndexOfWindow(table: Frame, data: Frame, lo: nat, hi: nat, labels: map<int, Label>, end: Option<int>)
      returns (high: nat)
    requires Ascending(table) && Mirrors(table, data, lo, hi, labels)
    ensures Ascending(data) && high == HighIndex(data, end) && high <= hi - lo
    ensures var top := if end.Some? then Min(UpTo(table, end.value), hi) else hi;
            if lo <= top then lo + high == top else high == 0
  {
    WindowAscends(table, lo, hi, labels);
    high := HighIndex(data, end);
    if end.Some? { WindowUpTo(table, lo, hi, labels, end.value); }
  }

  lemma LocTruncated(table: Frame, k: nat, start: int, end: Option<int>)
    requires Ascending(table) && k <= |table|
    ensures Ascending(table[..k])
    ensures var top := if end.Some? then Min(UpTo(table, end.value), k) else k;
            Loc(table[..k], Some(start), end) == Slice(table, Before(table, start), top)
  {
    OverlayNothing(table[0..k]);
    assert table[0..k] == table[..k];
    LocOfWindow(table, table[..k], 0, k, map[], start, end);
    OverlayNothing(Slice(table, Before(table, start), if end.Some? then Min(UpTo(table, end.value), k) else k));
  }

  lemma OwnTime(table: Frame, k: nat)
    requires Ascending(table) && k < |table|
    ensures Before(table, table[k].time) == k && UpTo(table, table[k].time) == k + 1
  {
    AllInOrder(table);
    BeforeIs(table, table[k].time, k);
    UpToIs(table, table[k].time, k + 1);
  }

  lemma StillFit(table: Frame, labels: map<int, Label>, lo: nat, hi: nat, p: nat, q: nat)
    requires p <= lo <= hi <= q <= |table|
    requires LabelsFit(table[lo..hi], labels)
    ensures LabelsFit(table[p..q], labels)
  {
    forall t | t in labels ensures HasTime(table[p..q], t) {
      assert HasTime(table[lo..hi], t);
      var i :| 0 <= i < |table[lo..hi]| && table[lo..hi][i].time == t;
      assert table[p..q][lo + i - p].time == t;
    }
  }

  /** First row index of a (limited) query. */
  function QueryFrom(table: Frame, start: Option<int>, end: Option<int>, limit: Option<nat>): nat
    requires Ascending(table)
  {
    var a, b := LowIndex(table, start), HighIndex(table, end);
    if limit.Some? && b - a > limit.value then b - limit.value else a
  }

  /** A fetch whose run of rows touches the window widens the window by that run. */
  lemma FetchWidens(table: Frame, data: Frame, lo: nat, hi: nat, labels: map<int, Label>,
                    start: Option<int>, end: Option<int>, limit: Option<nat>)
    requires Ascending(table) && Mirrors(table, data, lo, hi, labels)
    requires QueryFrom(table, start, end, limit) <= hi
    requires QueryFrom(table, start, end, limit) <= HighIndex(table, end)
    requires lo <= HighIndex(table, end)
    ensures Mirrors(table, Append(data, Query(table, start, end, limit)),
                    Min(QueryFrom(table, start, end, limit), lo), Max(HighIndex(table, end), hi), labels)
  {
    var from, to := QueryFrom(table, start, end, limit), HighIndex(table, end);
    QueryIsARun(table, start, end, limit);
    AppendWidens(table, labels, lo, hi, from, to);
    StillFit(table, labels, lo, hi, Min(from, lo), Max(to, hi));
  }

  lemma HeadFetch(table: Frame, data: Frame, lo: nat, hi: nat, labels: map<int, Label>, start: int)
    requires Ascending(table) && Mirrors(table, data, lo, hi, labels) && data != []
    ensures data[0].time == table[lo].time
    ensures start < data[0].time ==>
              && QueryFrom(table, Some(start), Some(data[0].time), None) == Before(table, start) <= lo
              && HighIndex(table, Some(data[0].time)) == lo + 1
    ensures start >= data[0].time ==> lo <= Before(table, start)
  {
    AllInOrder(table);
    InsertionPoints(table, start);
    OwnTime(table, lo);
  }

  lemma TailFetch(table: Frame, data: Frame, lo: nat, hi: nat, labels: map<int, Label>, end: int)
    requires Ascending(table) && Mirrors(table, data, lo, hi, labels) && data != []
    ensures var last := LastTime(data);
            && last == table[hi - 1].time
            && (end > last ==> QueryFrom(table, Some(last), Some(end), None) == hi - 1 && hi <= UpTo(table, end))
            && (end <= last ==> UpTo(table, end) <= hi)
  {
    AllInOrder(table);
    InsertionPoints(table, end);
    OwnTime(table, hi - 1);
  }

  lemma EmptyWindow(table: Frame, lo: nat, hi: nat, labels: map<int, Label>)
    requires Mirrors(table, [], lo, hi, labels)
    ensures labels == map[]
  {
    assert |Overlay(table[lo..hi], labels)| == 0;
    assert forall t :: t in labels ==> HasTime(table[lo..hi], t);
    assert forall t :: t !in labels;
    assert labels == map t | t in labels :: None;
  }

  lemma FirstFrom(table: Frame, data: Frame, lo: nat, hi: nat, labels: map<int, Label>, t: int)
    requires Ascending(table) && Mirrors(table, data, lo, hi, labels)
    requires data != [] && t <= LastTime(data) && lo <= Before(table, t)
    ensures Ascending(data)
    ensures Before(data, t) == Before(table, t) - lo < |data|
    ensures data[Before(data, t)].time == table[Before(table, t)].time
  {
    WindowBefore(table, lo, hi, labels, t);
    InsertionPoints(data, t);
    InsertionPoints(table, t);
  }

  lemma RowsUpTo(table: Frame, data: Frame, lo: nat, hi: nat, labels: map<int, Label>, t: int)
    requires Ascending(table) && Mirrors(table, data, lo, hi, labels)
    requires data != [] && t <= LastTime(data) && lo <= Before(table, t)
    ensures Ascending(data)
    ensures lo <= UpTo(table, t) && UpTo(data, t) == UpTo(table, t) - lo
  {
    InsertionPoints(table, t);
    WindowUpTo(table, lo, hi, labels, t);
  }

  lemma CountFetch(table: Frame, lo: nat, start: int, n: nat)
    requires Ascending(table) && lo < |table| && lo <= UpTo(table, start) && n > 0
    ensures var missing := n + 1 - (UpTo(table, start) - lo);
            missing > 1 ==>
              && QueryFrom(table, None, Some(table[lo].time), Some(missing))
                 == (if UpTo(table, start) < n then 0 else UpTo(table, start) - n)
              && HighIndex(table, Some(table[lo].time)) == lo + 1
  {
    OwnTime(table, lo);
  }

  lemma ColdQuery(table: Frame, start: int, end: Option<int>)
    requires Ascending(table)
    ensures SortIndex(Query(table, Some(start), end, None)) == Loc(table, Some(start), end)
    ensures Mirrors(table, [], 0, 0, map[])
    ensures Before(table, start) <= HighIndex(table, end) ==>
              Mirrors(table, Loc(table, Some(start), end), Before(table, start), HighIndex(table, end), map[])
  {
    var from, to := Before(table, start), HighIndex(table, end);
    QueryIsARun(table, Some(start), end, None);
    OverlayNothing(Loc(table, Some(start), end));
    if from <= to { SortOfReverse(table, from, to); }
  }

  /** Once the window covers the interval, slicing it is slicing the table. */
  lemma AgreesWithTable(table: Frame, data: Frame, lo: nat, hi: nat, labels: map<int, Label>,
                        start: int, end: Option<int>)
    requires Ascending(table) && Mirrors(table, data, lo, hi, labels)
    requires lo <= Before(table, start)
    requires end.Some? ==> UpTo(table, end.value) <= hi
    ensures var seen := Seen(table, true, hi, end);
            && Ascending(data) && Ascending(seen)
            && Loc(data, Some(start), end) == Overlay(Loc(seen, Some(start), end), labels)
            && HighIndex(seen, end) == (if end.Some? then UpTo(table, end.value) else hi)
            && Loc(seen, Some(start), end) == Slice(table, Before(table, start), HighIndex(seen, end))
  {
    LocOfWindow(table, data, lo, hi, labels, start, end);
    if end.None? { LocTruncated(table, hi, start, end); }
  }

  lemma DurationReadIs(table: Frame, data: Frame, lo: nat, hi: nat, labels: map<int, Label>,
                       start: int, end: Option<int>, d: nat)
    requires Ascending(table) && Mirrors(table, data, lo, hi, labels)
    requires lo <= Before(table, start - d) < |table|
    requires end.Some? ==> UpTo(table, end.value) <= hi
    ensures var seen := Seen(table, true, hi, end);
            && Ascending(data) && Ascending(seen)
            && Loc(data, Some(table[Before(table, start - d)].time), end)
            == Overlay(Loc(seen, Some(start - d), end), labels)
  {
    AgreesWithTable(table, data, lo, hi, labels, start - d, end);
    StartAtRow(table, data, lo, hi, labels, Before(table, start - d), end);
  }

  /** A read that starts where the context starts is the read of the table, labels laid over. */
  lemma ContextReadIs(table: Frame, data: Frame, oldLo: nat, lo: nat, hi: nat, labels: map<int, Label>,
                      start: int, end: Option<int>, window: Window, first: Result<int, StreamError>)
    requires Ascending(table) && Mirrors(table, data, lo, hi, labels) && lo <= Before(table, start) < hi
    requires end.Some? ==> UpTo(table, end.value) <= hi
    requires !window.NoWindow? && ContextStart(table, oldLo, lo, start, window, first)
    requires Ascending(Seen(table, true, hi, end)) && Loc(Seen(table, true, hi, end), Some(start), end) != []
    ensures Ascending(data)
    ensures WithLabels(Read(Seen(table, true, hi, end), oldLo, start, end, window), labels)
         == if first.Err? then Err(first.error) else Ok(Loc(data, Some(first.value), end))
  {
    WindowAscends(table, lo, hi, labels);
    match window
    case Duration(d) =>
      DurationReadIs(table, data, lo, hi, labels, start, end, d);
    case Count(n) =>
      if n == 0 {
        AgreesWithTable(table, data, lo, hi, labels, start, end);
      } else {
        CountReadIs(table, data, oldLo, lo, hi, labels, start, end, n, first);
      }
  }

  lemma CountReadIs(table: Frame, data: Frame, oldLo: nat, lo: nat, hi: nat, labels: map<int, Label>,
                    start: int, end: Option<int>, n: nat, first: Result<int, StreamError>)
    requires Ascending(table) && Mirrors(table, data, lo, hi, labels) && lo <= Before(table, start) < hi
    requires end.Some? ==> UpTo(table, end.value) <= hi
    requires n > 0 && ContextStart(table, oldLo, lo, start, Count(n), first)
    requires Ascending(Seen(table, true, hi, end)) && Loc(Seen(table, true, hi, end), Some(start), end) != []
    requires Ascending(data)
    ensures WithLabels(Read(Seen(table, true, hi, end), oldLo, start, end, Count(n)), labels)
         == if first.Err? then Err(first.error) else Ok(Loc(data, Some(first.value), end))
  {
    SeenUpTo(table, hi, start, end);
    var u := UpTo(table, start);
    if u > 0 {
      StartAtRow(table, data, lo, hi, labels, u - ContextRows(u, Behind(u, oldLo), n), end);
    }
  }

  lemma ChunkReaches(data: Frame, start: int, end: Option<int>)
    requires Ascending(data) && Loc(data, Some(start), end) != []
    ensures data != [] && start <= LastTime(data)
  {
    InsertionPoints(data, start);
    assert Before(data, start) < |data|;
  }

  lemma ChunkTimes(data: Frame, start: int, end: Option<int>)
    requires Ascending(data)
    ensures forall row :: row in Loc(data, Some(start), end) ==>
              HasTime(data, row.time) && start <= row.time && Within(row.time, Some(start), end)
  {
    forall row | row in Loc(data, Some(start), end)
      ensures HasTime(data, row.time) && start <= row.time && Within(row.time, Some(start), end)
    {
      LocIsTheRange(data, Some(start), end, row);
    }
  }

  lemma ChunkInWindow(table: Frame, data: Frame, lo: nat, hi: nat, labels: map<int, Label>,
                      start: int, end: Option<int>)
    requires Ascending(table) && Mirrors(table, data, lo, hi, labels) && lo <= Before(table, start)
    requires Ascending(data) && Loc(data, Some(start), end) != []
    ensures Before(table, start) < hi
  {
    LocOfWindow(table, data, lo, hi, labels, start, end);
  }

  lemma SeenUpTo(table: Frame, hi: nat, start: int, end: Option<int>)
    requires Ascending(table) && hi <= |table|
    requires Before(table, start) < hi
    ensures var seen := Seen(table, true, hi, end);
            Ascending(seen) && UpTo(seen, start) == UpTo(table, start)
  {
    if end.None? {
      InsertionPoints(table, start);
      SliceAscends(table, 0, hi);
      assert Slice(table, 0, hi) == table[..hi];
      UpToIs(table[..hi], start, UpTo(table, start));
    }
  }

  lemma StartAtRow(table: Frame, data: Frame, lo: nat, hi: nat, labels: map<int, Label>, k: nat, end: Option<int>)
    requires Ascending(table) && Mirrors(table, data, lo, hi, labels)
    requires lo <= k < |table|
    requires end.Some? ==> UpTo(table, end.value) <= hi
    ensures var seen := Seen(table, true, hi, end);
            && Ascending(data) && Ascending(seen)
            && Loc(data, Some(table[k].time), end) == Overlay(Slice(seen, k, HighIndex(seen, end)), labels)
  {
    OwnTime(table, k);
    AgreesWithTable(table, data, lo, hi, labels, table[k].time, end);
  }

  /** `LocalStream.get_data`: only present data, and a counted context by position. */
  function LocalRead(data: Frame, start: Option<int>, end: Option<int>, window: Window)
      : Result<Frame, StreamError>
    requires Ascending(data)
  {
    if window == Count(0) then Ok(Loc(data, start, end))
    else if window.NoWindow? then Err(AssertionError)
    else if data == [] then Ok([])
    else
      var s := if start.Some? then start.value else data[0].time;
      var e := if end.Some? then end.value else LastTime(data);
      match window
      case Duration(d) => Ok(Loc(data, Some(s - d), Some(e)))
      case Count(n) =>
        var pre := Loc(data, None, Some(s));
        var context := if pre == [] then [] else pre[|pre| - Min(n + 1, |pre|)..|pre| - 1];
        Ok(context + Loc(data, Some(s), Some(e)))
  }

  // ---------------------------------------------------------------- windows in index form

  /** Where the window `[lo, hi)` reaches after the widening step of a read. */
  ghost function WidenedLo(table: Frame, warm: bool, lo: nat, start: int): (k: nat)
    requires Ascending(table)
    ensures k <= Before(table, start)
  {
    if warm then Min(Before(table, start), lo) else Before(table, start)
  }

  ghost function WidenedHi(table: Frame, warm: bool, hi: nat, end: Option<int>): nat
    requires Ascending(table)
  {
    if !warm then HighIndex(table, end)
    else if end.Some? then Max(UpTo(table, end.value), hi) else hi
  }

  /** Where the window begins once the context of a read with rows has been fetched. A counted context has what is
      missing to `n` rows fetched, if that many are stored. */
  ghost function ContextLo(table: Frame, lo: nat, start: int, window: Window): nat
    requires Ascending(table)
  {
    match window
    case NoWindow => lo
    case Duration(d) => Min(Before(table, start - d), lo)
    case Count(n) => if n == 0 then lo else CountedLo(UpTo(table, start), lo, n)
  }

  function CountedLo(u: nat, lo: nat, n: nat): nat {
    if u - lo < n then (if u < n then 0 else u - n) else lo
  }

  /** The window as rows `lo..hi` of the table. */
  datatype Span = Span(lo: nat, hi: nat)
  {
    predicate Warm() { lo < hi }

    predicate In(table: Frame) { lo <= hi <= |table| }
  }

  /** The answer of a read behind a window. */
  ghost predicate ReadsSpan(table: Frame, span: Span, labels: map<int, Label>, start: int, end: Option<int>,
                            window: Window, r: Result<Frame, StreamError>)
  {
    span.In(table) && ReadsTable(table, span.Warm(), span.lo, span.hi, labels, start, end, window, r)
  }

  /** The window after a read of a stored stream. */
  ghost function SpanAfter(table: Frame, span: Span, start: int, end: Option<int>, window: Window): Span
    requires Ascending(table) && span.In(table)
  {
    var lo, hi := WidenedLo(table, span.Warm(), span.lo, start), WidenedHi(table, span.Warm(), span.hi, end);
    if lo >= hi then Span(0, 0)
    else if SeenChunk(table, span.Warm(), span.hi, start, end) == [] then Span(lo, hi)
    else Span(ContextLo(table, lo, start, window), hi)
  }

  /** The unprocessed range spans exactly the rows without a label: its ends are such rows, all such
      rows lie within, and it is missing at both ends or at none. */
  lemma {:induction false} OldestIs(table: Frame)
    requires Ascending(table)
    ensures var o := OldestUnlabelled(table);
            && (o.None? <==> forall row :: row in table ==> row.quality.Some?)
            && (o.Some? ==> (exists row :: row in table && row.quality.None? && row.time == o.value)
                            && forall row :: row in table && row.quality.None? ==> o.value <= row.time)
  {
    if table != [] {
      SliceAscends(table, 1, |table|);
      assert Slice(table, 1, |table|) == table[1..];
      OldestIs(table[1..]);
      AllInOrder(table);
      assert table == [table[0]] + table[1..];
      assert table[0] in table;
    }
  }

  lemma {:induction false} NewestIs(table: Frame)
    requires Ascending(table)
    ensures var o := NewestUnlabelled(table);
            && (o.None? <==> forall row :: row in table ==> row.quality.Some?)
            && (o.Some? ==> (exists row :: row in table && row.quality.None? && row.time == o.value)
                            && forall row :: row in table && row.quality.None? ==> row.time <= o.value)
  {
    if table != [] {
      var n := |table| - 1;
      SliceAscends(table, 0, n);
      assert Slice(table, 0, n) == table[..n];
      NewestIs(table[..n]);
      AllInOrder(table);
      assert table == table[..n] + [table[n]];
      assert table[n] in table;
    }
  }

  /** The two ends are unlabelled rows with all unlabelled rows between them, or there is no such row. */
  ghost predicate SpansUnlabelled(table: Frame, range: (Option<int>, Option<int>)) {
    if forall row :: row in table ==> row.quality.Some? then range == (None, None)
    else
      && range.0.Some? && range.1.Some?
      && (exists row :: row in table && row.quality.None? && row.time == range.0.value)
      && (exists row :: row in table && row.quality.None? && row.time == range.1.value)
      && forall row :: row in table && row.quality.None? ==> range.0.value <= row.time <= range.1.value
  }

  lemma {:induction false} NoOldest(table: Frame)
    ensures OldestUnlabelled(table).None? <==> forall row :: row in table ==> row.quality.Some?
  {
    if table != [] {
      NoOldest(table[1..]);
      assert table == [table[0]] + table[1..] && table[0] in table;
    }
  }

  lemma {:induction false} NoNewest(table: Frame)
    ensures NewestUnlabelled(table).None? <==> forall row :: row in table ==> row.quality.Some?
  {
    if table != [] {
      var n := |table| - 1;
      NoNewest(table[..n]);
      assert table == table[..n] + [table[n]] && table[n] in table;
    }
  }

  /** The unprocessed range has both ends or neither, and neither exactly if no stored row is without a label. */
  lemma UnprocessedEnds(kind: Kind, table: Frame)
    ensures UnlabelledRange(kind, table).0.None? <==> UnlabelledRange(kind, table).1.None?
    ensures kind == Immutable ==>
              (UnlabelledRange(kind, table).0.None? <==> forall row :: row in table ==> row.quality.Some?)
  {
    NoOldest(table);
    NoNewest(table);
  }

  /** The answer is the read of the table (as far as the read looks at it), with the locally
      written labels laid over it. */
  ghost predicate ReadsTable(table: Frame, warm: bool, lo: nat, hi: nat, labels: map<int, Label>,
                             start: int, end: Option<int>, window: Window, r: Result<Frame, StreamError>)
    requires hi <= |table|
  {
    var seen := Seen(table, warm, hi, end);
    && Ascending(seen) && Ascending(table)
    && r == WithLabels(Read(seen, WidenedLo(table, warm, lo, start), start, end, window), labels)
  }

  /** The rows of the requested interval proper. */
  ghost function SeenChunk(table: Frame, warm: bool, hi: nat, start: int, end: Option<int>): Frame
    requires hi <= |table| && Ascending(table)
  {
    LocTruncated(table, hi, start, end);
    Loc(Seen(table, warm, hi, end), Some(start), end)
  }

  /** What `_fetch_context` answers, and how far it pulls the window down. */
  ghost predicate ContextStart(table: Frame, oldLo: nat, lo: nat, start: int, window: Window,
                               r: Result<int, StreamError>)
    requires Ascending(table)
  {
    match window
    case NoWindow => true
    case Duration(d) =>
      var k := Before(table, start - d);
      lo <= k < |table| && r == Ok(table[k].time)
    case Count(n) =>
      var available := UpTo(table, start);
      if n == 0 then r == Ok(start)
      else if available == 0 then r == Err(IndexError)
      else
        var k := available - ContextRows(available, Behind(available, oldLo), n);
        lo <= k < |table| && r == Ok(table[k].time)
  }

  lemma CountIndex(u: nat, oldLo: nat, lo: nat, n: nat)
    requires oldLo <= u && n > 0
    requires lo == CountedLo(u, oldLo, n)
    ensures lo <= u && (lo == u <==> u == 0)
    ensures u > 0 ==> lo <= u - ContextRows(u, Behind(u, oldLo), n) == u - Min(n + 1, u - lo) < u
  {
  }

  /** Once the missing rows are fetched, the element counted from the end is the context start. */
  lemma CountStart(table: Frame, data: Frame, oldLo: nat, lo: nat, hi: nat, labels: map<int, Label>,
                   start: int, n: nat, u: nat, present: nat)
    requires Ascending(table) && Ascending(data) && Mirrors(table, data, lo, hi, labels)
    requires u == UpTo(table, start) && present == UpTo(data, start) == u - lo
    requires lo <= oldLo <= u && n > 0
    requires lo == CountedLo(u, oldLo, n)
    ensures ContextStart(table, oldLo, lo, start, Count(n),
                         if present == 0 then Err(IndexError) else Ok(data[present - Min(n + 1, present)].time))
  {
    CountIndex(u, oldLo, lo, n);
    if u > 0 {
      var k := u - Min(n + 1, u - lo);
      assert data[k - lo].time == table[k].time;
    }
  }

  function OldestUnlabelled(table: Frame): Option<int> {
    if table == [] then None
    else if table[0].quality.None? then Some(table[0].time)
    else OldestUnlabelled(table[1..])
  }

  function NewestUnlabelled(table: Frame): Option<int> {
    if table == [] then None
    else if table[|table| - 1].quality.None? then Some(table[|table| - 1].time)
    else NewestUnlabelled(table[..|table| - 1])
  }

  /** Only stored data can be unprocessed; products and local streams never are. */
  function UnlabelledRange(kind: Kind, table: Frame): (Option<int>, Option<int>) {
    if kind == Immutable then (OldestUnlabelled(table), NewestUnlabelled(table)) else (None, None)
  }

  /** The context is a number of rows, other than none. */
  predicate Counts(window: Window) {
    window.Count? && window.n > 0
  }

  /** The one way a read of rows fails: rows are to be counted back, and none is at or before the start. */
  predicate NoneToCount(data: Frame, start: int, end: Option<int>, window: Window)
    requires Ascending(data)
  {
    Counts(window) && Loc(data, Some(start), end) != [] && UpTo(data, start) == 0
  }

  lemma RangeKept(chunk: Frame, data: Frame, start: int, end: Option<int>)
    requires Ascending(data)
    requires forall row :: row in chunk ==> HasTime(data, row.time) && Within(row.time, Some(start), end)
    ensures forall row :: row in chunk ==>
              exists other :: other in Loc(data, Some(start), end) && other.time == row.time
    ensures chunk != [] ==> Loc(data, Some(start), end) != []
  {
    forall row | row in chunk ensures exists other :: other in Loc(data, Some(start), end) && other.time == row.time {
      var i :| 0 <= i < |data| && data[i].time == row.time;
      LocIsTheRange(data, Some(start), end, data[i]);
    }
    if chunk != [] { assert chunk[0] in chunk; }
  }

  /** The start that a read adds to those of the upload, if it found rows. */
  ghost function RangeStart(rows: Frame, start: int, end: Option<int>): set<int>
    requires Ascending(rows)
  {
    if Loc(rows, Some(start), end) == [] then {} else {start}
  }

  /** The times of all rows of the range are among those that must be sent. */
  ghost predicate RowsNoted(rows: Frame, start: int, end: Option<int>, times: set<int>)
    requires Ascending(rows)
  {
    forall row :: row in Loc(rows, Some(start), end) ==> row.time in times
  }

  /** The rows of the interval proper are the answer, if there are none or no context is asked for. */
  lemma ReadOfChunk(table: Frame, warm: bool, lo: nat, hi: nat, labels: map<int, Label>,
                    start: int, end: Option<int>, window: Window, chunk: Frame)
    requires hi <= |table| && Ascending(table) && Ascending(Seen(table, warm, hi, end))
    requires chunk == Overlay(Loc(Seen(table, warm, hi, end), Some(start), end), labels)
    ensures |SeenChunk(table, warm, hi, start, end)| == |chunk|
    ensures chunk == Overlay(SeenChunk(table, warm, hi, start, end), labels)
    ensures chunk == [] || window.NoWindow? ==> ReadsTable(table, warm, lo, hi, labels, start, end, window, Ok(chunk))
  {
  }

  /** The first query of a product has no form for an open end: it hands on a missing time, which the
      database does not take. */
  predicate Unanswerable(kind: Kind, cold: bool, end: Option<int>) {
    kind == Product && cold && end.None?
  }

  /** How much of an empty window was taken from the table makes no difference. */
  lemma SpanOfWindow(table: Frame, data0: Frame, lo0: nat, hi0: nat, data: Frame, lo: nat, hi: nat,
                     labels: map<int, Label>, start: int, end: Option<int>, window: Window,
                     r: Result<Frame, StreamError>)
    requires Ascending(table) && Ascending(data) && forall t :: HasTime(data0, t) ==> HasTime(data, t)
    requires Mirrors(table, data0, lo0, hi0, labels) && Mirrors(table, data, lo, hi, labels)
    requires data != [] ==>
               && hi == WidenedHi(table, data0 != [], hi0, end)
               && lo == var from := WidenedLo(table, data0 != [], lo0, start);
                        if Loc(data, Some(start), end) == [] then from else ContextLo(table, from, start, window)
    requires SeenChunk(table, data0 != [], hi0, start, end) == [] <==> Loc(data, Some(start), end) == []
    requires ReadsTable(table, data0 != [], lo0, hi0, labels, start, end, window, r)
    ensures var span := if data0 != [] then Span(lo0, hi0) else Span(0, 0);
            && ReadsSpan(table, span, labels, start, end, window, r)
            && SeenChunk(table, data0 != [], hi0, start, end) == SeenChunk(table, span.Warm(), span.hi, start, end)
            && SpanAfter(table, span, start, end, window) == if data != [] then Span(lo, hi) else Span(0, 0)
  {
    var from, to := WidenedLo(table, data0 != [], lo0, start), WidenedHi(table, data0 != [], hi0, end);
    SeenIs(table, data0 != [], hi0, start, end);
    if data0 != [] { assert HasTime(data0, data0[0].time); }
    assert data == [] ==> from >= to;
    assert data != [] ==> from < to;
  }

  lemma SeenIs(table: Frame, warm: bool, hi: nat, start: int, end: Option<int>)
    requires Ascending(table) && hi <= |table|
    ensures var to := if end.Some? then UpTo(table, end.value) else if warm then hi else |table|;
            SeenChunk(table, warm, hi, start, end) == Slice(table, Before(table, start), to)
  {
    LocTruncated(table, hi, start, end);
  }

  class Datastream {
    const name: string
    const kind: Kind
    const table: Frame
    var data: Frame
    var uploadPtr: Option<int>
    var unflagged: Option<(Option<int>, Option<int>)>

    // The cached window is rows lo..hi of the table, with `labels` laid over it, as long as the
    // stream `mirrors` the table (a product or local stream stops doing so once it is given data).
    ghost var mirrors: bool
    ghost var lo: nat
    ghost var hi: nat
    ghost var labels: map<int, Label>
    // starts of the non-empty reads that asked for a context window
    ghost var starts: set<int>
    // times those reads returned inside their requested interval
    ghost var inRange: set<int>
    // some read asked for no context window at all
    ghost var bareRead: bool

    ghost predicate Valid()
      reads this
    {
      && Ascending(table) && Ascending(data)
      && (kind == Immutable ==> mirrors)
      && (mirrors ==> Mirrors(table, data, lo, hi, labels))
      && IsLeast(uploadPtr, starts)
      && (kind == Immutable && !bareRead && data != [] ==> starts != {})
      && (kind == Immutable ==>
            forall t :: t in inRange ==> HasTime(data, t) && uploadPtr.Some? && uploadPtr.value <= t)
      && (unflagged.Some? ==> unflagged.value == UnlabelledRange(kind, table))
    }

    /** Which rows of the table are cached. */
    ghost function Cached(): Span
      reads this
    {
      if mirrors && data != [] then Span(lo, hi) else Span(0, 0)
    }

    constructor (name: string, kind: Kind, table: Frame)
      requires Ascending(table)
      ensures Valid() && this.name == name && this.kind == kind && this.table == table
      ensures mirrors && data == [] && labels == map[] && starts == {} && inRange == {} && !bareRead
    {
      this.name, this.kind, this.table := name, kind, table;
      data, uploadPtr, unflagged := [], None, None;
      mirrors, lo, hi, labels, starts, inRange, bareRead := true, 0, 0, map[], {}, {}, false;
    }

    /** Query the database and append: `_append(_fetch(start, end, limit))`. */
    method FetchInto(start: Option<int>, end: Option<int>, limit: Option<nat>)
      requires Ascending(table) && Ascending(data) && data != []
      requires mirrors ==>
                 && Mirrors(table, data, lo, hi, labels)
                 && QueryFrom(table, start, end, limit) <= hi
                 && QueryFrom(table, start, end, limit) <= HighIndex(table, end)
                 && lo <= HighIndex(table, end)
      modifies this`data, this`lo, this`hi
      ensures Ascending(data) && data != [] && LastTime(old(data)) <= LastTime(data)
      ensures forall t :: HasTime(old(data), t) ==> HasTime(data, t)
      ensures mirrors ==>
                && Mirrors(table, data, lo, hi, labels)
                && lo == Min(QueryFrom(table, start, end, limit), old(lo))
                && hi == Max(HighIndex(table, end), old(hi))
    {
      var fetched := Query(table, start, end, limit);
      QueryIsDistinct(table, start, end, limit);
      AllInOrder(data);
      AppendKeepsTimes(data, fetched);
      if mirrors {
        FetchWidens(table, data, lo, hi, labels, start, end, limit);
        lo, hi := Min(QueryFrom(table, start, end, limit), lo), Max(HighIndex(table, end), hi);
      }
      data := Append(data, fetched);
    }

    /** First read of an empty window. */
    method FetchCold(start: int, end: Option<int>)
      requires Valid() && data == []
      modifies this`data, this`lo, this`hi
      ensures Ascending(data)
      ensures data == Loc(table, Some(start), end)
      ensures mirrors ==> Mirrors(table, data, lo, hi, labels)
      ensures data != [] ==> lo == Before(table, start) && hi == HighIndex(table, end)
    {
      ColdQuery(table, start, end);
      if mirrors { EmptyWindow(table, lo, hi, labels); }
      data := SortIndex(Query(table, Some(start), end, None));
      lo, hi := Before(table, start), HighIndex(table, end);
      if lo > hi { lo, hi := 0, 0; }
    }

    method WidenStart(start: int)
      requires Ascending(table) && Ascending(data) && data != []
      requires mirrors ==> Mirrors(table, data, lo, hi, labels)
      modifies this`data, this`lo, this`hi
      ensures Ascending(data) && data != [] && LastTime(old(data)) <= LastTime(data)
      ensures forall t :: HasTime(old(data), t) ==> HasTime(data, t)
      ensures mirrors ==>
                && Mirrors(table, data, lo, hi, labels)
                && lo == Min(Before(table, start), old(lo)) && hi == old(hi)
                && LastTime(data) == LastTime(old(data))
    {
      if mirrors { HeadFetch(table, data, lo, hi, labels, start); }
      if start < data[0].time {
        FetchInto(Some(start), Some(data[0].time), None);
      }
    }

    method WidenEnd(end: int)
      requires Ascending(table) && Ascending(data) && data != []
      requires mirrors ==> Mirrors(table, data, lo, hi, labels) && LastTime(data) < end
      modifies this`data, this`lo, this`hi
      ensures Ascending(data) && data != []
      ensures forall t :: HasTime(old(data), t) ==> HasTime(data, t)
      ensures mirrors ==>
                && Mirrors(table, data, lo, hi, labels)
                && lo == old(lo) && hi == Max(UpTo(table, end), old(hi))
    {
      if mirrors { TailFetch(table, data, lo, hi, labels, end); }
      FetchInto(Some(LastTime(data)), Some(end), None);
    }

    /** Fetch what the interval needs at either end of a non-empty window. */
    method WidenWarm(start: int, end: Option<int>)
      requires Valid() && data != []
      modifies this`data, this`lo, this`hi
      ensures Ascending(data) && data != []
      ensures forall t :: HasTime(old(data), t) ==> HasTime(data, t)
      ensures mirrors ==>
                && Mirrors(table, data, lo, hi, labels)
                && lo == WidenedLo(table, true, old(lo), start)
                && hi == WidenedHi(table, true, old(hi), end)
    {
      var missingEnd := end.Some? && end.value > LastTime(data);
      WidenStart(start);
      if missingEnd {
        WidenEnd(end.value);
      } else if mirrors && end.Some? {
        TailFetch(table, data, lo, hi, labels, end.value);
      }
    }

    /** The fetching half of `get_data`: afterwards the window covers the interval, as far as the
        read looks at the table. */
    method Cover(start: int, end: Option<int>)
      requires Valid()
      modifies this`data, this`lo, this`hi
      ensures Ascending(data)
      ensures forall t :: HasTime(old(data), t) ==> HasTime(data, t)
      ensures mirrors ==> Mirrors(table, data, lo, hi, labels)
      ensures mirrors && data != [] ==>
                && lo == WidenedLo(table, old(data) != [], old(lo), start)
                && hi == WidenedHi(table, old(data) != [], old(hi), end)
                && (end.Some? ==> UpTo(table, end.value) <= hi)
                && Seen(table, true, hi, end) == Seen(table, old(data) != [], old(hi), end)
      ensures mirrors ==>
                var seen := Seen(table, old(data) != [], old(hi), end);
                && Ascending(seen)
                && Loc(data, Some(start), end) == Overlay(Loc(seen, Some(start), end), labels)
      ensures mirrors && old(data) == [] && data != [] ==> Loc(data, Some(start), end) != []
    {
      if data == [] {
        if mirrors { EmptyWindow(table, lo, hi, labels); }
        FetchCold(start, end);
        OverlayNothing(data);
        if mirrors && data != [] { AgreesWithTable(table, data, lo, hi, labels, start, end); }
        assert table[..|table|] == table;
      } else {
        WidenWarm(start, end);
        if mirrors { AgreesWithTable(table, data, lo, hi, labels, start, end); }
      }
    }

    /** Pull a duration of context in front of `start` into the window. */
    method DurationContext(start: int, d: nat) returns (first: int)
      requires Ascending(table) && Ascending(data) && data != [] && start <= LastTime(data)
      requires mirrors ==> Mirrors(table, data, lo, hi, labels) && lo <= Before(table, start)
      modifies this`data, this`lo, this`hi
      ensures Ascending(data) && data != []
      ensures forall t :: HasTime(old(data), t) ==> HasTime(data, t)
      ensures mirrors ==>
                && Mirrors(table, data, lo, hi, labels) && lo <= old(lo) && hi == old(hi)
                && lo == ContextLo(table, old(lo), start, Duration(d))
      ensures mirrors ==> ContextStart(table, old(lo), lo, start, Duration(d), Ok(first))
    {
      var presentStart := data[0].time;
      var newStart := start - d;
      if mirrors { HeadFetch(table, data, lo, hi, labels, newStart); }
      if newStart < presentStart {
        FetchInto(Some(newStart), Some(presentStart), None);
      }
      if mirrors { FirstFrom(table, data, lo, hi, labels, newStart); }
      InsertionPoints(data, newStart);
      first := data[Before(data, newStart)].time;
    }

    /** Pull `n` rows of context in front of `start` into the window. */
    method CountContext(start: int, n: nat) returns (r: Result<int, StreamError>)
      requires Ascending(table) && Ascending(data) && data != [] && start <= LastTime(data)
      requires n > 0
      requires mirrors ==> Mirrors(table, data, lo, hi, labels) && lo <= Before(table, start)
      modifies this`data, this`lo, this`hi
      ensures Ascending(data) && data != []
      ensures forall t :: HasTime(old(data), t) ==> HasTime(data, t)
      ensures mirrors ==>
                && Mirrors(table, data, lo, hi, labels) && lo <= old(lo) && hi == old(hi)
                && lo == ContextLo(table, old(lo), start, Count(n))
      ensures mirrors ==> ContextStart(table, old(lo), lo, start, Count(n), r)
      ensures (r.Err? <==> UpTo(data, start) == 0) && (r.Err? ==> r.error == IndexError)
    {
      ghost var lo0 := lo;
      FetchCounted(start, n);
      var present := UpTo(data, start);
      if mirrors {
        RowsUpTo(table, data, lo, hi, labels, start);
        CountStart(table, data, lo0, lo, hi, labels, start, n, UpTo(table, start), present);
      }
      // an empty index has no element counted from its end
      r := if present == 0 then Err(IndexError) else Ok(data[present - Min(n + 1, present)].time);
    }

    /** Fetch what is missing to `n` rows in front of `start`. */
    method FetchCounted(start: int, n: nat)
      requires Ascending(table) && Ascending(data) && data != [] && start <= LastTime(data)
      requires n > 0
      requires mirrors ==> Mirrors(table, data, lo, hi, labels) && lo <= Before(table, start)
      modifies this`data, this`lo, this`hi
      ensures Ascending(data) && data != [] && LastTime(old(data)) <= LastTime(data)
      ensures forall t :: HasTime(old(data), t) ==> HasTime(data, t)
      ensures mirrors ==>
                && Mirrors(table, data, lo, hi, labels) && lo <= old(lo) && hi == old(hi)
                && lo == CountedLo(UpTo(table, start), old(lo), n)
    {
      var missing := n + 1 - UpTo(data, start);
      if mirrors {
        RowsUpTo(table, data, lo, hi, labels, start);
        CountFetch(table, lo, start, n);
      }
      if missing > 1 {
        FetchInto(None, Some(data[0].time), Some(missing));
      }
    }

    /** Fetches the context in front of `start`; answers its first time. */
    method FetchContext(start: int, window: Window) returns (r: Result<int, StreamError>)
      requires Ascending(table) && Ascending(data) && IsLeast(uploadPtr, starts)
      requires !window.NoWindow? && data != [] && start <= LastTime(data)
      requires mirrors ==> Mirrors(table, data, lo, hi, labels) && lo <= Before(table, start)
      modifies this`data, this`lo, this`hi, this`uploadPtr, this`starts
      ensures Ascending(data) && data != []
      ensures forall t :: HasTime(old(data), t) ==> HasTime(data, t)
      ensures starts == old(starts) + {start} && IsLeast(uploadPtr, starts)
      ensures mirrors ==>
                && Mirrors(table, data, lo, hi, labels) && lo <= old(lo) && hi == old(hi)
                && lo == ContextLo(table, old(lo), start, window)
      ensures mirrors ==> ContextStart(table, old(lo), lo, start, window, r)
      ensures (r.Err? <==> Counts(window) && UpTo(data, start) == 0) && (r.Err? ==> r.error == IndexError)
    {
      if uploadPtr.None? { uploadPtr := Some(start); }
      uploadPtr := Some(if start < uploadPtr.value then start else uploadPtr.value);
      starts := starts + {start};
      match window
      case Duration(d) =>
        var first := DurationContext(start, d);
        r := Ok(first);
      case Count(n) =>
        if n == 0 {
          r := Ok(start);
        } else {
          r := CountContext(start, n);
        }
    }

    /** `get_data` of a stored stream with a given start. */
    method GetStored(start: int, end: Option<int>, window: Window) returns (r: Result<Frame, StreamError>)
      requires Valid() && kind != Local
      modifies this`data, this`lo, this`hi, this`uploadPtr, this`starts, this`inRange, this`bareRead
      ensures Valid()
      ensures mirrors ==> ReadsTable(table, old(data) != [], old(lo), old(hi), labels, start, end, window, r)
      ensures mirrors && data != [] ==>
                && hi == WidenedHi(table, old(data) != [], old(hi), end)
                && lo == var from := WidenedLo(table, old(data) != [], old(lo), start);
                         if Loc(data, Some(start), end) == [] then from else ContextLo(table, from, start, window)
      ensures mirrors ==>
                var chunk := SeenChunk(table, old(data) != [], old(hi), start, end);
                && (chunk == [] <==> Loc(data, Some(start), end) == [])
                && (!window.NoWindow? ==> forall row :: row in chunk ==> row.time in inRange)
      ensures !window.NoWindow? ==>
                starts == old(starts) + RangeStart(data, start, end) && RowsNoted(data, start, end, inRange)
      ensures bareRead == (old(bareRead) || window.NoWindow?)
      ensures old(starts) <= starts && old(inRange) <= inRange
      ensures forall t :: HasTime(old(data), t) ==> HasTime(data, t)
      ensures r.Ok? ==> OnlyTimesOf(data, r.value)
      ensures (r.Err? <==> NoneToCount(data, start, end, window)) && (r.Err? ==> r.error == IndexError)
    {
      Cover(start, end);
      r := Answer(start, end, window, old(data) != [], old(lo), old(hi));
    }

    /** The answering half of `get_data`, once the window covers the interval. `warm`, `lo0` and `hi0` tell
        what it was before. */
    method Answer(start: int, end: Option<int>, window: Window, ghost warm: bool, ghost lo0: nat, ghost hi0: nat)
        returns (r: Result<Frame, StreamError>)
      requires Ascending(table) && Ascending(data) && IsLeast(uploadPtr, starts)
      requires kind == Immutable ==> mirrors
      requires mirrors ==> Mirrors(table, data, lo, hi, labels) && hi0 <= |table|
      requires mirrors && data != [] ==>
                 && lo == WidenedLo(table, warm, lo0, start) && (end.Some? ==> UpTo(table, end.value) <= hi)
                 && Seen(table, true, hi, end) == Seen(table, warm, hi0, end)
      requires mirrors ==>
                 var seen := Seen(table, warm, hi0, end);
                 Ascending(seen) && Loc(data, Some(start), end) == Overlay(Loc(seen, Some(start), end), labels)
      requires kind == Immutable ==>
                 forall t :: t in inRange ==> HasTime(data, t) && uploadPtr.Some? && uploadPtr.value <= t
      modifies this`data, this`lo, this`hi, this`uploadPtr, this`starts, this`inRange, this`bareRead
      ensures Ascending(data) && IsLeast(uploadPtr, starts)
      ensures mirrors ==>
                && Mirrors(table, data, lo, hi, labels) && hi == old(hi)
                && lo == if Loc(old(data), Some(start), end) == [] then old(lo)
                         else ContextLo(table, old(lo), start, window)
      ensures kind == Immutable ==>
                forall t :: t in inRange ==> HasTime(data, t) && uploadPtr.Some? && uploadPtr.value <= t
      ensures mirrors ==> ReadsTable(table, warm, lo0, hi0, labels, start, end, window, r)
      ensures mirrors ==>
                var chunk := SeenChunk(table, warm, hi0, start, end);
                && (chunk == [] <==> Loc(data, Some(start), end) == [])
                && (!window.NoWindow? ==> forall row :: row in chunk ==> row.time in inRange)
      ensures !window.NoWindow? ==>
                starts == old(starts) + RangeStart(data, start, end) && RowsNoted(data, start, end, inRange)
      ensures if Loc(old(data), Some(start), end) == [] then data == old(data) else window.NoWindow? || start in starts
      ensures bareRead == (old(bareRead) || window.NoWindow?)
      ensures old(starts) <= starts && old(inRange) <= inRange
      ensures forall t :: HasTime(old(data), t) ==> HasTime(data, t)
      ensures r.Ok? ==> OnlyTimesOf(data, r.value)
      ensures (r.Err? <==> NoneToCount(data, start, end, window)) && (r.Err? ==> r.error == IndexError)
    {
      var chunk := Loc(data, Some(start), end);
      if window.NoWindow? { bareRead := true; }
      if mirrors { ReadOfChunk(table, warm, lo0, hi0, labels, start, end, window, chunk); }
      if chunk == [] || window.NoWindow? {
        LocTimes(data, Some(start), end);
        return Ok(chunk);
      }
      r := ReadContext(start, end, window);
    }

    /** `get_data`: the rows of the interval with their context, fetched as needed. */
    method GetData(start: Option<int>, end: Option<int>, window: Window)
        returns (r: Result<Frame, StreamError>)
      requires Valid()
      modifies this`data, this`lo, this`hi, this`uploadPtr, this`starts, this`inRange, this`bareRead
      ensures Valid()
      ensures kind == Local ==> unchanged(this) && r == LocalRead(data, start, end, window)
      ensures kind != Local && start.None? ==> unchanged(this) && r == Ok([])
      ensures start.Some? && Unanswerable(kind, old(data) == [], end) ==> unchanged(this) && r == Err(NotATime)
      ensures r == Err(NotATime) <==> kind == Product && old(data) == [] && start.Some? && end.None?
      ensures kind == Local ==> LocalAnswers(data, start, end, window, r)
      ensures mirrors && kind != Local && start.Some? && r != Err(NotATime) ==>
                && old(Cached()).In(table)
                && AnswersPlainly(table, Reach(table, old(Cached()), end), labels, start.value, end, window, r)
      ensures mirrors && kind != Local && start.Some? && !Unanswerable(kind, old(data) == [], end) ==>
                && ReadsSpan(table, old(Cached()), labels, start.value, end, window, r)
                && Cached() == SpanAfter(table, old(Cached()), start.value, end, window)
                && var chunk := SeenChunk(table, old(Cached()).Warm(), old(Cached()).hi, start.value, end);
                   && (chunk == [] <==> Loc(data, start, end) == [])
                   && (!window.NoWindow? ==> forall row :: row in chunk ==> row.time in inRange)
      ensures kind != Local && start.Some? && !window.NoWindow? ==>
                && starts == old(starts) + RangeStart(data, start.value, end)
                && RowsNoted(data, start.value, end, inRange)
      ensures kind != Local && start.Some? && !Unanswerable(kind, old(data) == [], end) ==>
                && (r.Err? <==> NoneToCount(data, start.value, end, window)) && (r.Err? ==> r.error == IndexError)
      ensures bareRead == (old(bareRead) ||
                (kind != Local && start.Some? && window.NoWindow? && !Unanswerable(kind, old(data) == [], end)))
      ensures old(starts) <= starts && old(inRange) <= inRange
      ensures forall t :: HasTime(old(data), t) ==> HasTime(data, t)
      ensures kind != Local && r.Ok? ==> OnlyTimesOf(data, r.value)
    {
      if kind == Local {
        r := LocalRead(data, start, end, window);
        LocalReadIsPlain(data, start, end, window);
      } else if start.None? {
        r := Ok([]);
      } else if Unanswerable(kind, data == [], end) {
        r := Err(NotATime);
      } else {
        r := GetStored(start.value, end, window);
        if mirrors {
          SpanOfWindow(table, old(data), old(lo), old(hi), data, lo, hi, labels, start.value, end, window, r);
          ReadIsPlain(table, old(Cached()), labels, start.value, end, window, r);
        }
      }
    }

    /** The rest of `get_data`, once the interval proper is known to hold rows. */
    method ReadContext(start: int, end: Option<int>, window: Window) returns (r: Result<Frame, StreamError>)
      requires Ascending(table) && Ascending(data) && IsLeast(uploadPtr, starts)
      requires !window.NoWindow? && Loc(data, Some(start), end) != []
      requires mirrors ==> Mirrors(table, data, lo, hi, labels) && lo <= Before(table, start)
      requires mirrors && end.Some? ==> UpTo(table, end.value) <= hi
      requires kind == Immutable ==>
                 forall t :: t in inRange ==> HasTime(data, t) && uploadPtr.Some? && uploadPtr.value <= t
      modifies this`data, this`lo, this`hi, this`uploadPtr, this`starts, this`inRange
      ensures Ascending(data) && data != []
      ensures mirrors ==>
                && Mirrors(table, data, lo, hi, labels) && hi == old(hi)
                && lo == ContextLo(table, old(lo), start, window)
      ensures forall t :: HasTime(old(data), t) ==> HasTime(data, t)
      ensures starts == old(starts) + {start} && IsLeast(uploadPtr, starts)
      ensures old(inRange) <= inRange && forall row :: row in Loc(old(data), Some(start), end) ==> row.time in inRange
      ensures Loc(data, Some(start), end) != [] && RowsNoted(data, start, end, inRange)
      ensures kind == Immutable ==>
                forall t :: t in inRange ==> HasTime(data, t) && uploadPtr.Some? && uploadPtr.value <= t
      ensures mirrors ==>
                var seen := Seen(table, true, old(hi), end);
                && Ascending(seen)
                && r == WithLabels(Read(seen, old(lo), start, end, window), labels)
      ensures r.Ok? ==> OnlyTimesOf(data, r.value)
      ensures (r.Err? <==> NoneToCount(data, start, end, window)) && (r.Err? ==> r.error == IndexError)
    {
      var chunk := Loc(data, Some(start), end);
      ChunkReaches(data, start, end);
      ChunkTimes(data, start, end);
      if mirrors {
        AgreesWithTable(table, data, lo, hi, labels, start, end);
        ChunkInWindow(table, data, lo, hi, labels, start, end);
      }
      var contextStart := FetchContext(start, window);
      NoteRange(chunk, start, end);
      if mirrors { ContextReadIs(table, data, old(lo), lo, hi, labels, start, end, window, contextStart); }
      match contextStart
      case Err(e) => r := Err(e);
      case Ok(first) =>
        LocTimes(data, Some(first), end);
        r := Ok(Loc(data, Some(first), end));
    }

    /** Remember the rows of the interval as rows to be sent. `chunk` are those it had before. */
    ghost method NoteRange(chunk: Frame, start: int, end: Option<int>)
      requires Ascending(data) && chunk != []
      requires forall row :: row in chunk ==> HasTime(data, row.time) && Within(row.time, Some(start), end)
      modifies this`inRange
      ensures Loc(data, Some(start), end) != [] && RowsNoted(data, start, end, inRange)
      ensures old(inRange) <= inRange && forall row :: row in chunk ==> row.time in inRange
      ensures forall t :: t in inRange ==> t in old(inRange) || (HasTime(data, t) && start <= t)
    {
      RangeKept(chunk, data, start, end);
      ChunkTimes(data, start, end);
      inRange := inRange + set row | row in Loc(data, Some(start), end) :: row.time;
    }

    /** Lay quality labels over the cached rows; labels for other times are dropped. */
    method UpdateQualityLabels(newer: map<int, Label>)
      requires Valid()
      modifies this`data, this`labels
      ensures Valid()
      ensures data == Overlay(old(data), newer) && |data| == |old(data)|
      ensures forall i :: 0 <= i < |data| ==> ShownAs(old(data)[i], data[i], newer)
      ensures labels == old(labels) + map t | t in newer && HasTime(old(data), t) :: newer[t]
    {
      ghost var kept := map t | t in newer && HasTime(data, t) :: newer[t];
      RelabelKeepsTimes(data, newer);
      if mirrors { RelabelMirrors(table, data, lo, hi, labels, newer); }
      data := Overlay(data, newer);
      labels := labels + kept;
    }

    /** New data for a product or a temporary variable; from here on it no longer mirrors the table. */
    method SetData(rows: Frame)
      requires Valid() && kind != Immutable && Ascending(rows)
      modifies this`data, this`mirrors
      ensures Valid() && data == rows && !mirrors
    {
      data := rows;
      mirrors := false;
    }

    /** Earliest and latest stored row without a quality label; asked once and remembered. */
    method GetUnprocessedRange() returns (r: (Option<int>, Option<int>))
      requires Valid()
      modifies this`unflagged
      ensures Valid() && r == UnlabelledRange(kind, table)
      ensures if kind == Immutable then SpansUnlabelled(table, r) else r == (None, None)
    {
      OldestIs(table);
      NewestIs(table);
      if kind != Immutable { return (None, None); }
      if unflagged.None? {
        unflagged := Some((OldestUnlabelled(table), NewestUnlabelled(table)));
      }
      r := unflagged.value;
    }

    /** The rows whose labels go to the database. */
    method Upload() returns (r: Result<Frame, StreamError>)
      requires Valid()
      ensures kind == Local <==> r.Err?
      ensures r.Ok? ==> Ascending(r.value)
      ensures r.Ok? ==> forall row :: row in r.value <==>
                row in data && (starts == {} || exists s :: s in starts && s <= row.time)
      ensures r.Ok? && kind == Immutable ==> forall t :: t in inRange ==> HasTime(r.value, t)
    {
      if kind == Local { return Err(NeverUploaded); }
      UploadSelection(data, uploadPtr, starts);
      r := Ok(Loc(data, uploadPtr, None));
    }
  }

  /** All rows carry times of `data`. */
  ghost predicate OnlyTimesOf(data: Frame, rows: Frame) {
    forall row :: row in rows ==> HasTime(data, row.time)
  }

  lemma LocTimes(data: Frame, a: Option<int>, b: Option<int>)
    requires Ascending(data)
    ensures OnlyTimesOf(data, Loc(data, a, b))
  {
    forall row | row in Loc(data, a, b) ensures HasTime(data, row.time) {
      LocIsTheRange(data, a, b, row);
      var i :| 0 <= i < |data| && data[i] == row;
    }
  }

  lemma RelabelKeepsTimes(data: Frame, newer: map<int, Label>)
    requires Ascending(data)
    ensures Ascending(Overlay(data, newer))
    ensures forall t :: HasTime(Overlay(data, newer), t) <==> HasTime(data, t)
  {
    AllInOrder(data);
    AllInOrder(Overlay(data, newer));
  }

  lemma RelabelMirrors(table: Frame, data: Frame, lo: nat, hi: nat, labels: map<int, Label>, newer: map<int, Label>)
    requires Mirrors(table, data, lo, hi, labels)
    ensures Mirrors(table, Overlay(data, newer), lo, hi,
                    labels + map t | t in newer && HasTime(data, t) :: newer[t])
  {
    var rows := table[lo..hi];
    assert forall t :: HasTime(data, t) <==> HasTime(rows, t) by {
      forall t ensures HasTime(data, t) <==> HasTime(rows, t) {
        SameTimes(rows, labels, t);
      }
    }
    OverlayTwice(rows, labels, newer);
    assert (map t | t in newer && HasTime(data, t) :: newer[t]) == map t | t in newer && HasTime(rows, t) :: newer[t];
  }

  lemma SameTimes(rows: Frame, labels: map<int, Label>, t: int)
    ensures HasTime(Overlay(rows, labels), t) <==> HasTime(rows, t)
  {
    assert forall i :: 0 <= i < |rows| ==> Overlay(rows, labels)[i].time == rows[i].time;
  }

  /** The upload starts at the least start of the non-empty reads. */
  lemma UploadSelection(data: Frame, ptr: Option<int>, starts: set<int>)
    requires Ascending(data) && IsLeast(ptr, starts)
    ensures forall row :: row in Loc(data, ptr, None) <==>
              row in data && (starts == {} || exists s :: s in starts && s <= row.time)
    ensures ptr.Some? ==> forall t :: HasTime(data, t) && ptr.value <= t ==> HasTime(Loc(data, ptr, None), t)
  {
    forall row
      ensures row in Loc(data, ptr, None) <==> row in data && (starts == {} || exists s :: s in starts && s <= row.time)
    {
      LocIsTheRange(data, ptr, None, row);
    }
    if ptr.Some? {
      forall t | HasTime(data, t) && ptr.value <= t ensures HasTime(Loc(data, ptr, None), t) {
        var i :| 0 <= i < |data| && data[i].time == t;
        LocIsTheRange(data, ptr, None, data[i]);
        assert data[i] in Loc(data, ptr, None);
      }
    }
  }

  // ---------------------------------------------------------------- what the reads promise

  /** The row is the stored one, with the last local label if there is one. */
  ghost predicate ShownAs(stored: Row, row: Row, labels: map<int, Label>) {
    && row.time == stored.time && row.data == stored.data && row.streamId == stored.streamId
    && row.quality == if stored.time in labels then labels[stored.time] else stored.quality
  }

  /** Some row looked at lies in the interval. */
  ghost predicate SomeWithin(table: Frame, reach: nat, start: int, end: Option<int>)
    requires reach <= |table|
  {
    exists i :: 0 <= i < reach && Within(table[i].time, Some(start), end)
  }

  /** Where the rows of an answer may begin: at the start, or as much earlier as the context says. Of a counted
      context, how far that is depends on the rows. */
  predicate MayShow(t: int, start: int, end: Option<int>, window: Window) {
    && (end.Some? ==> t <= end.value)
    && match window
       case NoWindow => start <= t
       case Duration(d) => start - d <= t
       case Count(n) => n > 0 || start <= t
  }

  /** No row is answered but stored ones that may be shown. */
  ghost predicate OnlyShown(table: Frame, reach: nat, labels: map<int, Label>, start: int, end: Option<int>,
                            window: Window, rows: Frame)
    requires reach <= |table|
  {
    forall row :: row in rows ==>
      exists i :: 0 <= i < reach && ShownAs(table[i], row, labels) && MayShow(row.time, start, end, window)
  }

  /** Every stored row from time `from` to the end of the interval is answered. */
  ghost predicate AllShown(table: Frame, reach: nat, from: int, end: Option<int>, rows: Frame)
    requires reach <= |table|
  {
    forall i :: 0 <= i < reach && Within(table[i].time, Some(from), end) ==> HasTime(rows, table[i].time)
  }

  /** Behind a row that is answered, all up to the end of the interval are. */
  ghost predicate NoGap(table: Frame, reach: nat, end: Option<int>, rows: Frame)
    requires reach <= |table|
  {
    forall i, j :: 0 <= i < j < reach && HasTime(rows, table[i].time) && (end.Some? ==> table[j].time <= end.value) ==>
      HasTime(rows, table[j].time)
  }

  /** What a read answers, row by row, if it looks at the first `reach` rows. Without rows in the interval, it is
      nothing. Otherwise it has, in order of time, every stored row of the interval, none that may not be shown,
      and no gap; with a duration, all that may be shown. */
  ghost predicate AnswerShows(table: Frame, reach: nat, labels: map<int, Label>, start: int, end: Option<int>,
                              window: Window, rows: Frame)
    requires reach <= |table|
  {
    if !SomeWithin(table, reach, start, end) then rows == []
    else
      && Ascending(rows) && OnlyShown(table, reach, labels, start, end, window, rows)
      && AllShown(table, reach, start, end, rows)
      && NoGap(table, reach, end, rows)
      && (window.Duration? ==> AllShown(table, reach, start - window.d, end, rows))
  }

  /** How many rows of the table a read looks at. */
  function Reach(table: Frame, span: Span, end: Option<int>): nat {
    if end.None? && span.Warm() then span.hi else |table|
  }

  lemma RunOnlyShows(table: Frame, reach: nat, labels: map<int, Label>, start: int, end: Option<int>,
                     window: Window, from: nat, to: nat)
    requires from <= to <= reach <= |table|
    requires forall i :: from <= i < to ==> MayShow(table[i].time, start, end, window)
    ensures OnlyShown(table, reach, labels, start, end, window, Overlay(table[from..to], labels))
  {
    var rows := Overlay(table[from..to], labels);
    forall row | row in rows
      ensures exists i :: 0 <= i < reach && ShownAs(table[i], row, labels) && MayShow(row.time, start, end, window)
    {
      var k :| 0 <= k < |rows| && rows[k] == row;
      var i := from + k;
      assert ShownAs(table[i], row, labels) && MayShow(table[i].time, start, end, window);
    }
  }

  /** No row from time `t` on lies in front of row `from`. */
  ghost predicate BeginsAt(table: Frame, reach: nat, t: int, from: nat)
    requires reach <= |table|
  {
    forall i :: 0 <= i < reach && t <= table[i].time ==> from <= i
  }

  /** The rows up to the end of the interval are those in front of row `to`. */
  ghost predicate EndsAt(table: Frame, reach: nat, end: Option<int>, to: nat)
    requires reach <= |table|
  {
    forall i :: 0 <= i < reach ==> (i < to <==> (end.Some? ==> table[i].time <= end.value))
  }

  lemma RunAllShows(table: Frame, reach: nat, labels: map<int, Label>, t: int, end: Option<int>, from: nat, to: nat)
    requires from <= to <= reach <= |table| && BeginsAt(table, reach, t, from) && EndsAt(table, reach, end, to)
    ensures AllShown(table, reach, t, end, Overlay(table[from..to], labels))
  {
    var rows := Overlay(table[from..to], labels);
    forall i | 0 <= i < reach && Within(table[i].time, Some(t), end) ensures HasTime(rows, table[i].time) {
      assert rows[i - from].time == table[i].time;
    }
  }

  /** The rows `from..to` of the table, if `to` is where the interval ends. */
  lemma RunShows(table: Frame, reach: nat, labels: map<int, Label>, start: int, end: Option<int>, window: Window,
                 from: nat, to: nat)
    requires Ascending(table) && from <= to <= reach <= |table|
    requires BeginsAt(table, reach, start, from) && EndsAt(table, reach, end, to)
    requires forall i :: from <= i < to ==> MayShow(table[i].time, start, end, window)
    requires window.Duration? ==> BeginsAt(table, reach, start - window.d, from)
    requires SomeWithin(table, reach, start, end)
    ensures AnswerShows(table, reach, labels, start, end, window, Overlay(table[from..to], labels))
  {
    WindowAscends(table, from, to, labels);
    RunOnlyShows(table, reach, labels, start, end, window, from, to);
    RunAllShows(table, reach, labels, start, end, from, to);
    if window.Duration? { RunAllShows(table, reach, labels, start - window.d, end, from, to); }
    RunHasNoGap(table, reach, labels, end, from, to);
  }

  lemma RunHasNoGap(table: Frame, reach: nat, labels: map<int, Label>, end: Option<int>, from: nat, to: nat)
    requires Ascending(table) && from <= to <= reach <= |table| && EndsAt(table, reach, end, to)
    ensures NoGap(table, reach, end, Overlay(table[from..to], labels))
  {
    var rows := Overlay(table[from..to], labels);
    forall i, j | 0 <= i < j < reach && HasTime(rows, table[i].time) && (end.Some? ==> table[j].time <= end.value)
      ensures HasTime(rows, table[j].time)
    {
      var k :| 0 <= k < |rows| && rows[k].time == table[i].time;
      SameTimeSameRow(table, from + k, i);
      assert table[j] in table && j < to;
      assert rows[j - from].time == table[j].time;
    }
  }

  lemma SameTimeSameRow(table: Frame, i: nat, j: nat)
    requires Ascending(table) && i < |table| && j < |table| && table[i].time == table[j].time
    ensures i == j
  {
    AllInOrder(table);
  }

  lemma PrefixShows(table: Frame, reach: nat, labels: map<int, Label>, start: int, end: Option<int>, window: Window,
                    rows: Frame)
    requires reach <= |table| && AnswerShows(table[..reach], reach, labels, start, end, window, rows)
    ensures AnswerShows(table, reach, labels, start, end, window, rows)
  {
    assert forall i :: 0 <= i < reach ==> table[..reach][i] == table[i];
    if SomeWithin(table, reach, start, end) {
      var i :| 0 <= i < reach && Within(table[i].time, Some(start), end);
      assert Within(table[..reach][i].time, Some(start), end);
    }
  }

  /** Every answer of a stored stream, in these terms. */
  lemma ReadShows(table: Frame, span: Span, labels: map<int, Label>, start: int, end: Option<int>, window: Window,
                  r: Result<Frame, StreamError>)
    requires ReadsSpan(table, span, labels, start, end, window, r) && r.Ok?
    ensures AnswerShows(table, Reach(table, span, end), labels, start, end, window, r.value)
  {
    var reach, seen := Reach(table, span, end), Seen(table, span.Warm(), span.hi, end);
    assert seen == table[..reach];
    SeenShows(seen, WidenedLo(table, span.Warm(), span.lo, start), labels, start, end, window);
    PrefixShows(table, reach, labels, start, end, window, r.value);
  }

  lemma SeenShows(seen: Frame, lo: nat, labels: map<int, Label>, start: int, end: Option<int>, window: Window)
    requires Ascending(seen) && Read(seen, lo, start, end, window).Ok?
    ensures AnswerShows(seen, |seen|, labels, start, end, window,
                        Overlay(Read(seen, lo, start, end, window).value, labels))
  {
    var a, b := Before(seen, start), HighIndex(seen, end);
    InsertionPoints(seen, start);
    if end.Some? { InsertionPoints(seen, end.value); }
    if a < b {
      assert Within(seen[a].time, Some(start), end);
      var from := ShownFrom(seen, lo, start, end, window);
      RunShows(seen, |seen|, labels, start, end, window, from, b);
    }
  }

  /** Rows are to be counted back from the start, rows are asked for, and none is at or before it. */
  ghost predicate NothingBefore(table: Frame, reach: nat, start: int, end: Option<int>, window: Window)
    requires reach <= |table|
  {
    && window.Count? && window.n > 0 && SomeWithin(table, reach, start, end)
    && forall i :: 0 <= i < reach ==> start < table[i].time
  }

  /** The answer of a stored stream, failures included. */
  ghost predicate AnswersPlainly(table: Frame, reach: nat, labels: map<int, Label>, start: int, end: Option<int>,
                                 window: Window, r: Result<Frame, StreamError>)
    requires reach <= |table|
  {
    if NothingBefore(table, reach, start, end, window) then r == Err(IndexError)
    else r.Ok? && AnswerShows(table, reach, labels, start, end, window, r.value)
  }

  lemma ReadIsPlain(table: Frame, span: Span, labels: map<int, Label>, start: int, end: Option<int>, window: Window,
                    r: Result<Frame, StreamError>)
    requires ReadsSpan(table, span, labels, start, end, window, r)
    ensures AnswersPlainly(table, Reach(table, span, end), labels, start, end, window, r)
  {
    var reach, seen := Reach(table, span, end), Seen(table, span.Warm(), span.hi, end);
    assert seen == table[..reach];
    ReadFailsPlainly(seen, WidenedLo(table, span.Warm(), span.lo, start), start, end, window);
    assert forall i :: 0 <= i < reach ==> seen[i] == table[i];
    SameWithin(table, reach, start, end);
    if r.Ok? { ReadShows(table, span, labels, start, end, window, r); }
  }

  lemma SameWithin(table: Frame, reach: nat, start: int, end: Option<int>)
    requires reach <= |table|
    ensures SomeWithin(table[..reach], reach, start, end) <==> SomeWithin(table, reach, start, end)
  {
    if SomeWithin(table, reach, start, end) {
      var i :| 0 <= i < reach && Within(table[i].time, Some(start), end);
      assert Within(table[..reach][i].time, Some(start), end);
    }
  }

  lemma ReadFailsPlainly(seen: Frame, lo: nat, start: int, end: Option<int>, window: Window)
    requires Ascending(seen)
    ensures var r := Read(seen, lo, start, end, window);
            && (r.Err? <==> NothingBefore(seen, |seen|, start, end, window))
            && (r.Err? ==> r.error == IndexError)
  {
    var a, b := Before(seen, start), HighIndex(seen, end);
    InsertionPoints(seen, start);
    if end.Some? { InsertionPoints(seen, end.value); }
    if a < b { assert Within(seen[a].time, Some(start), end); }
    if UpTo(seen, start) > 0 { assert seen[0].time <= start; }
  }

  /** Where an answer begins. */
  lemma ShownFrom(seen: Frame, lo: nat, start: int, end: Option<int>, window: Window) returns (from: nat)
    requires Ascending(seen) && Before(seen, start) < HighIndex(seen, end)
    requires Read(seen, lo, start, end, window).Ok?
    ensures from <= Before(seen, start)
    ensures Read(seen, lo, start, end, window).value == seen[from..HighIndex(seen, end)]
    ensures window.NoWindow? || window == Count(0) ==> forall i :: from <= i < |seen| ==> start <= seen[i].time
    ensures window.Duration? ==> forall i :: 0 <= i < |seen| ==> (from <= i <==> start - window.d <= seen[i].time)
  {
    InsertionPoints(seen, start);
    match window
    case NoWindow => from := Before(seen, start);
    case Duration(d) =>
      InsertionPoints(seen, start - d);
      from := Before(seen, start - d);
    case Count(n) =>
      var u := UpTo(seen, start);
      from := if n == 0 then Before(seen, start) else u - ContextRows(u, Behind(u, lo), n);
  }

  /** The window has no holes: between its ends it holds every stored row, as stored except for
      the quality label, which is the last one written locally if there is one. */
  lemma NoHoles(table: Frame, data: Frame, lo: nat, hi: nat, labels: map<int, Label>, row: Row)
    requires Ascending(table) && Mirrors(table, data, lo, hi, labels) && data != []
    ensures row in table && data[0].time <= row.time <= LastTime(data) ==> OverlayRow(row, labels) in data
    ensures row in data ==> exists stored :: stored in table && row == OverlayRow(stored, labels)
  {
    AllInOrder(table);
    if row in table && data[0].time <= row.time <= LastTime(data) {
      var i :| 0 <= i < |table| && table[i] == row;
      assert lo <= i < hi;
      assert data[i - lo] == OverlayRow(row, labels);
    }
    if row in data {
      var i :| 0 <= i < |data| && data[i] == row;
      assert table[lo + i] in table && row == OverlayRow(table[lo + i], labels);
    }
  }

  /** A duration read returns exactly the stored rows of `[start - d, end]`, provided some stored
      row lies in `[start, end]`, and nothing otherwise; the cached window plays no part. */
  lemma DurationReadIsExact(table: Frame, lo: nat, start: int, end: int, d: nat, row: Row)
    requires Ascending(table)
    ensures var r := Read(table, lo, start, Some(end), Duration(d));
            && r.Ok?
            && (row in r.value <==>
                  && row in table && start - d <= row.time <= end
                  && exists inside :: inside in table && start <= inside.time <= end)
  {
    RangeHasRows(table, start, end);
    LocIsTheRange(table, Some(start - d), Some(end), row);
  }

  lemma RangeHasRows(table: Frame, start: int, end: int)
    requires Ascending(table)
    ensures Loc(table, Some(start), Some(end)) != [] <==> exists row :: row in table && start <= row.time <= end
  {
    var chunk := Loc(table, Some(start), Some(end));
    forall row ensures row in chunk <==> row in table && start <= row.time <= end {
      LocIsTheRange(table, Some(start), Some(end), row);
    }
    if chunk != [] { assert chunk[0] in chunk; }
  }

  /** A counted read is an unbroken run of stored rows up to `end`; its part at or before `start`
      has at least `min(n, available)` and at most `n + 1` rows. It fails exactly if the interval
      holds rows but nothing is stored at or before `start`. */
  lemma CountedReadBounds(table: Frame, lo: nat, start: int, end: Option<int>, n: nat) returns (c: nat)
    requires Ascending(table) && n >= 1
    requires Loc(table, Some(start), end) != []
    ensures var r := Read(table, lo, start, end, Count(n));
            var u := UpTo(table, start);
            && (r.Err? <==> u == 0)
            && c <= u <= HighIndex(table, end)
            && (u > 0 ==> Min(n, u) <= c <= n + 1 && r.value == table[u - c..HighIndex(table, end)])
  {
    c := ContextRows(UpTo(table, start), Behind(UpTo(table, start), lo), n);
  }

  /** Unlike a duration, a counted context is not independent of the cache: two windows give the
      same rows exactly if both or neither held `n + 1` rows at or before `start`, or no more than
      `n` are stored at all. */
  lemma CountedReadDependsOnTheWindow(table: Frame, lo1: nat, lo2: nat, start: int, end: Option<int>, n: nat)
    requires Ascending(table) && n >= 1
    requires Loc(table, Some(start), end) != [] && UpTo(table, start) > 0
    ensures var u := UpTo(table, start);
            Read(table, lo1, start, end, Count(n)) == Read(table, lo2, start, end, Count(n)) <==>
            u <= n || (Behind(u, lo1) >= n + 1 <==> Behind(u, lo2) >= n + 1)
  {
    var u := UpTo(table, start);
    var c1, c2 := ContextRows(u, Behind(u, lo1), n), ContextRows(u, Behind(u, lo2), n);
    var h := HighIndex(table, end);
    assert Before(table, start) < h;
    assert |Slice(table, u - c1, h)| == h - u + c1;
    assert |Slice(table, u - c2, h)| == h - u + c2;
  }

  lemma OpenReadIs(table: Frame, hi: nat, lo: nat, start: int, d: nat)
    requires Ascending(table) && hi <= |table|
    ensures Ascending(table[..hi]) && Before(table, start - d) <= Before(table, start)
    ensures Read(table[..hi], lo, start, None, Duration(d))
         == Ok(if Before(table, start) < hi then table[Before(table, start - d)..hi] else [])
  {
    LocTruncated(table, hi, start, None);
    LocTruncated(table, hi, start - d, None);
    InsertionPoints(table, start);
    InsertionPoints(table, start - d);
    assert Before(table, start - d) < |table| ==> start - d <= table[Before(table, start - d)].time;
    assert Before(table, start) < |table| ==> start <= table[Before(table, start)].time;
  }

  /** An open read of a warm window sees only the rows the window reaches: it agrees with the
      table exactly if no stored row is both behind the window and at or after `start`. */
  lemma OpenReadMayBeStale(table: Frame, hi: nat, lo: nat, start: int, d: nat)
    requires Ascending(table) && 0 < hi <= |table|
    ensures Ascending(table[..hi])
    ensures Read(table[..hi], lo, start, None, Duration(d)) == Read(table, lo, start, None, Duration(d)) <==>
            forall i :: hi <= i < |table| ==> table[i].time < start
  {
    OpenReadIs(table, hi, lo, start, d);
    OpenReadIs(table, |table|, lo, start, d);
    assert table[..|table|] == table;
    BehindTheWindow(table, hi, start);
    ShorterTail(table, hi, Before(table, start - d), Before(table, start));
  }

  /** The rows from `a` on up to `hi` or to the end, if there are any behind row `b`. */
  lemma ShorterTail(table: Frame, hi: nat, a: nat, b: nat)
    requires a <= b <= |table| && hi <= |table|
    ensures (if b < hi then table[a..hi] else []) == (if b < |table| then table[a..|table|] else []) <==>
            hi == |table| || b == |table|
  {
    assert b < hi ==> |table[a..hi]| == hi - a;
    assert b < |table| ==> |table[a..|table|]| == |table| - a > 0;
  }

  lemma BehindTheWindow(table: Frame, hi: nat, start: int)
    requires Ascending(table) && hi <= |table|
    ensures (forall i :: hi <= i < |table| ==> table[i].time < start) <==>
            hi == |table| || Before(table, start) == |table|
    ensures Before(table, start) <= |table|
  {
    InsertionPoints(table, start);
    if hi < |table| && Before(table, start) < |table| {
      AllInOrder(table);
      assert table[|table| - 1].time >= start;
    }
  }

  /** Exactly the rows between the two ends, in order of time. */
  ghost predicate ExactlyWithin(data: Frame, start: Option<int>, end: Option<int>, rows: Frame) {
    Ascending(rows) && forall row :: row in rows <==> row in data && Within(row.time, start, end)
  }

  /** What a local stream answers: without context exactly its rows within, with a duration those from that much
      earlier on, with a counted context all rows within, and none that are not its own. It has no form for a
      read that asks for no context window at all. */
  ghost predicate LocalAnswers(data: Frame, start: Option<int>, end: Option<int>, window: Window,
                               r: Result<Frame, StreamError>)
  {
    match window
    case NoWindow => r == Err(AssertionError)
    case Duration(d) =>
      r.Ok? && ExactlyWithin(data, if start.Some? then Some(start.value - d) else None, end, r.value)
    case Count(n) =>
      && r.Ok?
      && (n == 0 ==> ExactlyWithin(data, start, end, r.value))
      && (forall row :: row in data && Within(row.time, start, end) ==> row in r.value)
      && forall row :: row in r.value ==> row in data
  }

  lemma LocIsExactlyWithin(data: Frame, start: Option<int>, end: Option<int>)
    requires Ascending(data)
    ensures ExactlyWithin(data, start, end, Loc(data, start, end))
  {
    forall row ensures row in Loc(data, start, end) <==> row in data && Within(row.time, start, end) {
      LocIsTheRange(data, start, end, row);
    }
  }

  /** A missing end leaves no row out, and a start at the first row or before none either. */
  lemma OwnEnds(data: Frame, start: Option<int>, end: Option<int>, d: nat, row: Row)
    requires Ascending(data) && row in data
    ensures var s := if start.Some? then start.value else data[0].time;
            var e := if end.Some? then end.value else LastTime(data);
            Within(row.time, Some(s - d), Some(e)) <==>
            Within(row.time, if start.Some? then Some(start.value - d) else None, end)
  {
    AllInOrder(data);
  }

  lemma LocalReadIsPlain(data: Frame, start: Option<int>, end: Option<int>, window: Window)
    requires Ascending(data)
    ensures LocalAnswers(data, start, end, window, LocalRead(data, start, end, window))
  {
    LocIsExactlyWithin(data, start, end);
    if data != [] {
      if window.Duration? { LocalDurationIsPlain(data, start, end, window.d); }
      if Counts(window) { LocalCountIsPlain(data, start, end, window.n); }
    }
  }

  lemma LocalDurationIsPlain(data: Frame, start: Option<int>, end: Option<int>, d: nat)
    requires Ascending(data) && data != []
    ensures LocalRead(data, start, end, Duration(d)).Ok?
    ensures ExactlyWithin(data, if start.Some? then Some(start.value - d) else None, end,
                          LocalRead(data, start, end, Duration(d)).value)
  {
    var s := if start.Some? then start.value else data[0].time;
    var e := if end.Some? then end.value else LastTime(data);
    var rows := Loc(data, Some(s - d), Some(e));
    LocIsExactlyWithin(data, Some(s - d), Some(e));
    forall row
      ensures row in rows <==> row in data && Within(row.time, if start.Some? then Some(start.value - d) else None, end)
    {
      if row in data { OwnEnds(data, start, end, d, row); }
    }
  }

  lemma LocalCountIsPlain(data: Frame, start: Option<int>, end: Option<int>, n: nat)
    requires Ascending(data) && data != [] && n > 0
    ensures LocalRead(data, start, end, Count(n)).Ok?
    ensures forall row :: row in data && Within(row.time, start, end) ==>
              row in LocalRead(data, start, end, Count(n)).value
    ensures forall row :: row in LocalRead(data, start, end, Count(n)).value ==> row in data
  {
    var s := if start.Some? then start.value else data[0].time;
    var e := if end.Some? then end.value else LastTime(data);
    LocIsExactlyWithin(data, Some(s), Some(e));
    LocIsExactlyWithin(data, None, Some(s));
    forall row | row in data && Within(row.time, start, end) ensures row in Loc(data, Some(s), Some(e)) {
      OwnEnds(data, start, end, 0, row);
    }
  }

  /** A local stream cuts its counted context by position, taking for granted that the row at
      `start` is there: the context is the last `n` rows before `start` exactly if some row sits at
      `start` or none lies before it. Otherwise the row nearest to `start` is missing. */
  lemma LocalContextMayHaveAGap(data: Frame, start: int, end: int, n: nat)
    requires Ascending(data) && data != [] && n >= 1
    ensures var k := Before(data, start);
            LocalRead(data, Some(start), Some(end), Count(n)) ==
            Ok(data[k - Min(n, k)..k] + Loc(data, Some(start), Some(end))) <==>
            HasTime(data, start) || k == 0
  {
    var k, u := Before(data, start), UpTo(data, start);
    InsertionPoints(data, start);
    AllInOrder(data);
    assert HasTime(data, start) <==> k < |data| && data[k].time == start;
    LocalReadIs(data, start, end, n);
    LocalContextIs(data, k, u, n);
    if !HasTime(data, start) && k != 0 {
      DifferentFronts(LocalContextRows(data, u, n), data[k - Min(n, k)..k], Loc(data, Some(start), Some(end)));
    }
  }

  lemma LocalContextIs(data: Frame, k: nat, u: nat, n: nat)
    requires k <= u <= k + 1 && u <= |data| && n >= 1
    ensures var got, wanted := LocalContextRows(data, u, n), data[k - Min(n, k)..k];
            && (u == k + 1 || k == 0 ==> got == wanted)
            && (u == k > 0 ==> |got| == |wanted| ==> got != [] && got[|got| - 1] == data[k - 2] && k >= 2)
            && (u == k > 0 ==> wanted != [] && wanted[|wanted| - 1] == data[k - 1])
  {
    var got, wanted := LocalContextRows(data, u, n), data[k - Min(n, k)..k];
    assert u > 0 ==> got == data[u - Min(n + 1, u)..u - 1];
    assert u == k + 1 ==> u - Min(n + 1, u) == k - Min(n, k);
    assert u == k > 0 ==> |got| == Min(n, k - 1);
  }

  /** What a local stream puts in front: up to `n + 1` rows ending at `u`, without the last one. */
  function LocalContextRows(data: Frame, u: nat, n: nat): Frame
    requires u <= |data|
  {
    if u == 0 then [] else data[..u][u - Min(n + 1, u)..u - 1]
  }

  lemma LocalReadIs(data: Frame, start: int, end: int, n: nat)
    requires Ascending(data) && data != [] && n >= 1
    ensures LocalRead(data, Some(start), Some(end), Count(n))
         == Ok(LocalContextRows(data, UpTo(data, start), n) + Loc(data, Some(start), Some(end)))
  {
  }

  lemma DifferentFronts(a: Frame, b: Frame, rest: Frame)
    requires |a| == |b| ==> a != [] && a[|a| - 1] != b[|b| - 1]
    ensures a + rest != b + rest
  {
    if |a| == |b| {
      assert (a + rest)[|a| - 1] == a[|a| - 1] && (b + rest)[|a| - 1] == b[|b| - 1];
    } else {
      assert |a + rest| != |b + rest|;
    }
  }

  // ---------------------------------------------------------------- short histories that show it

  function At(t: int): Row { Row(t, Number(0.0), None, 7) }

  /** The same counted read of the same table: one row of context is asked for, and on a cold stream none
      comes, behind an earlier read of everything one does. */
  method CountedContextDiffers() returns (cold: Result<Frame, StreamError>, warm: Result<Frame, StreamError>)
    ensures cold == Ok([At(3)]) && warm == Ok([At(2), At(3)])
  {
    var table := [At(1), At(2), At(3)];
    ThreeRows(table);
    var first := new Datastream("first", Immutable, table);
    cold := first.GetData(Some(3), Some(3), Count(1));

    var second := new Datastream("second", Immutable, table);
    var all := second.GetData(Some(1), Some(3), Count(0));
    warm := second.GetData(Some(3), Some(3), Count(1));
  }

  lemma ThreeRows(table: Frame)
    requires table == [At(1), At(2), At(3)]
    ensures Ascending(table) && SpanAfter(table, Span(0, 0), 1, Some(3), Count(0)) == Span(0, 3)
    ensures forall r :: ReadsSpan(table, Span(0, 0), map[], 3, Some(3), Count(1), r) ==> r == Ok([At(3)])
    ensures forall r :: ReadsSpan(table, Span(0, 3), map[], 3, Some(3), Count(1), r) ==> r == Ok([At(2), At(3)])
  {
    BeforeIs(table, 1, 0);
    BeforeIs(table, 3, 2);
    UpToIs(table, 3, 3);
    assert table[0..3] == table && table[2..3] == [At(3)] && table[1..3] == [At(2), At(3)];
    assert Read(table, 2, 3, Some(3), Count(1)) == Ok([At(3)]);
    assert Read(table, 0, 3, Some(3), Count(1)) == Ok([At(2), At(3)]);
    OverlayNothing([At(3)]);
    OverlayNothing([At(2), At(3)]);
  }

  /** A row at 2 is stored, but once the row at 1 is cached, an open read from 1 on misses it. A new stream
      has both. */
  method OpenReadMisses() returns (cold: Result<Frame, StreamError>, warm: Result<Frame, StreamError>)
    ensures cold == Ok([At(1), At(2)]) && warm == Ok([At(1)])
  {
    var table := [At(1), At(2)];
    OneOrTwoRows(table);
    var first := new Datastream("first", Immutable, table);
    cold := first.GetData(Some(1), None, Duration(0));

    var second := new Datastream("second", Immutable, table);
    var closed := second.GetData(Some(1), Some(1), Duration(0));
    warm := second.GetData(Some(1), None, Duration(0));
  }

  lemma OneOrTwoRows(table: Frame)
    requires table == [At(1), At(2)]
    ensures Ascending(table) && SpanAfter(table, Span(0, 0), 1, Some(1), Duration(0)) == Span(0, 1)
    ensures forall r :: ReadsSpan(table, Span(0, 0), map[], 1, None, Duration(0), r) ==> r == Ok(table)
    ensures forall r :: ReadsSpan(table, Span(0, 1), map[], 1, None, Duration(0), r) ==> r == Ok([At(1)])
  {
    BeforeIs([At(1)], 1, 0);
    BeforeIs(table, 1, 0);
    UpToIs(table, 1, 1);
    assert table[..1] == [At(1)];
    assert [At(1)][0..1] == [At(1)] && table[0..2] == table && table[0..1] == [At(1)];
    OverlayNothing(table);
    OverlayNothing([At(1)]);
  }

  /** A local stream with rows at 1 and 3, asked for one row of context: before 2 the row at 1 is left out,
      before 3, where a row sits, it is there. */
  lemma LocalContextMisses()
    ensures Ascending([At(1), At(3)])
    ensures LocalRead([At(1), At(3)], Some(2), Some(3), Count(1)) == Ok([At(3)])
    ensures LocalRead([At(1), At(3)], Some(3), Some(3), Count(1)) == Ok([At(1), At(3)])
  {
    var data := [At(1), At(3)];
    BeforeIs(data, 2, 1);
    BeforeIs(data, 3, 1);
    UpToIs(data, 2, 1);
    UpToIs(data, 3, 2);
    TwoRows(data, 2, 1);
    TwoRows(data, 3, 2);
  }

  lemma TwoRows(data: Frame, start: int, u: nat)
    requires data == [At(1), At(3)] && Ascending(data) && 1 <= u <= 2
    requires Before(data, start) == 1 && UpTo(data, start) == u && UpTo(data, 3) == 2
    ensures LocalRead(data, Some(start), Some(3), Count(1)) == Ok(data[2 - u..])
  {
    LocalReadIs(data, start, 3, 1);
    var chunk, context := Loc(data, Some(start), Some(3)), LocalContextRows(data, u, 1);
    assert chunk == data[1..2] == [At(3)];
    assert context == data[..u][0..u - 1] == data[..u - 1];
    assert context + chunk == data[2 - u..];
  }
}
