/** Whole quality-control runs: tests load their streams through one manager, their results go
    back into the streams, and at the end the labels are uploaded. */
module QcRuns {
  import opened Wrappers
  import opened Frames
  import opened Datastreams

  // ---------------------------------------------------------------- context windows

  /** A configured context window: nothing, an integer (also as text), anything pandas reads as a
      time difference (in microseconds), or anything else. */
  datatype RawWindow = Missing | Integer(n: int) | Timedelta(us: int) | Unreadable

  datatype ParsingError = ParsingError

  const DAY_US := 86_400_000_000

  /** `parse_context_window`; a time difference counts as negative if its days are. */
  function ParseContextWindow(raw: RawWindow): (r: Result<Window, ParsingError>)
    ensures r.Err? <==> raw.Unreadable? || (raw.Integer? && raw.n < 0) || (raw.Timedelta? && raw.us < 0)
    ensures raw.Missing? ==> r == Ok(Count(0))
    ensures raw.Integer? && r.Ok? ==> r.value.Count? && r.value.n == raw.n
    ensures raw.Timedelta? && r.Ok? ==> r.value.Duration? && r.value.d == raw.us
  {
    match raw
    case Missing => Ok(Count(0))
    case Integer(n) => if n < 0 then Err(ParsingError) else Ok(Count(n))
    case Timedelta(us) => if us / DAY_US < 0 then Err(ParsingError) else Ok(Duration(us))
    case Unreadable => Err(ParsingError)
  }

  // ---------------------------------------------------------------- streams of a test

  datatype StreamInfo = StreamInfo(value: string, thingId: Option<int>, streamId: Option<int>)

  function KindOf(info: StreamInfo): Kind {
    if info.thingId.None? then Local
    else if info.streamId.None? then Product
    else Immutable
  }

  /** What a test function hands back: data and labels per column. */
  datatype QcResult = QcResult(columns: seq<string>, data: map<string, Frame>, quality: map<string, map<int, Label>>)
  {
    ghost predicate WellFormed() {
      && (forall n :: n in columns ==> n in data && n in quality && Ascending(data[n]))
      && forall i, j :: 0 <= i < j < |columns| ==> columns[i] != columns[j]
    }
  }

  type Range = (Option<int>, Option<int>)

  // ---------------------------------------------------------------- what a read leaves and yields

  /** What a run needs to know of a stream. `span` are the rows of the table that are cached. */
  datatype Book = Book(kind: Kind, table: Frame, mirrors: bool, span: Span, data: Frame, labels: map<int, Label>,
                       starts: set<int>, inRange: set<int>)

  type Books = map<string, Book>

  ghost function BookOf(s: Datastream): Book
    reads s
  {
    Book(s.kind, s.table, s.mirrors, s.Cached(), s.data, s.labels, s.starts, s.inRange)
  }

  function NewBook(kind: Kind, table: Frame): Book {
    Book(kind, table, true, Span(0, 0), [], map[], {}, {})
  }

  /** A test sees the rows of its range with their context, labelled as of now: what the table answers behind
      the window `span` of before. A local stream gives of its own data what it has. */
  ghost predicate Loaded(b: Book, span: Span, range: Range, window: Window, frame: Frame) {
    if b.kind == Local then Ascending(b.data) && LocalRead(b.data, range.0, range.1, window) == Ok(frame)
    else if range.0.None? then frame == []
    else b.mirrors ==> ReadsSpan(b.table, span, b.labels, range.0.value, range.1, window, Ok(frame))
  }

  /** What a test loads of stored data, row by row: nothing without a range, else what the window lets it see. */
  lemma LoadedIsPlain(b: Book, span: Span, range: Range, window: Window, frame: Frame)
    requires b.kind == Immutable && b.mirrors && span.In(b.table) && Loaded(b, span, range, window, frame)
    ensures range.0.None? ==> frame == []
    ensures range.0.Some? ==>
              AnswersPlainly(b.table, Reach(b.table, span, range.1), b.labels, range.0.value, range.1, window,
                             Ok(frame))
  {
    if range.0.Some? { ReadIsPlain(b.table, span, b.labels, range.0.value, range.1, window, Ok(frame)); }
  }

  /** With a duration as context, a closed range loads exactly the labelled rows of the table. */
  lemma DurationIsLoaded(b: Book, span: Span, range: Range, window: Window, frame: Frame)
    requires b.kind == Immutable && b.mirrors && range.0.Some? && range.1.Some? && window.Duration?
    requires Loaded(b, span, range, window, frame)
    ensures Ascending(b.table)
    ensures Ok(frame) == WithLabels(Read(b.table, 0, range.0.value, range.1, window), b.labels)
  {
  }

  /** With a count as context, what is loaded runs to the end of the range and begins with between
      `min(n, available)` and `n + 1` rows at or before its start. */
  lemma CountIsLoaded(b: Book, span: Span, range: Range, window: Window, frame: Frame) returns (c: nat)
    requires b.kind == Immutable && b.mirrors && range.0.Some? && range.1.Some? && window.Count? && window.n >= 1
    requires Loaded(b, span, range, window, frame) && Ascending(b.table) && Loc(b.table, range.0, range.1) != []
    ensures var u, h := UpTo(b.table, range.0.value), HighIndex(b.table, range.1);
            && c <= u <= h
            && Min(window.n, u) <= c <= window.n + 1
            && frame == Overlay(b.table[u - c..h], b.labels)
  {
    var lo := WidenedLo(b.table, span.Warm(), span.lo, range.0.value);
    c := CountedFrame(b.table, lo, b.labels, range.0.value, range.1, window.n, frame);
  }

  lemma CountedFrame(table: Frame, lo: nat, labels: map<int, Label>, start: int, end: Option<int>, n: nat, frame: Frame)
      returns (c: nat)
    requires Ascending(table) && n >= 1 && Loc(table, Some(start), end) != []
    requires Ok(frame) == WithLabels(Read(table, lo, start, end, Count(n)), labels)
    ensures c <= UpTo(table, start) <= HighIndex(table, end)
    ensures Min(n, UpTo(table, start)) <= c <= n + 1
    ensures frame == Overlay(table[UpTo(table, start) - c..HighIndex(table, end)], labels)
  {
    c := CountedReadBounds(table, lo, start, end, n);
    var r := Read(table, lo, start, end, Count(n));
    assert r.Ok?;
    assert frame == Overlay(r.value, labels);
  }

  /** A closed read with a duration as context does not depend on what the window held. */
  lemma ClosedRead(table: Frame, span: Span, labels: map<int, Label>, start: int, end: Option<int>, window: Window,
                   r: Result<Frame, StreamError>)
    requires end.Some? && window.Duration? && ReadsSpan(table, span, labels, start, end, window, r)
    ensures Ascending(table) && r == WithLabels(Read(table, 0, start, end, window), labels)
  {
  }

  /** How a read fails, if it does: a product that was never read has no open-ended read, and there may be
      rows to count back and none at or before the start. */
  function ReadError(kind: Kind, cold: bool, rows: Frame, range: Range, window: Window): Option<StreamError>
    requires Ascending(rows)
  {
    if kind == Local || range.0.None? then None
    else if Unanswerable(kind, cold, range.1) then Some(NotATime)
    else if NoneToCount(rows, range.0.value, range.1, window) then Some(IndexError)
    else None
  }

  /** What a read notes for the upload: its start, if there are rows, and the times of those rows. With a
      closed range that is every stored row of it. */
  ghost predicate Noted(b0: Book, b1: Book, range: Range)
    requires Ascending(b1.table) && Ascending(b1.data)
  {
    && b0.inRange <= b1.inRange
    && (b1.kind == Local || range.0.None? ==> b1.starts == b0.starts)
    && (b1.kind != Local && range.0.Some? ==>
          && b1.starts == b0.starts + RangeStart(b1.data, range.0.value, range.1)
          && RowsNoted(b1.data, range.0.value, range.1, b1.inRange))
    && (b1.kind == Immutable && range.0.Some? && range.1.Some? ==>
          && RangeStart(b1.data, range.0.value, range.1) == RangeStart(b1.table, range.0.value, range.1)
          && RowsNoted(b1.table, range.0.value, range.1, b1.inRange))
  }

  /** A read of a stored stream fails only if the table has rows to read and none to count, and if the range
      is closed, always then. */
  ghost predicate FailsAsTable(table: Frame, range: Range, window: Window, fails: bool)
    requires Ascending(table)
  {
    range.0.Some? ==>
      && (fails ==> NoneToCount(table, range.0.value, range.1, window))
      && (range.1.Some? && NoneToCount(table, range.0.value, range.1, window) ==> fails)
  }

  /** A read changes what is cached and noted, and nothing else. What was cached stays cached, and so is what a
      stored stream answers. */
  ghost predicate ReadStep(b0: Book, b1: Book, used: Range, window: Window, r: Result<Frame, StreamError>) {
    && b1.kind == b0.kind && b1.table == b0.table && b1.mirrors == b0.mirrors && b1.labels == b0.labels
    && Ascending(b1.table) && Ascending(b1.data) && Noted(b0, b1, used)
    && (match ReadError(b1.kind, b0.data == [], b1.data, used, window)
        case None => r.Ok? && Loaded(b1, b0.span, used, window, r.value)
        case Some(e) => r == Err(e))
    && (b1.kind == Immutable ==> FailsAsTable(b1.table, used, window, r.Err?))
    && KeepsTimes(b0, b1, r) && SpanMoves(b0, b1, used, window)
  }

  /** What is cached of stored data are the rows of the window, under the labels kept. */
  ghost predicate ShowsTable(b: Book) {
    b.kind == Immutable ==> b.mirrors && Mirrors(b.table, b.data, b.span.lo, b.span.hi, b.labels)
  }

  /** A read of stored data moves the window as it must, and no further. */
  ghost predicate SpanMoves(b0: Book, b1: Book, range: Range, window: Window)
    requires Ascending(b1.table)
  {
    && ShowsTable(b1)
    && (b1.kind == Immutable ==>
          && b0.span.In(b1.table)
          && b1.span == if range.0.None? then b0.span
                        else SpanAfter(b1.table, b0.span, range.0.value, range.1, window))
  }

  ghost predicate KeepsTimes(b0: Book, b1: Book, r: Result<Frame, StreamError>) {
    && (forall t :: HasTime(b0.data, t) ==> HasTime(b1.data, t))
    && (b1.kind != Local && r.Ok? ==> OnlyTimesOf(b1.data, r.value))
  }

  lemma ReadFails(table: Frame, lo: nat, start: int, end: Option<int>, window: Window)
    requires Ascending(table)
    ensures Read(table, lo, start, end, window).Err? <==> NoneToCount(table, start, end, window)
  {
  }

  /** With the rows behind the window the same rows are at or before the start, if there are rows at all. */
  lemma FailsBehind(table: Frame, hi: nat, start: int, window: Window)
    requires Ascending(table) && hi <= |table| && Ascending(table[..hi])
    requires NoneToCount(table[..hi], start, None, window)
    ensures NoneToCount(table, start, None, window)
  {
    LocTruncated(table, hi, start, None);
    assert Before(table, start) < hi;
    SeenUpTo(table, hi, start, None);
  }

  lemma FailsLikeTheTable(table: Frame, span: Span, labels: map<int, Label>, start: int, end: Option<int>,
                          window: Window, r: Result<Frame, StreamError>)
    requires ReadsSpan(table, span, labels, start, end, window, r)
    ensures Ascending(table) && FailsAsTable(table, (Some(start), end), window, r.Err?)
  {
    var seen := Seen(table, span.Warm(), span.hi, end);
    ReadFails(seen, WidenedLo(table, span.Warm(), span.lo, start), start, end, window);
    if r.Err? && end.None? && span.Warm() { FailsBehind(table, span.hi, start, window); }
  }

  datatype QcTest = QcTest(streams: seq<StreamInfo>, window: Window)

  /** What an upload sends: the cached rows at or after some non-empty read's start. For stored data
      that leaves out exactly the rows only ever seen as earlier context, and misses no row that a
      read returned inside its requested interval; all are stored rows, under the labels written. */
  ghost predicate SentFrom(b: Book, sent: Frame) {
    && Ascending(sent)
    && (forall row :: row in sent <==>
          row in b.data && (b.starts == {} || exists start :: start in b.starts && start <= row.time))
    && (b.kind == Immutable ==>
          && (b.data != [] ==> b.starts != {})
          && (forall t :: t in b.inRange ==> HasTime(sent, t))
          && forall row :: row in sent ==> exists stored :: stored in b.table && row == OverlayRow(stored, b.labels))
  }

  // ---------------------------------------------------------------- the range of a test

  /** The range a stream is read with: the one settled so far, or else its own unprocessed range. */
  function Settle(range: Range, own: Range): Range {
    if range.0.Some? then range else own
  }

  function OwnRange(b: Book): Range {
    UnlabelledRange(b.kind, b.table)
  }

  /** One of the first `n` streams has the name. */
  ghost predicate Named(infos: seq<StreamInfo>, n: nat, name: string)
    requires n <= |infos|
  {
    exists i :: 0 <= i < n && infos[i].value == name
  }

  /** The first mention of a name. */
  ghost predicate First(infos: seq<StreamInfo>, j: nat) {
    j < |infos| && !Named(infos, j, infos[j].value)
  }

  /** The stream a test starts from: the one there is, or a new one made from the information. */
  function BookFor(books: Books, info: StreamInfo, storage: StreamInfo -> Frame): Book {
    if info.value in books then books[info.value] else NewBook(KindOf(info), storage(info))
  }

  /** The stream has been read, with its rows loaded under its name. */
  ghost predicate Met(before: Books, books: Books, info: StreamInfo, storage: StreamInfo -> Frame,
                      used: Range, window: Window, data: map<string, Frame>) {
    && info.value in books && info.value in data
    && ReadStep(BookFor(before, info, storage), books[info.value], used, window, Ok(data[info.value]))
  }

  /** The range settled in front of stream `j`. */
  function RangeBefore(given: Range, used: seq<Range>, j: nat): Range
    requires j <= |used|
  {
    if j == 0 then given else used[j - 1]
  }

  /** Stream `j` has been met: read with the range settled then, if it is the first of its name. */
  ghost predicate TurnDone(before: Books, books: Books, infos: seq<StreamInfo>, j: nat, storage: StreamInfo -> Frame,
                           given: Range, window: Window, used: seq<Range>, data: map<string, Frame>)
    requires j < |infos| && j < |used|
  {
    if First(infos, j) then
      && Met(before, books, infos[j], storage, used[j], window, data)
      && used[j] == Settle(RangeBefore(given, used, j), OwnRange(books[infos[j].value]))
    else used[j] == RangeBefore(given, used, j)
  }

  /** Exactly the first `n` names have been loaded, and all other streams left alone. */
  ghost predicate OnlyNamed(before: Books, books: Books, infos: seq<StreamInfo>, n: nat, data: map<string, Frame>)
    requires n <= |infos|
  {
    && (forall m :: m in data <==> Named(infos, n, m))
    && (forall m :: m in books <==> m in before || m in data)
    && (forall m :: m in before && m !in data ==> books[m] == before[m])
  }

  /** The first `n` streams of a test have been loaded. */
  ghost predicate LoadedUpTo(before: Books, books: Books, infos: seq<StreamInfo>, n: nat, storage: StreamInfo -> Frame,
                             given: Range, window: Window, used: seq<Range>, data: map<string, Frame>)
    requires n <= |infos|
  {
    && |used| == n && OnlyNamed(before, books, infos, n, data)
    && forall j :: 0 <= j < n ==> TurnDone(before, books, infos, j, storage, given, window, used, data)
  }

  lemma NamedOneMore(infos: seq<StreamInfo>, n: nat)
    requires n < |infos|
    ensures forall m :: Named(infos, n + 1, m) <==> Named(infos, n, m) || m == infos[n].value
  {
    forall m | Named(infos, n, m) || m == infos[n].value ensures Named(infos, n + 1, m) {
      assert infos[n].value == m || exists i :: 0 <= i < n && infos[i].value == m;
    }
  }

  lemma MetAgain(before: Books, books: Books, infos: seq<StreamInfo>, n: nat, storage: StreamInfo -> Frame,
                 given: Range, window: Window, used: seq<Range>, data: map<string, Frame>)
    requires n < |infos| && LoadedUpTo(before, books, infos, n, storage, given, window, used, data)
    requires infos[n].value in data
    ensures LoadedUpTo(before, books, infos, n + 1, storage, given, window, used + [RangeBefore(given, used, n)], data)
  {
    NamedOneMore(infos, n);
    var more := used + [RangeBefore(given, used, n)];
    forall j | 0 <= j < n ensures TurnDone(before, books, infos, j, storage, given, window, more, data) {
      assert TurnDone(before, books, infos, j, storage, given, window, used, data);
    }
  }

  lemma OnlyNamedMore(before: Books, books0: Books, books: Books, infos: seq<StreamInfo>, n: nat,
                      data0: map<string, Frame>, frame: Frame)
    requires n < |infos| && OnlyNamed(before, books0, infos, n, data0) && infos[n].value !in data0
    requires infos[n].value in books && books == books0[infos[n].value := books[infos[n].value]]
    ensures OnlyNamed(before, books, infos, n + 1, data0[infos[n].value := frame])
  {
    NamedOneMore(infos, n);
  }

  lemma MetFirst(before: Books, books0: Books, books: Books, infos: seq<StreamInfo>, n: nat,
                 storage: StreamInfo -> Frame, given: Range, window: Window, used: seq<Range>,
                 data0: map<string, Frame>, range: Range, frame: Frame)
    requires n < |infos| && LoadedUpTo(before, books0, infos, n, storage, given, window, used, data0)
    requires infos[n].value !in data0 && infos[n].value in books
    requires books == books0[infos[n].value := books[infos[n].value]]
    requires range == Settle(RangeBefore(given, used, n), OwnRange(books[infos[n].value]))
    requires ReadStep(BookFor(books0, infos[n], storage), books[infos[n].value], range, window, Ok(frame))
    ensures LoadedUpTo(before, books, infos, n + 1, storage, given, window, used + [range],
                       data0[infos[n].value := frame])
  {
    OnlyNamedMore(before, books0, books, infos, n, data0, frame);
    var more, data := used + [range], data0[infos[n].value := frame];
    OldTurns(before, books0, books, infos, n, storage, given, window, used, more, data0, data);
    NewTurn(before, books0, books, infos, n, storage, given, window, used, data, range, frame);
  }

  lemma OldTurns(before: Books, books0: Books, books: Books, infos: seq<StreamInfo>, n: nat,
                 storage: StreamInfo -> Frame, given: Range, window: Window, used: seq<Range>,
                 more: seq<Range>, data0: map<string, Frame>, data: map<string, Frame>)
    requires n < |infos| && LoadedUpTo(before, books0, infos, n, storage, given, window, used, data0)
    requires infos[n].value !in data0 && infos[n].value in books && infos[n].value in data
    requires books == books0[infos[n].value := books[infos[n].value]]
    requires used <= more && data == data0[infos[n].value := data[infos[n].value]]
    ensures forall j :: 0 <= j < n ==> TurnDone(before, books, infos, j, storage, given, window, more, data)
  {
    forall j | 0 <= j < n ensures TurnDone(before, books, infos, j, storage, given, window, more, data) {
      TurnStays(before, books0, books, infos, j, n, storage, given, window, used, more, data0, data);
    }
  }

  lemma NewTurn(before: Books, books0: Books, books: Books, infos: seq<StreamInfo>, n: nat,
                storage: StreamInfo -> Frame, given: Range, window: Window, used: seq<Range>,
                data: map<string, Frame>, range: Range, frame: Frame)
    requires n < |infos| && |used| == n && infos[n].value in books
    requires BookFor(before, infos[n], storage) == BookFor(books0, infos[n], storage)
    requires infos[n].value in data && data[infos[n].value] == frame
    requires range == Settle(RangeBefore(given, used, n), OwnRange(books[infos[n].value]))
    requires ReadStep(BookFor(books0, infos[n], storage), books[infos[n].value], range, window, Ok(frame))
    requires First(infos, n)
    ensures TurnDone(before, books, infos, n, storage, given, window, used + [range], data)
  {
    assert RangeBefore(given, used + [range], n) == RangeBefore(given, used, n);
  }

  /** Reading a stream of a new name does not concern the turns before. */
  lemma TurnStays(before: Books, books0: Books, books: Books, infos: seq<StreamInfo>, j: nat, n: nat,
                  storage: StreamInfo -> Frame, given: Range, window: Window, used: seq<Range>, more: seq<Range>,
                  data0: map<string, Frame>, data: map<string, Frame>)
    requires j < n < |infos| && n == |used| && used <= more && infos[n].value !in data0
    requires Named(infos, n, infos[j].value) ==> infos[j].value in data0
    requires forall m :: m in books0 && m != infos[n].value ==> m in books && books[m] == books0[m]
    requires forall m :: m in data0 ==> m in data && data[m] == data0[m]
    requires TurnDone(before, books0, infos, j, storage, given, window, used, data0)
    ensures TurnDone(before, books, infos, j, storage, given, window, more, data)
  {
    assert Named(infos, n, infos[j].value);
  }

  /** What `get_data` says of the starts and times it keeps. */
  ghost predicate Kept(b0: Book, b1: Book, range: Range) {
    && Ascending(b1.table) && Ascending(b1.data) && b0.inRange <= b1.inRange
    && (b1.kind == Local || range.0.None? ==> b1.starts == b0.starts)
    && (b1.kind != Local && range.0.Some? ==>
          && b1.starts == b0.starts + RangeStart(b1.data, range.0.value, range.1)
          && RowsNoted(b1.data, range.0.value, range.1, b1.inRange))
    && (b1.kind == Immutable && range.0.Some? ==>
          && b0.span.hi <= |b1.table|
          && var chunk := SeenChunk(b1.table, b0.span.Warm(), b0.span.hi, range.0.value, range.1);
             && (chunk == [] <==> Loc(b1.data, range.0, range.1) == [])
             && forall row :: row in chunk ==> row.time in b1.inRange)
  }

  lemma KeptIsNoted(b0: Book, b1: Book, range: Range)
    requires Kept(b0, b1, range)
    ensures Noted(b0, b1, range)
  {
  }

  /** What `get_data` answers, and when it fails. */
  ghost predicate Answers(b0: Book, b1: Book, range: Range, window: Window, r: Result<Frame, StreamError>) {
    var cold := b0.data == [];
    && Ascending(b1.data)
    && (if b1.kind == Local then r == LocalRead(b1.data, range.0, range.1, window)
        else if range.0.None? then r == Ok([])
        else if Unanswerable(b1.kind, cold, range.1) then r == Err(NotATime)
        else
          && (r.Err? <==> NoneToCount(b1.data, range.0.value, range.1, window)) && (r.Err? ==> r.error == IndexError)
          && (b1.mirrors ==> ReadsSpan(b1.table, b0.span, b1.labels, range.0.value, range.1, window, r)))
  }

  lemma StepIs(b0: Book, b1: Book, range: Range, window: Window, r: Result<Frame, StreamError>)
    requires b1.kind == b0.kind && b1.table == b0.table && b1.mirrors == b0.mirrors && b1.labels == b0.labels
    requires !window.NoWindow? && (b1.kind == Immutable ==> b1.mirrors)
    requires Kept(b0, b1, range) && Answers(b0, b1, range, window, r)
    requires KeepsTimes(b0, b1, r) && SpanMoves(b0, b1, range, window)
    ensures ReadStep(b0, b1, range, window, r)
  {
    KeptIsNoted(b0, b1, range);
    if b1.kind == Immutable && range.0.Some? {
      FailsLikeTheTable(b1.table, b0.span, b1.labels, range.0.value, range.1, window, r);
    }
  }

  lemma StreamShowsTable(stream: Datastream)
    requires stream.Valid()
    ensures ShowsTable(BookOf(stream)) && (stream.kind == Immutable ==> stream.Cached().In(stream.table))
  {
    if stream.kind == Immutable && stream.data == [] {
      EmptyWindow(stream.table, stream.lo, stream.hi, stream.labels);
    }
  }

  method ReadStream(stream: Datastream, range: Range, window: Window)
      returns (used: Range, r: Result<Frame, StreamError>)
    requires stream.Valid() && !stream.bareRead && !window.NoWindow?
    modifies stream
    ensures stream.Valid() && !stream.bareRead
    ensures used == Settle(range, OwnRange(BookOf(stream)))
    ensures ReadStep(old(BookOf(stream)), BookOf(stream), used, window, r)
  {
    used := range;
    if range.0.None? { used := stream.GetUnprocessedRange(); }
    ghost var b0 := BookOf(stream);
    StreamShowsTable(stream);
    r := stream.GetData(used.0, used.1, window);
    StreamShowsTable(stream);
    StepIs(b0, BookOf(stream), used, window, r);
  }

  // ---------------------------------------------------------------- storing a result

  /** Labels for cached rows are kept, others dropped. */
  function KeptLabels(data: Frame, quality: map<int, Label>): map<int, Label> {
    map t | t in quality && HasTime(data, t) :: quality[t]
  }

  function Relabelled(b: Book, quality: map<int, Label>): Book {
    b.(data := Overlay(b.data, quality), labels := b.labels + KeptLabels(b.data, quality))
  }

  /** One column of a result: stored streams take labels only, all others new data as well. */
  function Updated(b: Book, data: Frame, quality: map<int, Label>): Book {
    Relabelled(if b.kind == Immutable then b else b.(data := data, mirrors := false, span := Span(0, 0)),
               quality)
  }

  function UpdatedOne(books: Books, result: QcResult, name: string): Books
    requires name in result.data && name in result.quality
  {
    var book := if name in books then books[name] else NewBook(Local, []);
    books[name := Updated(book, result.data[name], result.quality[name])]
  }

  function UpdatedUpTo(books: Books, result: QcResult, n: nat): Books
    requires n <= |result.columns| && forall m :: m in result.columns ==> m in result.data && m in result.quality
  {
    if n == 0 then books else UpdatedOne(UpdatedUpTo(books, result, n - 1), result, result.columns[n - 1])
  }

  /** What storing a result does to one stream. */
  lemma {:induction false} UpdatedIs(books: Books, result: QcResult, n: nat, m: string)
    requires n <= |result.columns| && result.WellFormed()
    ensures var after := UpdatedUpTo(books, result, n);
            && (m in after <==> m in books || m in result.columns[..n])
            && (m in books ==> SameNotes(books[m], after[m]))
            && (m in after && m !in books ==> after[m].kind == Local && after[m].table == [])
            && (m in books && books[m].kind == Immutable ==>
                  after[m] == if m in result.columns[..n] then Relabelled(books[m], result.quality[m]) else books[m])
  {
    if n > 0 {
      UpdatedIs(books, result, n - 1, m);
      assert result.columns[..n] == result.columns[..n - 1] + [result.columns[n - 1]];
      assert result.columns[n - 1] !in result.columns[..n - 1];
    }
  }

  ghost predicate SameNotes(a: Book, b: Book) {
    b.kind == a.kind && b.table == a.table && b.starts == a.starts && b.inRange == a.inRange
  }

  /** The frame has the rows of the other, with the labels laid over them. */
  ghost predicate ShowsRows(rows: Frame, shown: Frame, labels: map<int, Label>) {
    |shown| == |rows| && forall i :: 0 <= i < |rows| ==> ShownAs(rows[i], shown[i], labels)
  }

  /** What storing a result does to the stream of a name. A stream without a column stays. Stored data keeps its
      rows and takes the labels; a product or a temporary variable takes the new rows with them; a name that is
      not known becomes a temporary variable. */
  ghost predicate ResultStored(before: Books, after: Books, result: QcResult, m: string)
    requires result.WellFormed()
  {
    && (m in after <==> m in before || m in result.columns)
    && (m !in result.columns && m in before ==> after[m] == before[m])
    && (m in result.columns ==>
          && (m in before ==> SameNotes(before[m], after[m]))
          && (m !in before ==> after[m].kind == Local)
          && ShowsRows(if m in before && before[m].kind == Immutable then before[m].data else result.data[m],
                       after[m].data, result.quality[m]))
  }

  ghost predicate AllStored(before: Books, after: Books, result: QcResult)
    requires result.WellFormed()
  {
    forall m :: ResultStored(before, after, result, m)
  }

  lemma UpdatedShows(b: Book, data: Frame, quality: map<int, Label>)
    ensures ShowsRows(if b.kind == Immutable then b.data else data, Updated(b, data, quality).data, quality)
  {
  }

  lemma {:induction false} ResultIsStored(books: Books, result: QcResult, n: nat, m: string)
    requires n <= |result.columns| && result.WellFormed()
    ensures m !in result.columns[..n] && m in books ==>
              m in UpdatedUpTo(books, result, n) && UpdatedUpTo(books, result, n)[m] == books[m]
    ensures m in result.columns[..n] ==>
              && m in UpdatedUpTo(books, result, n)
              && ShowsRows(if m in books && books[m].kind == Immutable then books[m].data else result.data[m],
                           UpdatedUpTo(books, result, n)[m].data, result.quality[m])
  {
    if n > 0 {
      ResultIsStored(books, result, n - 1, m);
      assert result.columns[..n] == result.columns[..n - 1] + [result.columns[n - 1]];
      if m == result.columns[n - 1] {
        assert m !in result.columns[..n - 1];
        UpdatedIs(books, result, n - 1, m);
        var earlier := UpdatedUpTo(books, result, n - 1);
        UpdatedShows(if m in earlier then earlier[m] else NewBook(Local, []), result.data[m], result.quality[m]);
      }
    }
  }

  lemma AllResultsStored(books: Books, result: QcResult)
    requires result.WellFormed()
    ensures AllStored(books, UpdatedUpTo(books, result, |result.columns|), result)
  {
    var n := |result.columns|;
    assert result.columns[..n] == result.columns;
    forall m ensures ResultStored(books, UpdatedUpTo(books, result, n), result, m) {
      UpdatedIs(books, result, n, m);
      ResultIsStored(books, result, n, m);
    }
  }

  // ---------------------------------------------------------------- which streams there are

  /** The streams there are once the first `n` of a test have been looked up, each as it was first seen. */
  function LookedUp(books: Books, infos: seq<StreamInfo>, n: nat, storage: StreamInfo -> Frame): (r: Books)
    requires n <= |infos|
    ensures forall i :: 0 <= i < n ==> infos[i].value in r
  {
    if n == 0 then books
    else
      var known := LookedUp(books, infos, n - 1, storage);
      known[infos[n - 1].value := BookFor(known, infos[n - 1], storage)]
  }

  /** The streams there are once the first `n` columns of a result have been stored. */
  function Introduced(books: Books, columns: seq<string>, n: nat): Books
    requires n <= |columns|
  {
    if n == 0 then books
    else
      var known := Introduced(books, columns, n - 1);
      known[columns[n - 1] := if columns[n - 1] in known then known[columns[n - 1]] else NewBook(Local, [])]
  }

  /** The first mention of a name. */
  ghost function FirstIndex(infos: seq<StreamInfo>, n: nat, name: string): (i: nat)
    requires n <= |infos| && Named(infos, n, name)
    ensures i < n && First(infos, i) && infos[i].value == name
  {
    if Named(infos, n - 1, name) then FirstIndex(infos, n - 1, name) else n - 1
  }

  lemma {:induction false} LookedUpIs(books: Books, infos: seq<StreamInfo>, n: nat, storage: StreamInfo -> Frame,
                                      m: string)
    requires n <= |infos|
    ensures var known := LookedUp(books, infos, n, storage);
            && (m in known <==> m in books || Named(infos, n, m))
            && (m in books ==> known[m] == books[m])
            && (Named(infos, n, m) ==> known[m] == BookFor(books, infos[FirstIndex(infos, n, m)], storage))
  {
    if n > 0 {
      LookedUpIs(books, infos, n - 1, storage, m);
      NamedOneMore(infos, n - 1);
    }
  }

  lemma {:induction false} IntroducedIs(books: Books, columns: seq<string>, n: nat, m: string)
    requires n <= |columns|
    ensures var known := Introduced(books, columns, n);
            && (m in known <==> m in books || m in columns[..n])
            && (m in known ==> known[m] == if m in books then books[m] else NewBook(Local, []))
  {
    if n > 0 {
      IntroducedIs(books, columns, n - 1, m);
      assert columns[..n] == columns[..n - 1] + [columns[n - 1]];
    }
  }

  /** The stream is still the one first seen under its name. */
  ghost predicate SameOrigin(known: Books, books: Books, m: string) {
    && (m in books <==> m in known)
    && (m in books ==> books[m].kind == known[m].kind && books[m].table == known[m].table)
  }

  /** The range in force after the first `n` streams of a test, foretold from what the streams are. */
  ghost function RangeAfter(known: Books, infos: seq<StreamInfo>, given: Range, n: nat): Range
    requires n <= |infos| && forall i :: 0 <= i < |infos| ==> infos[i].value in known
  {
    if n == 0 then given
    else
      var range := RangeAfter(known, infos, given, n - 1);
      if Named(infos, n - 1, infos[n - 1].value) then range
      else Settle(range, OwnRange(known[infos[n - 1].value]))
  }

  // ---------------------------------------------------------------- whole runs

  /** What a test loads: the range in force after each of its streams, the rows, and the streams then. */
  datatype Turn = Turn(used: seq<Range>, data: map<string, Frame>, loaded: Books)

  ghost function Stored(books: Books, result: QcResult): Books
    requires result.WellFormed()
  {
    UpdatedUpTo(books, result, |result.columns|)
  }

  /** A read of the stream with the range may fail: for stored data there are rows and none to count back,
      for a product that depends on what it was given. */
  ghost predicate CanFail(b: Book, range: Range, window: Window) {
    && b.kind != Local && range.0.Some? && Ascending(b.table)
    && if b.kind == Immutable then NoneToCount(b.table, range.0.value, range.1, window)
       else range.1.None? || Counts(window)
  }

  /** A run: the streams in front of it, its tests, and the results they will have. These are what the
      quality-control tool makes of the data, so they are arbitrary. */
  datatype Job = Job(before: Books, tests: seq<QcTest>, results: seq<QcResult>, storage: StreamInfo -> Frame,
                     given: Range)
  {
    ghost predicate WellFormed() {
      && |results| == |tests|
      && forall k :: 0 <= k < |tests| ==> results[k].WellFormed() && !tests[k].window.NoWindow?
    }

    /** The streams there are in front of test `k`, each as it was first seen. */
    function Known(k: nat): Books
      requires k <= |tests| && k <= |results|
    {
      if k == 0 then before
      else Introduced(LookedUp(Known(k - 1), tests[k - 1].streams, |tests[k - 1].streams|, storage),
                      results[k - 1].columns, |results[k - 1].columns|)
    }

    /** The streams there are once test `k` has looked up its own. */
    function KnownTo(k: nat): (r: Books)
      requires k < |tests| && k <= |results|
      ensures forall i :: 0 <= i < |tests[k].streams| ==> tests[k].streams[i].value in r
    {
      LookedUp(Known(k), tests[k].streams, |tests[k].streams|, storage)
    }

    /** The read of stream `i` of test `k` may fail. This is known before the run. */
    ghost predicate MayFail(k: nat, i: nat)
      requires WellFormed()
    {
      && k < |tests| && First(tests[k].streams, i)
      && CanFail(KnownTo(k)[tests[k].streams[i].value], RangeAfter(KnownTo(k), tests[k].streams, given, i + 1),
                 tests[k].window)
    }

    /** The read is of stored data and closed, so that it surely fails if it may. */
    ghost predicate Certain(k: nat, i: nat)
      requires WellFormed()
    {
      && k < |tests| && First(tests[k].streams, i)
      && KnownTo(k)[tests[k].streams[i].value].kind == Immutable
      && RangeAfter(KnownTo(k), tests[k].streams, given, i + 1).1.Some?
    }

    /** No product is involved, and a given start comes with an end. */
    ghost predicate Foreseeable()
      requires WellFormed()
    {
      && (given.0.Some? ==> given.1.Some?)
      && forall m :: m in Known(|tests|) ==> Known(|tests|)[m].kind != Product
    }

    /** The streams in front of turn `k`. */
    ghost function StateAt(turns: seq<Turn>, k: nat): Books
      requires WellFormed() && k <= |turns| && k <= |tests|
    {
      if k == 0 then before else Stored(turns[k - 1].loaded, results[k - 1])
    }

    /** Turn `k` loaded the streams of its test, or the first of them. */
    ghost predicate Took(turns: seq<Turn>, k: nat)
      requires WellFormed() && k < |turns| && k < |tests|
    {
      var turn, infos := turns[k], tests[k].streams;
      && |turn.used| <= |infos|
      && LoadedUpTo(StateAt(turns, k), turn.loaded, infos, |turn.used|, storage, given, tests[k].window, turn.used,
                    turn.data)
    }

    ghost predicate Complete(turns: seq<Turn>, k: nat)
      requires WellFormed() && k < |turns| && k < |tests|
    {
      Took(turns, k) && |turns[k].used| == |tests[k].streams|
    }

    /** The first `n` tests have loaded all their streams, each from where the test before left them. */
    ghost predicate Traced(turns: seq<Turn>, n: nat)
      requires WellFormed() && n <= |turns| && n <= |tests|
    {
      forall k :: 0 <= k < n ==> Complete(turns, k)
    }

    /** The last turn stopped in the read of its next stream. */
    ghost predicate Stopped(turns: seq<Turn>, books: Books, e: StreamError)
      requires WellFormed()
    {
      && 0 < |turns| <= |tests| && Traced(turns, |turns| - 1)
      && Took(turns, |turns| - 1)
      && Broke(turns[|turns| - 1], books, tests[|turns| - 1], storage, given, e)
    }

    // -------------------------------------------------------------- one stream in a run

    ghost predicate Reads(k: nat, name: string)
      requires k < |tests|
    {
      Named(tests[k].streams, |tests[k].streams|, name)
    }

    /** The range that test `k` read the stream with. */
    ghost function ReadWith(turns: seq<Turn>, k: nat, name: string): Range
      requires k < |turns| && k < |tests| && Reads(k, name) && |turns[k].used| == |tests[k].streams|
    {
      turns[k].used[FirstIndex(tests[k].streams, |tests[k].streams|, name)]
    }

    /** Test `k` read the stream, which is as `b` then. */
    ghost predicate ReadThen(turns: seq<Turn>, k: nat, name: string)
      requires k < |turns| && k < |tests|
    {
      && Reads(k, name) && |turns[k].used| == |tests[k].streams| && name in turns[k].loaded
      && Ascending(turns[k].loaded[name].data) && Ascending(turns[k].loaded[name].table)
    }

    /** Test `k` read the stream from `start` on and found rows. */
    ghost predicate StartsWith(turns: seq<Turn>, k: nat, name: string, start: int)
      requires k < |turns| && k < |tests|
    {
      && ReadThen(turns, k, name) && turns[k].loaded[name].kind != Local
      && var range := ReadWith(turns, k, name);
         range.0 == Some(start) && RangeStart(turns[k].loaded[name].data, start, range.1) == {start}
    }

    /** The starts of the upload: those of before, and those that the first `n` tests found rows with. */
    ghost predicate StartsAre(starts: set<int>, origin: set<int>, turns: seq<Turn>, n: nat, name: string)
      requires n <= |turns| && n <= |tests|
    {
      forall start :: start in starts <==>
        start in origin || exists k :: 0 <= k < n && StartsWith(turns, k, name, start)
    }

    /** The labels of a stream after `n` tests: every result lays its labels over those of before, for the rows
        that are cached then. */
    ghost function LabelsAfter(labels: map<int, Label>, turns: seq<Turn>, n: nat, name: string): map<int, Label>
      requires WellFormed() && n <= |turns| && n <= |tests|
    {
      if n == 0 then labels
      else
        var earlier := LabelsAfter(labels, turns, n - 1, name);
        if name in results[n - 1].columns && name in turns[n - 1].loaded then
          earlier + KeptLabels(turns[n - 1].loaded[name].data, results[n - 1].quality[name])
        else earlier
    }

    /** The rows that test `k` read within its range are noted. If the range is closed, those are all stored
        ones, and it gives a start exactly if there are any. */
    ghost predicate RangeNoted(turns: seq<Turn>, k: nat, name: string, table: Frame, times: set<int>)
      requires k < |turns| && k < |tests|
    {
      && ReadThen(turns, k, name)
      && turns[k].loaded[name].kind == Immutable && turns[k].loaded[name].table == table
      && var range := ReadWith(turns, k, name);
         range.0.Some? ==>
           && RowsNoted(turns[k].loaded[name].data, range.0.value, range.1, times)
           && (range.1.Some? ==>
                 && RowsNoted(table, range.0.value, range.1, times)
                 && RangeStart(turns[k].loaded[name].data, range.0.value, range.1)
                    == RangeStart(table, range.0.value, range.1))
    }

    ghost predicate RangesNoted(turns: seq<Turn>, n: nat, name: string, table: Frame, times: set<int>)
      requires n <= |turns| && n <= |tests|
    {
      forall k :: 0 <= k < n && Reads(k, name) ==> RangeNoted(turns, k, name, table, times)
    }

    /** Where a stream stands after `n` tests, measured against how it was first seen. */
    ghost predicate Stands(turns: seq<Turn>, n: nat, name: string)
      requires WellFormed() && n <= |turns| && n <= |tests|
    {
      var known, books := Known(n), StateAt(turns, n);
      && SameOrigin(known, books, name)
      && (name in books && books[name].kind != Local ==>
            && StartsAre(books[name].starts, known[name].starts, turns, n, name)
            && (books[name].kind == Immutable ==>
                  && books[name].labels == LabelsAfter(known[name].labels, turns, n, name)
                  && RangesNoted(turns, n, name, books[name].table, books[name].inRange)))
      && (name !in books ==>
            && LabelsAfter(map[], turns, n, name) == map[]
            && forall k :: 0 <= k < n ==> !Reads(k, name))
    }

    // -------------------------------------------------------------- what is sent

    /** Every row that test `k` read within its range is sent; with a closed range, every stored row of it. */
    ghost predicate RangeSent(turns: seq<Turn>, k: nat, name: string, sent: Frame)
      requires k < |turns| && k < |tests|
    {
      && ReadThen(turns, k, name)
      && var range, b := ReadWith(turns, k, name), turns[k].loaded[name];
         range.0.Some? ==>
           forall row :: row in (if range.1.Some? then b.table else b.data) && Within(row.time, range.0, range.1) ==>
             HasTime(sent, row.time)
    }

    /** No range was settled when test `k` came to the stream, so that it is read with its own. */
    ghost predicate Settles(turns: seq<Turn>, k: nat, name: string)
      requires k < |turns| && k < |tests|
    {
      && Reads(k, name) && |turns[k].used| == |tests[k].streams|
      && RangeBefore(given, turns[k].used, FirstIndex(tests[k].streams, |tests[k].streams|, name)).0.None?
    }

    /** What the whole run sends for a stored stream: its stored rows, under the labels of all results, and none
        in front of every start; of these, every row that some test read within its range, and every unlabelled
        row if the stream settled the range of some test. */
    ghost predicate SentAfter(turns: seq<Turn>, name: string, sent: Frame)
      requires WellFormed() && |turns| == |tests| && name in Known(|tests|)
    {
      var origin := Known(|tests|)[name];
      && (forall row :: row in sent ==>
            exists stored :: stored in origin.table
                          && row == OverlayRow(stored, LabelsAfter(origin.labels, turns, |tests|, name)))
      && (forall row :: row in sent ==> StartedBy(turns, name, row.time))
      && (forall k :: 0 <= k < |tests| && Reads(k, name) ==> RangeSent(turns, k, name, sent))
      && (forall k :: 0 <= k < |tests| && Settles(turns, k, name) ==>
            forall row :: row in origin.table && row.quality.None? ==> HasTime(sent, row.time))
    }

    /** The run is through: every stream stands where the turns leave it, and exactly the streams that are not
        local have sent what they had to. No read was sure to fail. */
    ghost predicate Finished(turns: seq<Turn>, books: Books, sent: map<string, Frame>)
      requires WellFormed()
    {
      && |turns| == |tests| && Traced(turns, |tests|) && books == StateAt(turns, |tests|)
      && (forall m :: Stands(turns, |tests|, m))
      && (forall m :: m in sent <==> m in books && books[m].kind != Local)
      && (forall m :: m in sent ==> SentFrom(books[m], sent[m]))
      && (forall m :: m in sent && books[m].kind == Immutable ==> m in Known(|tests|) && SentAfter(turns, m, sent[m]))
      && (forall k, i :: MayFail(k, i) ==> !Certain(k, i))
      && (forall k :: 0 <= k < |tests| ==>
            && RangesInForce(turns[k].loaded, tests[k].streams, given, turns[k].used)
            && GivenSent(turns[k].loaded, tests[k].streams, given, sent))
    }

    /** The run stopped in the last turn, in a read that may fail. */
    ghost predicate Failed(turns: seq<Turn>, books: Books, e: StreamError)
      requires WellFormed()
    {
      Stopped(turns, books, e) && MayFail(|turns| - 1, |turns[|turns| - 1].used|)
    }

    /** Some start of the upload is at the time or before. */
    ghost predicate StartedBy(turns: seq<Turn>, name: string, t: int)
      requires WellFormed() && |turns| == |tests| && name in Known(|tests|)
    {
      || (exists start :: start in Known(|tests|)[name].starts && start <= t)
      || exists k, start :: 0 <= k < |tests| && StartsWith(turns, k, name, start) && start <= t
    }
  }

  /** The first `n` streams of the test are loaded, and the current range is the one in force. */
  ghost predicate Loading(before: Books, books: Books, test: QcTest, n: nat, storage: StreamInfo -> Frame,
                          given: Range, current: Range, data: map<string, Frame>, turn: Turn)
  {
    && n <= |test.streams| && turn.data == data && turn.loaded == books
    && LoadedUpTo(before, books, test.streams, n, storage, given, test.window, turn.used, data)
    && current == RangeBefore(given, turn.used, n)
  }

  /** Loading ended after some streams of the test: after all of them, or in a read that failed. */
  ghost predicate LoadEnded(before: Books, books: Books, test: QcTest, storage: StreamInfo -> Frame, given: Range,
                            failed: Option<StreamError>, turn: Turn)
  {
    && |turn.used| <= |test.streams|
    && LoadedUpTo(before, turn.loaded, test.streams, |turn.used|, storage, given, test.window, turn.used, turn.data)
    && match failed
       case None => |turn.used| == |test.streams| && turn.loaded == books
       case Some(e) => Broke(turn, books, test, storage, given, e)
  }

  /** A turn stopped in the read of its next stream. */
  ghost predicate Broke(turn: Turn, books: Books, test: QcTest, storage: StreamInfo -> Frame, given: Range,
                        e: StreamError)
  {
    var n := |turn.used|;
    && First(test.streams, n)
    && var info := test.streams[n];
       && info.value in books && books == turn.loaded[info.value := books[info.value]]
       && ReadStep(BookFor(turn.loaded, info, storage), books[info.value],
                   Settle(RangeBefore(given, turn.used, n), OwnRange(books[info.value])), test.window, Err(e))
  }

  /** Stored data with rows that have no label yet. */
  ghost predicate HasUnlabelled(b: Book) {
    b.kind == Immutable && exists row :: row in b.table && row.quality.None?
  }

  /** Which ranges the streams of a test are read with. A given start decides for all of them. Otherwise it is the
      range of the unlabelled rows of the first stream that has any; in front of it there is none. */
  ghost predicate RangesInForce(books: Books, infos: seq<StreamInfo>, given: Range, used: seq<Range>) {
    && |used| <= |infos| && (forall i :: 0 <= i < |used| ==> infos[i].value in books)
    && (given.0.Some? ==> forall i :: 0 <= i < |used| ==> used[i] == given)
    && (given.0.None? ==> forall i :: 0 <= i < |used| ==> SettledAt(books, infos, i, used[i]))
  }

  /** With a given closed range, every stored row of it is sent for every immutable stream that was read. */
  ghost predicate GivenSent(books: Books, infos: seq<StreamInfo>, given: Range, sent: map<string, Frame>) {
    forall i, row :: 0 <= i < |infos| && infos[i].value in books && books[infos[i].value].kind == Immutable &&
                     given.0.Some? && given.1.Some? && row in books[infos[i].value].table &&
                     given.0.value <= row.time <= given.1.value ==>
      infos[i].value in sent && HasTime(sent[infos[i].value], row.time)
  }

  /** None of the first `n` streams has rows without a label. */
  ghost predicate NoneUpTo(books: Books, infos: seq<StreamInfo>, n: nat) {
    forall i :: 0 <= i < n && i < |infos| && infos[i].value in books ==> !HasUnlabelled(books[infos[i].value])
  }

  lemma OwnRangeIs(b: Book)
    requires Ascending(b.table)
    ensures if HasUnlabelled(b) then OwnRange(b).0.Some? && SpansUnlabelled(b.table, OwnRange(b))
            else OwnRange(b) == (None, None)
  {
    OldestIs(b.table);
    NewestIs(b.table);
  }

  /** A stream that is read or passed over, in terms of the range in front of it. */
  lemma RangeAtTurn(before: Books, books: Books, infos: seq<StreamInfo>, n: nat, storage: StreamInfo -> Frame,
                    given: Range, window: Window, used: seq<Range>, data: map<string, Frame>, i: nat)
    requires i < n <= |infos| && LoadedUpTo(before, books, infos, n, storage, given, window, used, data)
    ensures infos[i].value in books
    ensures RangeBefore(given, used, i).0.Some? || !First(infos, i) ==> used[i] == RangeBefore(given, used, i)
    ensures RangeBefore(given, used, i).0.None? && First(infos, i) ==>
              var b := books[infos[i].value];
              if HasUnlabelled(b) then used[i].0.Some? && SpansUnlabelled(b.table, used[i]) else used[i].0.None?
  {
    assert TurnDone(before, books, infos, i, storage, given, window, used, data);
    assert Named(infos, n, infos[i].value);
    if First(infos, i) { OwnRangeIs(books[infos[i].value]); }
  }

  /** The range of the first stream with unlabelled rows is settled from there on. */
  ghost predicate SettledAt(books: Books, infos: seq<StreamInfo>, i: nat, range: Range) {
    && (NoneUpTo(books, infos, i + 1) ==> range.0.None?)
    && forall j :: 0 <= j <= i && j < |infos| && infos[j].value in books && NoneUpTo(books, infos, j) &&
                   HasUnlabelled(books[infos[j].value]) ==>
         range.0.Some? && SpansUnlabelled(books[infos[j].value].table, range)
  }

  lemma {:induction false} GivenInForce(before: Books, books: Books, infos: seq<StreamInfo>, n: nat,
                                        storage: StreamInfo -> Frame, given: Range, window: Window, used: seq<Range>,
                                        data: map<string, Frame>, i: nat)
    requires i < n <= |infos| && LoadedUpTo(before, books, infos, n, storage, given, window, used, data)
    requires given.0.Some?
    ensures used[i] == given
  {
    RangeAtTurn(before, books, infos, n, storage, given, window, used, data, i);
    if i > 0 { GivenInForce(before, books, infos, n, storage, given, window, used, data, i - 1); }
  }

  /** One range after the other. */
  lemma {:induction false} RangeInForce(before: Books, books: Books, infos: seq<StreamInfo>, n: nat,
                                        storage: StreamInfo -> Frame, given: Range, window: Window, used: seq<Range>,
                                        data: map<string, Frame>, i: nat)
    requires i < n <= |infos| && LoadedUpTo(before, books, infos, n, storage, given, window, used, data)
    requires given.0.None?
    ensures SettledAt(books, infos, i, used[i])
  {
    RangeAtTurn(before, books, infos, n, storage, given, window, used, data, i);
    var k := i - 1;
    if i > 0 { RangeInForce(before, books, infos, n, storage, given, window, used, data, k); }
    SettledNext(books, infos, i, if i == 0 then given else used[k], used[i]);
  }

  lemma SettledNext(books: Books, infos: seq<StreamInfo>, i: nat, earlier: Range, range: Range)
    requires i < |infos| && infos[i].value in books
    requires if i == 0 then earlier.0.None? else var k := i - 1; SettledAt(books, infos, k, earlier)
    requires earlier.0.Some? || !First(infos, i) ==> range == earlier
    requires earlier.0.None? && First(infos, i) ==>
               var b := books[infos[i].value];
               if HasUnlabelled(b) then range.0.Some? && SpansUnlabelled(b.table, range) else range.0.None?
    ensures SettledAt(books, infos, i, range)
  {
    if !First(infos, i) {
      var k :| 0 <= k < i && infos[k].value == infos[i].value;
    }
  }

  lemma RangesAreInForce(before: Books, books: Books, infos: seq<StreamInfo>, n: nat, storage: StreamInfo -> Frame,
                         given: Range, window: Window, used: seq<Range>, data: map<string, Frame>)
    requires n <= |infos| && LoadedUpTo(before, books, infos, n, storage, given, window, used, data)
    ensures RangesInForce(books, infos, given, used)
  {
    forall i | 0 <= i < n
      ensures infos[i].value in books && if given.0.Some? then used[i] == given else SettledAt(books, infos, i, used[i])
    {
      RangeAtTurn(before, books, infos, n, storage, given, window, used, data, i);
      if given.0.Some? {
        GivenInForce(before, books, infos, n, storage, given, window, used, data, i);
      } else {
        RangeInForce(before, books, infos, n, storage, given, window, used, data, i);
      }
    }
  }

  /** What loading does to one stream. */
  lemma LoadedIs(before: Books, books: Books, infos: seq<StreamInfo>, n: nat, storage: StreamInfo -> Frame,
                 given: Range, window: Window, used: seq<Range>, data: map<string, Frame>, name: string)
    requires n <= |infos| && LoadedUpTo(before, books, infos, n, storage, given, window, used, data)
    ensures name in books <==> name in before || Named(infos, n, name)
    ensures !Named(infos, n, name) && name in before ==> books[name] == before[name]
    ensures Named(infos, n, name) ==>
              var i := FirstIndex(infos, n, name);
              && name in data
              && ReadStep(BookFor(before, infos[i], storage), books[name], used[i], window, Ok(data[name]))
              && used[i] == Settle(RangeBefore(given, used, i), OwnRange(books[name]))
  {
    if Named(infos, n, name) {
      var i := FirstIndex(infos, n, name);
      assert TurnDone(before, books, infos, i, storage, given, window, used, data);
    }
  }

  lemma LoadKeepsOrigin(known: Books, before: Books, books: Books, infos: seq<StreamInfo>, n: nat,
                        storage: StreamInfo -> Frame, given: Range, window: Window, used: seq<Range>,
                        data: map<string, Frame>, name: string)
    requires n <= |infos| && LoadedUpTo(before, books, infos, n, storage, given, window, used, data)
    requires SameOrigin(known, before, name)
    ensures SameOrigin(LookedUp(known, infos, n, storage), books, name)
  {
    LoadedIs(before, books, infos, n, storage, given, window, used, data, name);
    LookedUpIs(known, infos, n, storage, name);
  }

  lemma StoredIs(books: Books, result: QcResult, m: string)
    requires result.WellFormed()
    ensures var after := Stored(books, result);
            && (m in after <==> m in books || m in result.columns)
            && (m in books ==> SameNotes(books[m], after[m]))
            && (m in after && m !in books ==> after[m].kind == Local && after[m].table == [])
            && (m in books && books[m].kind == Immutable ==>
                  after[m] == if m in result.columns then Relabelled(books[m], result.quality[m]) else books[m])
  {
    UpdatedIs(books, result, |result.columns|, m);
    assert result.columns[..|result.columns|] == result.columns;
  }

  lemma StoreKeepsOrigin(known: Books, books: Books, result: QcResult, name: string)
    requires result.WellFormed() && SameOrigin(known, books, name)
    ensures SameOrigin(Introduced(known, result.columns, |result.columns|), Stored(books, result), name)
  {
    StoredIs(books, result, name);
    IntroducedIs(known, result.columns, |result.columns|, name);
    assert result.columns[..|result.columns|] == result.columns;
  }

  /** The ranges in force while a test is loaded are those foretold. */
  lemma {:induction false} RangesForeseen(known: Books, before: Books, books: Books, infos: seq<StreamInfo>, n: nat,
                                          storage: StreamInfo -> Frame, given: Range, window: Window, used: seq<Range>,
                                          data: map<string, Frame>, i: nat)
    requires i <= n <= |infos| && LoadedUpTo(before, books, infos, n, storage, given, window, used, data)
    requires forall j :: 0 <= j < |infos| ==> infos[j].value in known
    requires forall j :: 0 <= j < n && infos[j].value in books ==>
               SameOrigin(known, books, infos[j].value)
    ensures RangeBefore(given, used, i) == RangeAfter(known, infos, given, i)
  {
    if i > 0 {
      RangesForeseen(known, before, books, infos, n, storage, given, window, used, data, i - 1);
      assert TurnDone(before, books, infos, i - 1, storage, given, window, used, data);
    }
  }

  // ---------------------------------------------------------------- where the streams stand

  lemma StartsLater(job: Job, turns: seq<Turn>, n: nat, name: string, origin: set<int>, earlier: set<int>,
                    starts: set<int>)
    requires n < |turns| && n < |job.tests| && job.StartsAre(earlier, origin, turns, n, name)
    requires forall start :: start in starts <==> start in earlier || job.StartsWith(turns, n, name, start)
    ensures job.StartsAre(starts, origin, turns, n + 1, name)
  {
  }

  /** What a complete turn notes for a stream that it reads. */
  lemma TurnNotes(job: Job, turns: seq<Turn>, n: nat, name: string)
    requires job.WellFormed() && n < |turns| && n < |job.tests| && job.Complete(turns, n) && job.Reads(n, name)
    ensures name in turns[n].loaded
    ensures var infos, b := job.tests[n].streams, turns[n].loaded[name];
            var b0 := BookFor(job.StateAt(turns, n), infos[FirstIndex(infos, |infos|, name)], job.storage);
            && b.kind == b0.kind && b.table == b0.table && b.labels == b0.labels && b0.inRange <= b.inRange
            && (b.kind != Local ==>
                  forall start :: start in b.starts <==> start in b0.starts || job.StartsWith(turns, n, name, start))
            && (b.kind == Immutable ==> job.RangeNoted(turns, n, name, b.table, b.inRange))
  {
    var test, turn := job.tests[n], turns[n];
    LoadedIs(job.StateAt(turns, n), turn.loaded, test.streams, |test.streams|, job.storage, job.given, test.window,
             turn.used, turn.data, name);
  }

  lemma TurnPasses(job: Job, turns: seq<Turn>, n: nat, name: string)
    requires job.WellFormed() && n < |turns| && n < |job.tests| && job.Complete(turns, n) && !job.Reads(n, name)
    ensures name in turns[n].loaded <==> name in job.StateAt(turns, n)
    ensures name in turns[n].loaded ==> turns[n].loaded[name] == job.StateAt(turns, n)[name]
  {
    var test, turn := job.tests[n], turns[n];
    LoadedIs(job.StateAt(turns, n), turn.loaded, test.streams, |test.streams|, job.storage, job.given, test.window,
             turn.used, turn.data, name);
  }

  /** What a stream first seen in test `n` is, and that it stays what it is known as. */
  lemma KnownLater(job: Job, turns: seq<Turn>, n: nat, name: string)
    requires job.WellFormed() && n < |turns| && n < |job.tests| && job.Complete(turns, n)
    requires SameOrigin(job.Known(n), job.StateAt(turns, n), name)
    ensures SameOrigin(job.KnownTo(n), turns[n].loaded, name)
    ensures SameOrigin(job.Known(n + 1), job.StateAt(turns, n + 1), name)
    ensures name in turns[n].loaded && name in job.Known(n + 1) ==>
              job.Known(n + 1)[name] == if name in job.Known(n) then job.Known(n)[name]
              else NewBook(turns[n].loaded[name].kind, turns[n].loaded[name].table)
    ensures name in job.StateAt(turns, n + 1) && name !in turns[n].loaded ==>
              job.StateAt(turns, n + 1)[name].kind == Local
  {
    var test, turn, result := job.tests[n], turns[n], job.results[n];
    LoadKeepsOrigin(job.Known(n), job.StateAt(turns, n), turn.loaded, test.streams, |test.streams|, job.storage,
                    job.given, test.window, turn.used, turn.data, name);
    LookedUpIs(job.Known(n), test.streams, |test.streams|, job.storage, name);
    StoreKeepsOrigin(job.KnownTo(n), turn.loaded, result, name);
    IntroducedIs(job.KnownTo(n), result.columns, |result.columns|, name);
    StoredIs(turn.loaded, result, name);
  }

  /** The starts once a test has loaded its streams. */
  lemma StartsLoaded(job: Job, turns: seq<Turn>, n: nat, name: string)
    requires job.WellFormed() && n < |turns| && n < |job.tests| && job.Complete(turns, n)
    requires job.Stands(turns, n, name)
    requires name in turns[n].loaded && turns[n].loaded[name].kind != Local
    ensures name in job.Known(n) ==>
              job.StartsAre(turns[n].loaded[name].starts, job.Known(n)[name].starts, turns, n + 1, name)
    ensures name !in job.Known(n) ==> job.StartsAre(turns[n].loaded[name].starts, {}, turns, n + 1, name)
  {
    if job.Reads(n, name) { TurnNotes(job, turns, n, name); } else { TurnPasses(job, turns, n, name); }
    var starts := turns[n].loaded[name].starts;
    if name in job.Known(n) {
      StartsLater(job, turns, n, name, job.Known(n)[name].starts, job.StateAt(turns, n)[name].starts, starts);
    } else {
      StartsLater(job, turns, n, name, {}, {}, starts);
    }
  }

  /** The labels once a test has loaded its streams are still those of before. */
  lemma LabelsLoaded(job: Job, turns: seq<Turn>, n: nat, name: string)
    requires job.WellFormed() && n < |turns| && n < |job.tests| && job.Complete(turns, n)
    requires job.Stands(turns, n, name)
    requires name in turns[n].loaded && turns[n].loaded[name].kind == Immutable
    ensures var origin := if name in job.Known(n) then job.Known(n)[name].labels else map[];
            turns[n].loaded[name].labels == job.LabelsAfter(origin, turns, n, name)
  {
    if job.Reads(n, name) { TurnNotes(job, turns, n, name); } else { TurnPasses(job, turns, n, name); }
  }

  lemma RangesLoaded(job: Job, turns: seq<Turn>, n: nat, name: string)
    requires job.WellFormed() && n < |turns| && n < |job.tests| && job.Complete(turns, n)
    requires job.Stands(turns, n, name)
    requires name in turns[n].loaded && turns[n].loaded[name].kind == Immutable
    ensures job.RangesNoted(turns, n + 1, name, turns[n].loaded[name].table, turns[n].loaded[name].inRange)
  {
    var b := turns[n].loaded[name];
    if job.Reads(n, name) { TurnNotes(job, turns, n, name); } else { TurnPasses(job, turns, n, name); }
    forall k | 0 <= k < n + 1 && job.Reads(k, name) ensures job.RangeNoted(turns, k, name, b.table, b.inRange) {
      if k < n {
        var earlier := job.StateAt(turns, n)[name];
        assert job.RangeNoted(turns, k, name, earlier.table, earlier.inRange);
      }
    }
  }

  /** One stream after one more test. */
  lemma StandsAfterTest(job: Job, turns: seq<Turn>, n: nat, next: nat, name: string)
    requires job.WellFormed() && n < |turns| && n < |job.tests| && job.Complete(turns, n)
    requires job.Stands(turns, n, name) && next == n + 1
    ensures job.Stands(turns, next, name)
  {
    KnownLater(job, turns, n, name);
    StoredIs(turns[n].loaded, job.results[n], name);
    if name in turns[n].loaded {
      var b := turns[n].loaded[name];
      if b.kind != Local { StartsLoaded(job, turns, n, name); }
      if b.kind == Immutable {
        LabelsLoaded(job, turns, n, name);
        RangesLoaded(job, turns, n, name);
      }
    } else if job.Reads(n, name) {
      TurnNotes(job, turns, n, name);
    } else {
      TurnPasses(job, turns, n, name);
    }
  }

  lemma StandsAtFirst(job: Job, turns: seq<Turn>, name: string)
    requires job.WellFormed()
    ensures job.Stands(turns, 0, name)
  {
    if name in job.before {
      assert job.StartsAre(job.before[name].starts, job.before[name].starts, turns, 0, name);
    }
  }

  lemma {:induction false} StandsAfter(job: Job, turns: seq<Turn>, n: nat, name: string)
    requires job.WellFormed() && n <= |turns| && n <= |job.tests| && job.Traced(turns, n)
    ensures job.Stands(turns, n, name)
  {
    if n == 0 {
      StandsAtFirst(job, turns, name);
    } else {
      var k := n - 1;
      StandsAfter(job, turns, k, name);
      assert job.Complete(turns, k);
      StandsAfterTest(job, turns, k, n, name);
    }
  }

  // ---------------------------------------------------------------- what is sent

  lemma NotedIsSent(rows: Frame, start: int, end: Option<int>, times: set<int>, sent: Frame, row: Row)
    requires Ascending(rows) && RowsNoted(rows, start, end, times)
    requires forall t :: t in times ==> HasTime(sent, t)
    requires row in rows && Within(row.time, Some(start), end)
    ensures HasTime(sent, row.time)
  {
    LocIsTheRange(rows, Some(start), end, row);
  }

  lemma RangeIsSent(job: Job, turns: seq<Turn>, k: nat, name: string, table: Frame, times: set<int>, sent: Frame)
    requires k < |turns| && k < |job.tests| && job.RangeNoted(turns, k, name, table, times)
    requires forall t :: t in times ==> HasTime(sent, t)
    ensures job.RangeSent(turns, k, name, sent)
  {
    var range, b := job.ReadWith(turns, k, name), turns[k].loaded[name];
    if range.0.Some? {
      var rows := if range.1.Some? then b.table else b.data;
      forall row | row in rows && Within(row.time, range.0, range.1) ensures HasTime(sent, row.time) {
        NotedIsSent(rows, range.0.value, range.1, times, sent, row);
      }
    }
  }

  /** The stream's own range spans all its unlabelled rows. */
  lemma OwnRangeIsSent(job: Job, turns: seq<Turn>, k: nat, name: string, sent: Frame, row: Row)
    requires job.WellFormed() && k < |turns| && k < |job.tests| && job.Complete(turns, k)
    requires job.Settles(turns, k, name) && job.RangeSent(turns, k, name, sent)
    requires turns[k].loaded[name].kind == Immutable
    requires row in turns[k].loaded[name].table && row.quality.None?
    ensures HasTime(sent, row.time)
  {
    var test, turn := job.tests[k], turns[k];
    var table := turn.loaded[name].table;
    LoadedIs(job.StateAt(turns, k), turn.loaded, test.streams, |test.streams|, job.storage, job.given, test.window,
             turn.used, turn.data, name);
    OldestIs(table);
    NewestIs(table);
    assert job.ReadWith(turns, k, name) == (OldestUnlabelled(table), NewestUnlabelled(table));
  }

  /** What is sent follows from where the stream stands. */
  lemma StandingIsSent(job: Job, turns: seq<Turn>, name: string, sent: Frame)
    requires job.WellFormed() && |turns| == |job.tests| && job.Traced(turns, |turns|)
    requires name in job.StateAt(turns, |turns|) && job.StateAt(turns, |turns|)[name].kind == Immutable
    requires SentFrom(job.StateAt(turns, |turns|)[name], sent)
    ensures name in job.Known(|turns|) && job.SentAfter(turns, name, sent)
  {
    var n := |turns|;
    StandsAfter(job, turns, n, name);
    var b, origin := job.StateAt(turns, n)[name], job.Known(n)[name];
    forall row | row in sent ensures job.StartedBy(turns, name, row.time) {
      assert row in b.data && b.starts != {};
      var start :| start in b.starts && start <= row.time;
    }
    forall k | 0 <= k < n && job.Reads(k, name) ensures job.RangeSent(turns, k, name, sent) {
      RangeIsSent(job, turns, k, name, b.table, b.inRange, sent);
    }
    forall k, row | 0 <= k < n && job.Settles(turns, k, name) && row in origin.table && row.quality.None?
      ensures HasTime(sent, row.time)
    {
      assert job.Complete(turns, k) && job.RangeNoted(turns, k, name, b.table, b.inRange);
      OwnRangeIsSent(job, turns, k, name, sent, row);
    }
  }

  /** Without a given range the first stream of a test settles it: none of its unlabelled rows is left out. */
  lemma NoneLeftUnlabelled(job: Job, turns: seq<Turn>, books: Books, sent: map<string, Frame>, k: nat, row: Row)
    requires job.WellFormed() && job.Finished(turns, books, sent) && job.given.0.None?
    requires k < |job.tests| && job.tests[k].streams != []
    requires var name := job.tests[k].streams[0].value;
             name in sent && books[name].kind == Immutable && row in books[name].table && row.quality.None?
    ensures HasTime(sent[job.tests[k].streams[0].value], row.time)
  {
    var infos := job.tests[k].streams;
    var name := infos[0].value;
    assert First(infos, 0);
    FirstIsIndex(infos, |infos|, 0);
    assert job.Complete(turns, k) && job.Stands(turns, |turns|, name);
    assert job.Settles(turns, k, name);
  }

  lemma ReadEnds(table: Frame, lo: nat, start: int, end: int, window: Window, row: Row)
    requires Ascending(table)
    requires Read(table, lo, start, Some(end), window).Ok? && row in Read(table, lo, start, Some(end), window).value
    ensures row.time <= end
  {
    LocIsTheRange(table, Some(start), Some(end), row);
    if window.Duration? { LocIsTheRange(table, Some(start - window.d), Some(end), row); }
    if window.Count? {
      InsertionPoints(table, end);
      var i :| 0 <= i < |table| && table[i] == row && i < UpTo(table, end);
    }
  }

  lemma AnswerEnds(table: Frame, span: Span, labels: map<int, Label>, start: int, end: int, window: Window,
                   frame: Frame, row: Row)
    requires ReadsSpan(table, span, labels, start, Some(end), window, Ok(frame)) && row in frame
    ensures row.time <= end
  {
    var lo := WidenedLo(table, span.Warm(), span.lo, start);
    var rows := Read(table, lo, start, Some(end), window).value;
    var i :| 0 <= i < |frame| && frame[i] == row;
    ReadEnds(table, lo, start, end, window, rows[i]);
  }

  /** What a read of stored data answers is cached, and ends with the range. */
  lemma AnswerIsCached(b0: Book, b: Book, range: Range, window: Window, frame: Frame, row: Row)
    requires ReadStep(b0, b, range, window, Ok(frame)) && b.kind == Immutable && row in frame
    ensures ShowsTable(b) && HasTime(b.data, row.time) && (range.1.Some? ==> row.time <= range.1.value)
  {
    if range.1.Some? { AnswerEnds(b.table, b0.span, b.labels, range.0.value, range.1.value, window, frame, row); }
  }

  /** A stream that test `k` read has cached what the test loaded of it, up to the end of the range. */
  lemma LoadedIsCached(job: Job, turns: seq<Turn>, k: nat, name: string, row: Row)
    requires job.WellFormed() && k < |turns| && k < |job.tests| && job.Complete(turns, k) && job.Reads(k, name)
    requires name in turns[k].data && row in turns[k].data[name]
    requires name in turns[k].loaded && turns[k].loaded[name].kind == Immutable
    ensures ShowsTable(turns[k].loaded[name]) && HasTime(turns[k].loaded[name].data, row.time)
    ensures job.ReadWith(turns, k, name).1.Some? ==> row.time <= job.ReadWith(turns, k, name).1.value
  {
    var test, turn := job.tests[k], turns[k];
    var infos := test.streams;
    LoadedIs(job.StateAt(turns, k), turn.loaded, infos, |infos|, job.storage, job.given, test.window, turn.used,
             turn.data, name);
    AnswerIsCached(BookFor(job.StateAt(turns, k), infos[FirstIndex(infos, |infos|, name)], job.storage),
                   turn.loaded[name], job.ReadWith(turns, k, name), test.window, turn.data[name], row);
  }

  /** Loading a test drops nothing from what is cached. */
  lemma LoadingKeepsTimes(job: Job, turns: seq<Turn>, k: nat, name: string, t: int)
    requires job.WellFormed() && k < |turns| && k < |job.tests| && job.Complete(turns, k)
    requires name in job.StateAt(turns, k) && HasTime(job.StateAt(turns, k)[name].data, t)
    ensures name in turns[k].loaded && turns[k].loaded[name].kind == job.StateAt(turns, k)[name].kind
    ensures HasTime(turns[k].loaded[name].data, t)
  {
    var test, turn := job.tests[k], turns[k];
    LoadedIs(job.StateAt(turns, k), turn.loaded, test.streams, |test.streams|, job.storage, job.given, test.window,
             turn.used, turn.data, name);
  }

  /** A cached row of stored data stays cached from test to test. */
  lemma {:induction false} CachedStays(job: Job, turns: seq<Turn>, i: nat, k: nat, name: string, t: int)
    requires job.WellFormed() && i <= k < |turns| && k < |job.tests| && job.Traced(turns, k + 1)
    requires name in turns[i].loaded && turns[i].loaded[name].kind == Immutable
    requires HasTime(turns[i].loaded[name].data, t)
    ensures name in turns[k].loaded && turns[k].loaded[name].kind == Immutable
    ensures HasTime(turns[k].loaded[name].data, t)
  {
    if i < k {
      var n := k - 1;
      CachedStays(job, turns, i, n, name, t);
      StoredIs(turns[n].loaded, job.results[n], name);
      if name in job.results[n].columns {
        SameTimes(turns[n].loaded[name].data, job.results[n].quality[name], t);
      }
      assert job.Complete(turns, k);
      LoadingKeepsTimes(job, turns, k, name, t);
    }
  }

  /** What the end of a run says of a stream that test `k` read. */
  lemma EndOfStream(job: Job, turns: seq<Turn>, books: Books, sent: map<string, Frame>, k: nat, name: string)
    requires job.WellFormed() && job.Finished(turns, books, sent) && k < |job.tests| && job.Reads(k, name)
    requires name in sent && books[name].kind == Immutable
    ensures job.Complete(turns, k) && name in job.Known(|turns|)
    ensures job.SentAfter(turns, name, sent[name]) && job.RangeSent(turns, k, name, sent[name])
    ensures name in turns[k].loaded && turns[k].loaded[name].kind == Immutable
  {
    assert job.Stands(turns, |turns|, name) && job.RangeNoted(turns, k, name, books[name].table, books[name].inRange);
  }

  /** A row that test `i` loads within its range is sent, and the label sent with it is the one that the result
      of this or of a later test `k` gives to it, unless a still later result relabels it. */
  lemma LabelIsSent(job: Job, turns: seq<Turn>, books: Books, sent: map<string, Frame>, i: nat, k: nat, name: string,
                    loaded: Row) returns (row: Row)
    requires job.WellFormed() && job.Finished(turns, books, sent) && i <= k < |job.tests|
    requires name in sent && books[name].kind == Immutable
    requires job.Reads(i, name) && name in turns[i].data && loaded in turns[i].data[name]
    requires |turns[i].used| == |job.tests[i].streams| && job.ReadWith(turns, i, name).0.Some?
    requires job.ReadWith(turns, i, name).0.value <= loaded.time
    requires name in job.results[k].columns && loaded.time in job.results[k].quality[name]
    requires forall j :: k < j < |turns| && name in job.results[j].columns ==>
               loaded.time !in job.results[j].quality[name]
    ensures row in sent[name] && row.time == loaded.time
    ensures row.quality == job.results[k].quality[name][loaded.time]
  {
    EndOfStream(job, turns, books, sent, i, name);
    LoadedIsCached(job, turns, i, name, loaded);
    LoadedIsSent(job, turns, i, name, sent[name], loaded.time);
    CachedStays(job, turns, i, k, name, loaded.time);
    var at :| 0 <= at < |sent[name]| && sent[name][at].time == loaded.time;
    row := sent[name][at];
    SentLabel(job, turns, k, name, sent[name], row);
  }

  lemma SentLabel(job: Job, turns: seq<Turn>, k: nat, name: string, sent: Frame, row: Row)
    requires job.WellFormed() && k < |turns| == |job.tests| && name in job.Known(|turns|)
    requires job.SentAfter(turns, name, sent) && row in sent
    requires name in job.results[k].columns && row.time in job.results[k].quality[name]
    requires name in turns[k].loaded && HasTime(turns[k].loaded[name].data, row.time)
    requires forall j :: k < j < |turns| && name in job.results[j].columns ==> row.time !in job.results[j].quality[name]
    ensures row.quality == job.results[k].quality[name][row.time]
  {
    LabelStays(job, turns, k, |turns|, name, job.Known(|turns|)[name].labels, row.time);
  }

  lemma LoadedIsSent(job: Job, turns: seq<Turn>, k: nat, name: string, sent: Frame, t: int)
    requires k < |turns| && k < |job.tests| && job.RangeSent(turns, k, name, sent)
    requires ShowsTable(turns[k].loaded[name]) && turns[k].loaded[name].kind == Immutable
    requires HasTime(turns[k].loaded[name].data, t)
    requires job.ReadWith(turns, k, name).0.Some?
    requires Within(t, job.ReadWith(turns, k, name).0, job.ReadWith(turns, k, name).1)
    ensures HasTime(sent, t)
  {
    var b := turns[k].loaded[name];
    var i :| 0 <= i < |b.data| && b.data[i].time == t;
    assert b.data[i] in b.data && b.table[b.span.lo + i] in b.table && b.table[b.span.lo + i].time == t;
  }

  lemma {:induction false} LabelStays(job: Job, turns: seq<Turn>, k: nat, n: nat, name: string,
                                      labels: map<int, Label>, t: int)
    requires job.WellFormed() && k < n <= |turns| && n <= |job.tests|
    requires name in job.results[k].columns && t in job.results[k].quality[name]
    requires name in turns[k].loaded && HasTime(turns[k].loaded[name].data, t)
    requires forall j :: k < j < n && name in job.results[j].columns ==> t !in job.results[j].quality[name]
    ensures t in job.LabelsAfter(labels, turns, n, name)
    ensures job.LabelsAfter(labels, turns, n, name)[t] == job.results[k].quality[name][t]
  {
    if k < n - 1 { LabelStays(job, turns, k, n - 1, name, labels, t); }
  }

  // ---------------------------------------------------------------- nothing is left open

  ghost predicate SameStored(a: Book, b: Book) {
    && a.kind == b.kind && a.table == b.table && a.mirrors == b.mirrors && a.span == b.span && a.data == b.data
    && a.labels == b.labels && a.starts == b.starts
  }

  lemma ReadIsDetermined(a0: Book, a: Book, b0: Book, b: Book, range: Range, window: Window, ra: Frame, rb: Frame)
    requires SameStored(a0, b0) && a0.kind == Immutable
    requires ReadStep(a0, a, range, window, Ok(ra)) && ReadStep(b0, b, range, window, Ok(rb))
    ensures SameStored(a, b) && ra == rb
  {
  }

  /** The range of a read is the one foretold. */
  lemma ReadWithIs(job: Job, turns: seq<Turn>, k: nat, name: string)
    requires job.WellFormed() && k < |turns| && k < |job.tests| && job.Traced(turns, k) && job.Complete(turns, k)
    requires job.Reads(k, name)
    ensures job.ReadWith(turns, k, name)
         == RangeAfter(job.KnownTo(k), job.tests[k].streams, job.given,
                       FirstIndex(job.tests[k].streams, |job.tests[k].streams|, name) + 1)
  {
    RangesKnown(job, turns, k, FirstIndex(job.tests[k].streams, |job.tests[k].streams|, name) + 1);
  }

  lemma LoadIsDetermined(job: Job, s: seq<Turn>, t: seq<Turn>, k: nat, name: string)
    requires job.WellFormed() && k < |s| && k < |t| && k < |job.tests|
    requires job.Traced(s, k) && job.Traced(t, k) && job.Complete(s, k) && job.Complete(t, k)
    requires name in job.StateAt(s, k) <==> name in job.StateAt(t, k)
    requires name in job.StateAt(s, k) && job.StateAt(s, k)[name].kind == Immutable ==>
               SameStored(job.StateAt(s, k)[name], job.StateAt(t, k)[name])
    ensures name in s[k].loaded <==> name in t[k].loaded
    ensures name in s[k].loaded && s[k].loaded[name].kind == Immutable ==>
              && SameStored(s[k].loaded[name], t[k].loaded[name])
              && (job.Reads(k, name) ==>
                    name in s[k].data && name in t[k].data && s[k].data[name] == t[k].data[name])
  {
    var test := job.tests[k];
    var infos := test.streams;
    LoadedIs(job.StateAt(s, k), s[k].loaded, infos, |infos|, job.storage, job.given, test.window, s[k].used, s[k].data,
             name);
    LoadedIs(job.StateAt(t, k), t[k].loaded, infos, |infos|, job.storage, job.given, test.window, t[k].used, t[k].data,
             name);
    if job.Reads(k, name) && s[k].loaded[name].kind == Immutable {
      ReadWithIs(job, s, k, name);
      ReadWithIs(job, t, k, name);
      var info := infos[FirstIndex(infos, |infos|, name)];
      ReadIsDetermined(BookFor(job.StateAt(s, k), info, job.storage), s[k].loaded[name],
                       BookFor(job.StateAt(t, k), info, job.storage), t[k].loaded[name],
                       job.ReadWith(s, k, name), test.window, s[k].data[name], t[k].data[name]);
    }
  }

  lemma {:induction false} StreamIsDetermined(job: Job, s: seq<Turn>, t: seq<Turn>, n: nat, name: string)
    requires job.WellFormed() && n <= |s| && n <= |t| && n <= |job.tests| && job.Traced(s, n) && job.Traced(t, n)
    ensures name in job.StateAt(s, n) <==> name in job.StateAt(t, n)
    ensures name in job.StateAt(s, n) && job.StateAt(s, n)[name].kind == Immutable ==>
              SameStored(job.StateAt(s, n)[name], job.StateAt(t, n)[name])
  {
    if n > 0 {
      var k := n - 1;
      StreamIsDetermined(job, s, t, k, name);
      assert job.Complete(s, k) && job.Complete(t, k);
      LoadIsDetermined(job, s, t, k, name);
      StoredIs(s[k].loaded, job.results[k], name);
      StoredIs(t[k].loaded, job.results[k], name);
    }
  }

  /** What a run sends for stored data follows from the streams in front of it, the tests, their results and
      the range: two runs of one job that get through send the same rows under the same labels. */
  lemma RunIsDetermined(job: Job, s: seq<Turn>, a: Books, sentA: map<string, Frame>,
                        t: seq<Turn>, b: Books, sentB: map<string, Frame>, name: string)
    requires job.WellFormed() && job.Finished(s, a, sentA) && job.Finished(t, b, sentB)
    requires name in sentA && a[name].kind == Immutable
    ensures name in sentB && sentB[name] == sentA[name]
  {
    StreamIsDetermined(job, s, t, |job.tests|, name);
    assert SameStored(a[name], b[name]);
    AscendingIsUnique(sentA[name], sentB[name]);
  }

  // ---------------------------------------------------------------- when a run fails

  lemma {:induction false} FirstIsIndex(infos: seq<StreamInfo>, n: nat, i: nat)
    requires i < n <= |infos| && First(infos, i)
    ensures Named(infos, n, infos[i].value) && FirstIndex(infos, n, infos[i].value) == i
  {
    if i < n - 1 { FirstIsIndex(infos, n - 1, i); }
  }

  /** What a test has loaded are the streams that are known by then. */
  lemma LoadedIsKnown(job: Job, turns: seq<Turn>, k: nat, name: string)
    requires job.WellFormed() && k < |turns| && k < |job.tests| && job.Took(turns, k)
    requires SameOrigin(job.Known(k), job.StateAt(turns, k), name) && name in turns[k].loaded
    ensures SameOrigin(job.KnownTo(k), turns[k].loaded, name)
  {
    var infos, turn := job.tests[k].streams, turns[k];
    LoadedIs(job.StateAt(turns, k), turn.loaded, infos, |turn.used|, job.storage, job.given, job.tests[k].window,
             turn.used, turn.data, name);
    LookedUpIs(job.Known(k), infos, |infos|, job.storage, name);
    if name !in job.Known(k) { FirstIsIndex(infos, |infos|, FirstIndex(infos, |turn.used|, name)); }
  }

  lemma RangesKnown(job: Job, turns: seq<Turn>, k: nat, i: nat)
    requires job.WellFormed() && k < |turns| && k < |job.tests| && job.Traced(turns, k) && job.Took(turns, k)
    requires i <= |turns[k].used|
    ensures RangeBefore(job.given, turns[k].used, i) == RangeAfter(job.KnownTo(k), job.tests[k].streams, job.given, i)
  {
    var infos, turn := job.tests[k].streams, turns[k];
    forall j | 0 <= j < |turn.used| && infos[j].value in turn.loaded
      ensures SameOrigin(job.KnownTo(k), turn.loaded, infos[j].value)
    {
      StandsAfter(job, turns, k, infos[j].value);
      LoadedIsKnown(job, turns, k, infos[j].value);
    }
    RangesForeseen(job.KnownTo(k), job.StateAt(turns, k), turn.loaded, infos, |turn.used|, job.storage, job.given,
                   job.tests[k].window, turn.used, turn.data, i);
  }

  /** A run that stops does so in a read that may fail. */
  lemma StoppedWhereItMay(job: Job, turns: seq<Turn>, books: Books, e: StreamError)
    requires job.WellFormed() && job.Stopped(turns, books, e)
    ensures job.MayFail(|turns| - 1, |turns[|turns| - 1].used|)
  {
    var k := |turns| - 1;
    var infos, turn := job.tests[k].streams, turns[k];
    var i := |turn.used|;
    var name := infos[i].value;
    StandsAfter(job, turns, k, name);
    if name in turn.loaded {
      LoadedIsKnown(job, turns, k, name);
    } else {
      LoadedIs(job.StateAt(turns, k), turn.loaded, infos, i, job.storage, job.given, job.tests[k].window, turn.used,
               turn.data, name);
      LookedUpIs(job.Known(k), infos, |infos|, job.storage, name);
      FirstIsIndex(infos, |infos|, i);
    }
    RangesKnown(job, turns, k, i);
  }

  /** A test that loads all its streams has no read that is sure to fail. */
  lemma PassedNoFailure(job: Job, turns: seq<Turn>, k: nat, i: nat)
    requires job.WellFormed() && k < |turns| && k < |job.tests| && job.Traced(turns, k) && job.Complete(turns, k)
    requires job.MayFail(k, i)
    ensures !job.Certain(k, i)
  {
    var infos, turn := job.tests[k].streams, turns[k];
    var name := infos[i].value;
    DidNotFail(job, turns, k, i);
    StandsAfter(job, turns, k, name);
    LoadedIsKnown(job, turns, k, name);
    RangesKnown(job, turns, k, i + 1);
  }

  lemma DidNotFail(job: Job, turns: seq<Turn>, k: nat, i: nat)
    requires job.WellFormed() && k < |turns| && k < |job.tests| && job.Complete(turns, k)
    requires First(job.tests[k].streams, i)
    ensures var name, range := job.tests[k].streams[i].value, turns[k].used[i];
            && name in turns[k].loaded
            && var b := turns[k].loaded[name];
               b.kind == Immutable && range.0.Some? && range.1.Some? ==>
                 Ascending(b.table) && !NoneToCount(b.table, range.0.value, range.1, job.tests[k].window)
  {
    var infos, turn := job.tests[k].streams, turns[k];
    FirstIsIndex(infos, |infos|, i);
    LoadedIs(job.StateAt(turns, k), turn.loaded, infos, |infos|, job.storage, job.given, job.tests[k].window,
             turn.used, turn.data, infos[i].value);
  }

  lemma {:induction false} KnownGrows(job: Job, k: nat, n: nat, name: string)
    requires job.WellFormed() && k < n <= |job.tests| && name in job.KnownTo(k)
    ensures name in job.Known(n) && job.Known(n)[name] == job.KnownTo(k)[name]
  {
    var infos, columns := job.tests[n - 1].streams, job.results[n - 1].columns;
    if k < n - 1 {
      KnownGrows(job, k, n - 1, name);
      LookedUpIs(job.Known(n - 1), infos, |infos|, job.storage, name);
    }
    IntroducedIs(job.KnownTo(n - 1), columns, |columns|, name);
  }

  lemma {:induction false} RangeIsClosed(known: Books, infos: seq<StreamInfo>, given: Range, n: nat)
    requires n <= |infos| && forall i :: 0 <= i < |infos| ==> infos[i].value in known
    requires given.0.Some? ==> given.1.Some?
    ensures RangeAfter(known, infos, given, n).0.Some? ==> RangeAfter(known, infos, given, n).1.Some?
  {
    if n > 0 {
      RangeIsClosed(known, infos, given, n - 1);
      var b := known[infos[n - 1].value];
      UnprocessedEnds(b.kind, b.table);
    }
  }

  /** Without products and open ends, what may fail does. */
  lemma FailuresAreCertain(job: Job, k: nat, i: nat)
    requires job.WellFormed() && job.Foreseeable() && job.MayFail(k, i)
    ensures job.Certain(k, i)
  {
    var infos := job.tests[k].streams;
    KnownGrows(job, k, |job.tests|, infos[i].value);
    RangeIsClosed(job.KnownTo(k), infos, job.given, i + 1);
  }

  lemma SameState(job: Job, turns: seq<Turn>, more: seq<Turn>, k: nat)
    requires job.WellFormed() && k <= |turns| && k <= |job.tests| && turns <= more
    ensures job.StateAt(more, k) == job.StateAt(turns, k)
  {
  }

  lemma TracedOn(job: Job, turns: seq<Turn>, turn: Turn)
    requires job.WellFormed() && |turns| < |job.tests| && job.Traced(turns, |turns|)
    ensures job.Traced(turns + [turn], |turns|)
  {
    var more := turns + [turn];
    forall k | 0 <= k < |turns| ensures job.Complete(more, k) {
      SameState(job, turns, more, k);
      assert job.Complete(turns, k);
    }
  }

  /** One more turn: it takes the run to the next test, or stops it. */
  lemma OneMoreTurn(job: Job, turns: seq<Turn>, turn: Turn, books0: Books, books: Books, failed: Option<StreamError>)
    requires job.WellFormed() && |turns| < |job.tests| && job.Traced(turns, |turns|)
    requires books0 == job.StateAt(turns, |turns|)
    requires LoadEnded(books0, books, job.tests[|turns|], job.storage, job.given, failed, turn)
    ensures var n, more := |turns|, turns + [turn];
            && job.StateAt(more, |more|) == Stored(turn.loaded, job.results[n])
            && (failed.None? ==> job.Traced(more, |more|) && turn.loaded == books)
            && (failed.Some? ==> job.Stopped(more, books, failed.value))
  {
    var n, more := |turns|, turns + [turn];
    SameState(job, turns, more, n);
    TracedOn(job, turns, turn);
    assert job.Took(more, n);
    if failed.None? {
      forall k | 0 <= k < |more| ensures job.Complete(more, k) {
      }
    }
  }

  lemma NoSureFailure(job: Job, turns: seq<Turn>)
    requires job.WellFormed() && |turns| == |job.tests| && job.Traced(turns, |turns|)
    ensures forall k, i :: job.MayFail(k, i) ==> !job.Certain(k, i)
  {
    forall k: nat, i: nat | job.MayFail(k, i) ensures !job.Certain(k, i) {
      assert job.Complete(turns, k);
      PassedNoFailure(job, turns, k, i);
    }
  }

  lemma GivenIsSent(job: Job, turns: seq<Turn>, books: Books, sent: map<string, Frame>, k: nat)
    requires job.WellFormed() && |turns| == |job.tests| && job.Traced(turns, |turns|) && k < |turns|
    requires books == job.StateAt(turns, |turns|) && job.Complete(turns, k)
    requires forall m :: m in sent <==> m in books && books[m].kind != Local
    requires forall m :: m in sent && books[m].kind == Immutable ==>
               m in job.Known(|turns|) && job.SentAfter(turns, m, sent[m])
    requires forall m :: job.Stands(turns, |turns|, m)
    requires RangesInForce(turns[k].loaded, job.tests[k].streams, job.given, turns[k].used)
    ensures GivenSent(turns[k].loaded, job.tests[k].streams, job.given, sent)
  {
    var infos := job.tests[k].streams;
    forall i, row | 0 <= i < |infos| && infos[i].value in turns[k].loaded &&
                    turns[k].loaded[infos[i].value].kind == Immutable &&
                    job.given.0.Some? && job.given.1.Some? && row in turns[k].loaded[infos[i].value].table &&
                    job.given.0.value <= row.time <= job.given.1.value
      ensures infos[i].value in sent && HasTime(sent[infos[i].value], row.time)
    {
      var name := infos[i].value;
      assert Named(infos, |infos|, name);
      LoadedStays(job, turns, k, name);
      assert job.RangeSent(turns, k, name, sent[name]);
    }
  }

  /** A stream that was loaded is there at the end. */
  lemma {:induction false} LoadedStaysUpTo(job: Job, turns: seq<Turn>, k: nat, n: nat, name: string)
    requires job.WellFormed() && k < n <= |turns| && n <= |job.tests| && job.Traced(turns, n)
    requires name in turns[k].loaded
    ensures name in job.StateAt(turns, n) && job.StateAt(turns, n)[name].kind == turns[k].loaded[name].kind
  {
    var last := n - 1;
    if k < last {
      LoadedStaysUpTo(job, turns, k, last, name);
      assert job.Complete(turns, last);
      var test, turn := job.tests[last], turns[last];
      LoadedIs(job.StateAt(turns, last), turn.loaded, test.streams, |test.streams|, job.storage, job.given,
               test.window, turn.used, turn.data, name);
    }
    StoredIs(turns[last].loaded, job.results[last], name);
  }

  lemma LoadedStays(job: Job, turns: seq<Turn>, k: nat, name: string)
    requires job.WellFormed() && k < |turns| == |job.tests| && job.Traced(turns, |turns|) && name in turns[k].loaded
    ensures name in job.StateAt(turns, |turns|)
    ensures job.StateAt(turns, |turns|)[name].kind == turns[k].loaded[name].kind
  {
    LoadedStaysUpTo(job, turns, k, |turns|, name);
  }

  /** The end of a run that got through all tests. */
  lemma Finishes(job: Job, turns: seq<Turn>, books: Books, sent: map<string, Frame>)
    requires job.WellFormed() && |turns| == |job.tests| && job.Traced(turns, |turns|)
    requires books == job.StateAt(turns, |turns|)
    requires forall m :: m in sent <==> m in books && books[m].kind != Local
    requires forall m :: m in sent ==> SentFrom(books[m], sent[m])
    ensures job.Finished(turns, books, sent)
  {
    NoSureFailure(job, turns);
    forall m ensures job.Stands(turns, |turns|, m) {
      StandsAfter(job, turns, |turns|, m);
    }
    forall m | m in sent && books[m].kind == Immutable
      ensures m in job.Known(|turns|) && job.SentAfter(turns, m, sent[m])
    {
      StandingIsSent(job, turns, m, sent[m]);
    }
    forall k | 0 <= k < |turns|
      ensures RangesInForce(turns[k].loaded, job.tests[k].streams, job.given, turns[k].used)
      ensures GivenSent(turns[k].loaded, job.tests[k].streams, job.given, sent)
    {
      var test, turn := job.tests[k], turns[k];
      assert job.Complete(turns, k);
      RangesAreInForce(job.StateAt(turns, k), turn.loaded, test.streams, |test.streams|, job.storage, job.given,
                       test.window, turn.used, turn.data);
      GivenIsSent(job, turns, books, sent, k);
    }
  }

  /** Without products and open ends it is known before whether a run gets through. */
  lemma EndIsForeseen(job: Job, turns: seq<Turn>, books: Books, r: Result<map<string, Frame>, StreamError>)
    requires job.WellFormed() && job.Foreseeable()
    requires r.Ok? ==> job.Finished(turns, books, r.value)
    requires r.Err? ==> job.Failed(turns, books, r.error)
    ensures r.Ok? <==> forall k, i :: !job.MayFail(k, i)
  {
    if r.Ok? {
      forall k: nat, i: nat ensures !job.MayFail(k, i) {
        if job.MayFail(k, i) { FailuresAreCertain(job, k, i); }
      }
    }
  }

  lemma Overwritten(books: Books, name: string, b: Book, c: Book)
    ensures books[name := b][name := c] == books[name := c]
  {
  }

  method UpdateStream(stream: Datastream, data: Frame, quality: map<int, Label>)
    requires stream.Valid() && Ascending(data)
    modifies stream
    ensures stream.Valid() && stream.bareRead == old(stream.bareRead)
    ensures BookOf(stream) == Updated(old(BookOf(stream)), data, quality)
  {
    if stream.kind != Immutable {
      stream.SetData(data);
    }
    stream.UpdateQualityLabels(quality);
  }

  /** The first `n` columns of the result have been stored. */
  ghost predicate ColumnsStored(before: Books, books: Books, result: QcResult, n: nat) {
    result.WellFormed() && n <= |result.columns| && books == UpdatedUpTo(before, result, n)
  }

  class StreamManager {
    const storage: StreamInfo -> Frame
    var streams: map<string, Datastream>
    ghost var books: Books

    ghost predicate Valid()
      reads this, streams.Values
    {
      && (forall info :: Ascending(storage(info)))
      && (forall n :: n in books <==> n in streams)
      && (forall n :: n in streams ==> Held(n))
    }

    /** Streams are kept under their names, so no two names share a stream. */
    ghost predicate Held(n: string)
      requires n in streams
      reads this, streams.Values
    {
      var s := streams[n];
      s.name == n && s.Valid() && !s.bareRead && n in books && books[n] == BookOf(s)
    }

    /** Streams are only ever added, and those added are new. */
    twostate predicate Grown()
      reads this
    {
      && (forall n :: n in old(streams) ==> n in streams && streams[n] == old(streams[n]))
      && (forall n :: n in streams && n !in old(streams) ==> fresh(streams[n]))
    }

    constructor (storage: StreamInfo -> Frame)
      requires forall info :: Ascending(storage(info))
      ensures Valid() && this.storage == storage && streams == map[] && books == map[]
    {
      this.storage := storage;
      streams, books := map[], map[];
    }

    method GetStream(info: StreamInfo) returns (s: Datastream)
      requires Valid()
      modifies this`streams, this`books
      ensures Valid() && Grown() && info.value in streams && s == streams[info.value]
      ensures books == old(books)[info.value := BookFor(old(books), info, storage)]
      ensures info.value !in old(books) ==>
                && (s.kind == Local <==> info.thingId.None?)
                && (s.kind == Product <==> info.thingId.Some? && info.streamId.None?)
                && s.table == storage(info) && s.data == [] && s.starts == {}
    {
      if info.value !in streams {
        var new_ := new Datastream(info.value, KindOf(info), storage(info));
        streams := streams[info.value := new_];
        books := books[info.value := BookOf(new_)];
      }
      s := streams[info.value];
    }

    /** Brings the book of a changed stream up to date. */
    ghost method NoteAll(s: Datastream)
      requires (forall info :: Ascending(storage(info))) && (forall n :: n in books <==> n in streams)
      requires forall n :: n in streams && n != s.name ==> Held(n)
      requires s.name in streams && streams[s.name] == s && s.Valid() && !s.bareRead
      modifies this`books
      ensures Valid() && books == old(books)[s.name := BookOf(s)]
    {
      books := books[s.name := BookOf(s)];
    }

    /** One turn of `load_data`: find the stream, settle the range, read. */
    method ReadOne(info: StreamInfo, range: Range, window: Window)
        returns (used: Range, r: Result<Frame, StreamError>)
      requires Valid() && !window.NoWindow?
      modifies this`streams, this`books, streams.Values
      ensures Valid() && Grown() && info.value in books
      ensures books == old(books)[info.value := books[info.value]]
      ensures used == Settle(range, OwnRange(books[info.value]))
      ensures ReadStep(BookFor(old(books), info, storage), books[info.value], used, window, r)
    {
      var stream := GetStream(info);
      ghost var book := books[info.value];
      used, r := ReadKnown(stream, range, window);
      Overwritten(old(books), info.value, book, books[info.value]);
    }

    method ReadKnown(stream: Datastream, range: Range, window: Window)
        returns (used: Range, r: Result<Frame, StreamError>)
      requires Valid() && stream.name in streams && streams[stream.name] == stream && !window.NoWindow?
      modifies this`books, stream
      ensures Valid() && stream.name in books
      ensures books == old(books)[stream.name := books[stream.name]]
      ensures used == Settle(range, OwnRange(books[stream.name]))
      ensures ReadStep(old(books)[stream.name], books[stream.name], used, window, r)
    {
      assert Held(stream.name);
      used, r := ReadStream(stream, range, window);
      NoteAll(stream);
    }

    /** `load_data`: read every stream of a test, each name once. All streams share one range: the given
        one, or else the first unprocessed one met. It stops in the first read that fails. */
    method LoadData(test: QcTest, given: Range)
        returns (r: Result<map<string, Frame>, StreamError>, ghost turn: Turn)
      requires Valid() && !test.window.NoWindow?
      modifies this`streams, this`books, streams.Values
      ensures Valid() && Grown()
      ensures LoadEnded(old(books), books, test, storage, given, if r.Ok? then None else Some(r.error), turn)
      ensures r.Ok? ==> r.value == turn.data
      ensures RangesInForce(turn.loaded, test.streams, given, turn.used)
    {
      ghost var failed;
      r, failed, turn := LoadAll(test, given);
      RangesAreInForce(old(books), turn.loaded, test.streams, |turn.used|, storage, given, test.window, turn.used,
                       turn.data);
    }

    /** The loop over the streams. */
    method LoadAll(test: QcTest, given: Range)
        returns (r: Result<map<string, Frame>, StreamError>, ghost ended: Option<StreamError>, ghost turn: Turn)
      requires Valid() && !test.window.NoWindow?
      modifies this`streams, this`books, streams.Values
      ensures Valid() && Grown() && ended == if r.Ok? then None else Some(r.error)
      ensures LoadEnded(old(books), books, test, storage, given, ended, turn)
      ensures r.Ok? ==> r.value == turn.data
    {
      var current := given;
      var data: map<string, Frame> := map[];
      turn := Turn([], map[], books);
      ghost var before := books;
      for n := 0 to |test.streams|
        invariant Valid() && Grown()
        invariant Loading(before, books, test, n, storage, given, current, data, turn)
      {
        var failed;
        current, data, failed, turn := MeetStream(before, test, n, given, current, data, turn);
        if failed.Some? { return Err(failed.value), failed, turn; }
      }
      r, ended := Ok(data), None;
    }

    /** One turn of the loop: a name already loaded is passed over. */
    method MeetStream(ghost before: Books, test: QcTest, n: nat, ghost given: Range, current: Range,
                      data0: map<string, Frame>, ghost turn0: Turn)
        returns (range: Range, data: map<string, Frame>, failed: Option<StreamError>, ghost turn: Turn)
      requires Valid() && !test.window.NoWindow? && n < |test.streams|
      requires Loading(before, books, test, n, storage, given, current, data0, turn0)
      modifies this`streams, this`books, streams.Values
      ensures Valid() && Grown()
      ensures failed.None? ==> Loading(before, books, test, n + 1, storage, given, range, data, turn)
      ensures failed.Some? ==> LoadEnded(before, books, test, storage, given, failed, turn)
    {
      ghost var infos, window, used := test.streams, test.window, turn0.used;
      failed := None;
      if test.streams[n].value in data0 {
        MetAgain(before, books, infos, n, storage, given, window, used, data0);
        range, data := current, data0;
      } else {
        var r;
        range, r := ReadOne(test.streams[n], current, test.window);
        if r.Err? { return range, data0, Some(r.error), turn0; }
        data := data0[test.streams[n].value := r.value];
        MetFirst(before, turn0.loaded, books, infos, n, storage, given, window, used, data0, range, r.value);
      }
      turn := Turn(used + [range], data, books);
    }

    /** An unknown name stands for a temporary variable. */
    method StreamFor(name: string) returns (s: Datastream)
      requires Valid()
      modifies this`streams, this`books
      ensures Valid() && Grown() && name in streams && s == streams[name]
      ensures books == old(books)[name := if name in old(books) then old(books)[name] else NewBook(Local, [])]
    {
      if name !in streams {
        var temporary := new Datastream(name, Local, []);
        streams := streams[name := temporary];
        books := books[name := BookOf(temporary)];
      }
      s := streams[name];
    }

    /** Store one column of a test result. */
    method UpdateOne(name: string, data: Frame, quality: map<int, Label>)
      requires Valid() && Ascending(data)
      modifies this`streams, this`books, streams.Values
      ensures Valid() && Grown()
      ensures books == old(books)[name :=
                Updated(if name in old(books) then old(books)[name] else NewBook(Local, []), data, quality)]
    {
      var stream := StreamFor(name);
      ghost var book := books[name];
      UpdateKnown(stream, data, quality);
      Overwritten(old(books), name, book, books[name]);
    }

    method UpdateKnown(stream: Datastream, data: Frame, quality: map<int, Label>)
      requires Valid() && stream.name in streams && streams[stream.name] == stream && Ascending(data)
      modifies this`books, stream
      ensures Valid() && stream.name in old(books)
      ensures books == old(books)[stream.name := Updated(old(books)[stream.name], data, quality)]
    {
      assert Held(stream.name);
      UpdateStream(stream, data, quality);
      NoteAll(stream);
    }

    /** `update`: the result of a test goes back into its streams, column by column. */
    method Update(result: QcResult)
      requires Valid() && result.WellFormed()
      modifies this`streams, this`books, streams.Values
      ensures Valid() && Grown()
      ensures books == UpdatedUpTo(old(books), result, |result.columns|)
      ensures AllStored(old(books), books, result)
    {
      UpdateAll(result);
      AllResultsStored(old(books), result);
    }

    /** The loop over the columns. */
    method UpdateAll(result: QcResult)
      requires Valid() && result.WellFormed()
      modifies this`streams, this`books, streams.Values
      ensures Valid() && Grown()
      ensures books == UpdatedUpTo(old(books), result, |result.columns|)
    {
      ghost var before := books;
      for i := 0 to |result.columns|
        invariant Valid() && Grown() && ColumnsStored(before, books, result, i)
      {
        UpdateColumn(before, result, i);
      }
    }

    /** One turn of the loop. */
    method UpdateColumn(ghost before: Books, result: QcResult, i: nat)
      requires Valid() && result.WellFormed() && i < |result.columns| && ColumnsStored(before, books, result, i)
      modifies this`streams, this`books, streams.Values
      ensures Valid() && Grown() && ColumnsStored(before, books, result, i + 1)
    {
      var name := result.columns[i];
      UpdateOne(name, result.data[name], result.quality[name]);
    }

    /** `upload`: every stream but the local ones sends its labels. */
    method Upload() returns (sent: map<string, Frame>)
      requires Valid()
      ensures forall n :: n in sent <==> n in books && books[n].kind != Local
      ensures forall n :: n in sent ==> SentFrom(books[n], sent[n])
    {
      sent := map[];
      var todo := streams.Keys;
      while todo != {}
        invariant todo <= streams.Keys
        invariant forall n :: n in sent <==> n in streams && n !in todo && streams[n].kind != Local
        invariant forall n :: n in sent ==> SentFrom(BookOf(streams[n]), sent[n])
        decreases todo
      {
        var name :| name in todo;
        todo := todo - {name};
        if streams[name].kind != Local {
          var rows := streams[name].Upload();
          sent := sent[name := rows.value];
        }
      }
    }

    /** A whole run: every test loads its streams and stores its result, then the labels are sent. The turns
        tell what every test loaded, with which ranges. A run stops only in a read that may fail; without
        products and open ends, it gets through exactly if there is none. */
    method Run(tests: seq<QcTest>, results: seq<QcResult>, given: Range)
        returns (r: Result<map<string, Frame>, StreamError>, ghost turns: seq<Turn>)
      requires Valid() && Job(books, tests, results, storage, given).WellFormed()
      modifies this`streams, this`books, streams.Values
      ensures Valid() && Grown()
      ensures r.Ok? ==> Job(old(books), tests, results, storage, given).Finished(turns, books, r.value)
      ensures r.Err? ==> Job(old(books), tests, results, storage, given).Failed(turns, books, r.error)
      ensures var job := Job(old(books), tests, results, storage, given);
              job.Foreseeable() ==> (r.Ok? <==> forall k, i :: !job.MayFail(k, i))
    {
      ghost var job := Job(books, tests, results, storage, given);
      var failed;
      failed, turns := RunTests(job, tests, results, given);
      if failed.Some? {
        r := Err(failed.value);
      } else {
        var sent := Upload();
        Finishes(job, turns, books, sent);
        r := Ok(sent);
      }
      if job.Foreseeable() { EndIsForeseen(job, turns, books, r); }
    }

    /** The loop over the tests. */
    method RunTests(ghost job: Job, tests: seq<QcTest>, results: seq<QcResult>, given: Range)
        returns (failed: Option<StreamError>, ghost turns: seq<Turn>)
      requires Valid() && job == Job(books, tests, results, storage, given) && job.WellFormed()
      modifies this`streams, this`books, streams.Values
      ensures Valid() && Grown()
      ensures failed.None? ==>
                |turns| == |tests| && job.Traced(turns, |turns|) && books == job.StateAt(turns, |turns|)
      ensures failed.Some? ==> job.Failed(turns, books, failed.value)
    {
      turns := [];
      for k := 0 to |tests|
        invariant Valid() && Grown()
        invariant |turns| == k && job.Traced(turns, k) && books == job.StateAt(turns, k)
      {
        ghost var turn;
        failed, turn := RunTest(job, turns, tests[k], results[k], given);
        turns := turns + [turn];
        if failed.Some? {
          StoppedWhereItMay(job, turns, books, failed.value);
          return;
        }
      }
      failed := None;
    }

    /** One test of a run. */
    method RunTest(ghost job: Job, ghost turns: seq<Turn>, test: QcTest, result: QcResult, given: Range)
        returns (failed: Option<StreamError>, ghost turn: Turn)
      requires Valid() && job.WellFormed() && job.storage == storage && job.given == given
      requires |turns| < |job.tests| && job.Traced(turns, |turns|) && books == job.StateAt(turns, |turns|)
      requires test == job.tests[|turns|] && result == job.results[|turns|]
      modifies this`streams, this`books, streams.Values
      ensures Valid() && Grown()
      ensures var more := turns + [turn];
              && (failed.None? ==> job.Traced(more, |more|) && books == job.StateAt(more, |more|))
              && (failed.Some? ==> job.Stopped(more, books, failed.value))
    {
      ghost var books0 := books;
      var r;
      r, turn := LoadData(test, given);
      failed := if r.Ok? then None else Some(r.error);
      OneMoreTurn(job, turns, turn, books0, books, failed);
      if failed.Some? { return; }
      Update(result);
    }
  }
}
