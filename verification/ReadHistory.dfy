/** Whole histories of reads and label updates on one stored stream, with and without the window. */
module ReadHistory {
  import opened Wrappers
  import opened Frames
  import opened Datastreams
  import opened QcRuns

  /** Any read, closed or open, with any context or none, or labels for any times. */
  datatype Op =
    | Reading(start: Option<int>, end: Option<int>, window: Window)
    | Labelling(labels: map<int, Label>)

  type Answer = Option<Result<Frame, StreamError>>

  /** What a read answers behind the window `span`, when `labels` are the labels kept so far: failures
      included, it is the read of the table as far as the window lets it look. A closed read with a duration
      as context answers straight from the table, whatever the window. */
  ghost predicate Answered(table: Frame, span: Span, labels: map<int, Label>, op: Op, r: Result<Frame, StreamError>)
    requires Ascending(table) && op.Reading?
  {
    if op.start.None? then r == Ok([])
    else
      && ReadsSpan(table, span, labels, op.start.value, op.end, op.window, r)
      && (op.end.Some? && op.window.Duration? ==>
            r == WithLabels(Read(table, 0, op.start.value, op.end, op.window), labels))
  }

  /** The window after one step. */
  ghost function SpanStep(table: Frame, span: Span, op: Op): Span
    requires Ascending(table) && span.In(table)
  {
    if op.Reading? && op.start.Some? then SpanAfter(table, span, op.start.value, op.end, op.window) else span
  }

  /** The windows in front of every step and at the end, told from the first one. */
  ghost predicate Spans(table: Frame, ops: seq<Op>, spans: seq<Span>) {
    && Ascending(table) && |spans| == |ops| + 1
    && (forall k :: 0 <= k < |spans| ==> spans[k].In(table))
    && forall k :: 0 <= k < |ops| ==> spans[k + 1] == SpanStep(table, spans[k], ops[k])
  }

  /** The rows of the table in the window. */
  function RowsOf(table: Frame, span: Span): Frame
    requires span.In(table)
  {
    table[span.lo..span.hi]
  }

  /** The labels written by the first `k` steps. A label is dropped exactly when its time is not cached. */
  ghost function LabelsUpTo(table: Frame, labels: map<int, Label>, ops: seq<Op>, spans: seq<Span>, k: nat)
      : map<int, Label>
    requires k <= |ops| && k <= |spans| && forall j :: 0 <= j < |spans| ==> spans[j].In(table)
  {
    if k == 0 then labels
    else
      var before := LabelsUpTo(table, labels, ops, spans, k - 1);
      match ops[k - 1]
      case Reading(_, _, _) => before
      case Labelling(newer) => before + KeptLabels(RowsOf(table, spans[k - 1]), newer)
  }

  ghost predicate SameCached(a: Frame, b: Frame) {
    forall t :: HasTime(a, t) <==> HasTime(b, t)
  }

  lemma WindowOfTable(stream: Datastream)
    requires stream.Valid() && stream.kind == Immutable
    ensures stream.Cached().In(stream.table) && SameCached(stream.data, RowsOf(stream.table, stream.Cached()))
  {
    forall t ensures HasTime(stream.data, t) <==> HasTime(RowsOf(stream.table, stream.Cached()), t) {
      SameTimes(stream.table[stream.lo..stream.hi], stream.labels, t);
    }
  }

  lemma SameKept(a: Frame, b: Frame, newer: map<int, Label>)
    requires SameCached(a, b)
    ensures KeptLabels(a, newer) == KeptLabels(b, newer)
  {
  }

  /** Nothing is dropped from the window, and what was answered is in it. */
  ghost predicate StepGrows(table: Frame, span: Span, next: Span, answer: Answer) {
    && span.In(table) && next.In(table)
    && (forall t :: HasTime(RowsOf(table, span), t) ==> HasTime(RowsOf(table, next), t))
    && (answer.Some? && answer.value.Ok? ==> OnlyTimesOf(RowsOf(table, next), answer.value.value))
  }

  /** One step of a history. */
  method Step(stream: Datastream, op: Op) returns (answer: Answer)
    requires stream.Valid() && stream.kind == Immutable
    modifies stream
    ensures stream.Valid() && old(stream.Cached()).In(stream.table)
    ensures stream.Cached() == SpanStep(stream.table, old(stream.Cached()), op)
    ensures op.Labelling? ==>
              && answer == None
              && stream.labels == old(stream.labels) + KeptLabels(RowsOf(stream.table, old(stream.Cached())), op.labels)
    ensures op.Reading? ==>
              && stream.labels == old(stream.labels)
              && answer.Some? && Answered(stream.table, old(stream.Cached()), stream.labels, op, answer.value)
    ensures StepGrows(stream.table, old(stream.Cached()), stream.Cached(), answer)
  {
    WindowOfTable(stream);
    match op
    case Labelling(newer) =>
      SameKept(stream.data, RowsOf(stream.table, stream.Cached()), newer);
      stream.UpdateQualityLabels(newer);
      answer := None;
    case Reading(start, end, window) =>
      var r := ReadOnce(stream, op);
      answer := Some(r);
  }

  method ReadOnce(stream: Datastream, op: Op) returns (r: Result<Frame, StreamError>)
    requires stream.Valid() && stream.kind == Immutable && op.Reading?
    modifies stream
    ensures stream.Valid() && stream.labels == old(stream.labels) && old(stream.Cached()).In(stream.table)
    ensures stream.Cached() == SpanStep(stream.table, old(stream.Cached()), op)
    ensures Answered(stream.table, old(stream.Cached()), stream.labels, op, r)
    ensures StepGrows(stream.table, old(stream.Cached()), stream.Cached(), Some(r))
  {
    ghost var span := stream.Cached();
    WindowOfTable(stream);
    r := stream.GetData(op.start, op.end, op.window);
    if op.start.Some? && op.end.Some? && op.window.Duration? {
      ClosedRead(stream.table, span, stream.labels, op.start.value, op.end, op.window, r);
    }
    WindowOfTable(stream);
  }

  /** The answers over a whole history, whatever reads and labels it is made of, are told from the table, the
      first window and the labels of before: `Spans` has the window in front of every step, `LabelsUpTo` the
      labels, `Answered` the answer. Closed reads with a duration as context do without the window. Cached
      times include all times answered before. */
  method Replay(stream: Datastream, ops: seq<Op>) returns (answers: seq<Answer>, ghost spans: seq<Span>)
    requires stream.Valid() && stream.kind == Immutable
    modifies stream
    ensures stream.Valid() && |answers| == |ops|
    ensures Spans(stream.table, ops, spans) && spans[0] == old(stream.Cached()) && spans[|ops|] == stream.Cached()
    ensures stream.labels == LabelsUpTo(stream.table, old(stream.labels), ops, spans, |ops|)
    ensures forall k :: 0 <= k < |ops| && ops[k].Reading? ==>
              && answers[k].Some?
              && Answered(stream.table, spans[k], LabelsUpTo(stream.table, old(stream.labels), ops, spans, k), ops[k],
                          answers[k].value)
    ensures Growing(stream.table, answers, spans)
  {
    answers, spans := [], [stream.Cached()];
    WindowOfTable(stream);
    for k := 0 to |ops|
      invariant stream.Valid() && |answers| == k && |spans| == k + 1
      invariant Spans(stream.table, ops[..k], spans) && spans[0] == old(stream.Cached()) && spans[k] == stream.Cached()
      invariant stream.labels == LabelsUpTo(stream.table, old(stream.labels), ops, spans, k)
      invariant forall j :: 0 <= j < k && ops[j].Reading? ==>
                  && answers[j].Some?
                  && Answered(stream.table, spans[j], LabelsUpTo(stream.table, old(stream.labels), ops, spans, j),
                              ops[j], answers[j].value)
      invariant Growing(stream.table, answers, spans)
    {
      ghost var labels := old(stream.labels);
      var answer := Step(stream, ops[k]);
      ghost var more := spans + [stream.Cached()];
      forall j | 0 <= j <= k
        ensures LabelsUpTo(stream.table, labels, ops, more, j) == LabelsUpTo(stream.table, labels, ops, spans, j)
      {
        LabelsKept(stream.table, labels, ops, spans, more, j);
      }
      SpansMore(stream.table, ops, spans, k);
      GrowingMore(stream.table, answers, spans, answer, stream.Cached());
      answers, spans := answers + [answer], more;
    }
    assert ops[..|ops|] == ops;
  }

  lemma SpansMore(table: Frame, ops: seq<Op>, spans: seq<Span>, k: nat)
    requires k < |ops| && Spans(table, ops[..k], spans) && SpanStep(table, spans[k], ops[k]).In(table)
    ensures Spans(table, ops[..k + 1], spans + [SpanStep(table, spans[k], ops[k])])
  {
    var more, done := spans + [SpanStep(table, spans[k], ops[k])], ops[..k + 1];
    forall j | 0 <= j < |done| ensures more[j + 1] == SpanStep(table, more[j], done[j]) {
      if j < k { assert ops[..k][j] == done[j]; }
    }
  }

  lemma {:induction false} LabelsKept(table: Frame, labels: map<int, Label>, ops: seq<Op>, spans: seq<Span>,
                                      more: seq<Span>, k: nat)
    requires k <= |ops| && k <= |spans| && spans <= more && forall j :: 0 <= j < |more| ==> more[j].In(table)
    ensures LabelsUpTo(table, labels, ops, more, k) == LabelsUpTo(table, labels, ops, spans, k)
  {
    if k > 0 { LabelsKept(table, labels, ops, spans, more, k - 1); }
  }

  /** The cached times only grow, and take in what is answered. */
  ghost predicate Growing(table: Frame, answers: seq<Answer>, spans: seq<Span>)
    requires |spans| == |answers| + 1
  {
    forall k :: 0 <= k < |answers| ==> StepGrows(table, spans[k], spans[k + 1], answers[k])
  }

  lemma GrowingMore(table: Frame, answers: seq<Answer>, spans: seq<Span>, answer: Answer, next: Span)
    requires |spans| == |answers| + 1 && Growing(table, answers, spans)
    requires StepGrows(table, spans[|answers|], next, answer)
    ensures Growing(table, answers + [answer], spans + [next])
  {
    var all, more := answers + [answer], spans + [next];
    forall k | 0 <= k < |all| ensures StepGrows(table, more[k], more[k + 1], all[k]) {
      if k < |answers| { assert StepGrows(table, spans[k], spans[k + 1], answers[k]); }
    }
  }

  lemma {:induction false} WindowsGrow(table: Frame, answers: seq<Answer>, spans: seq<Span>, j: nat, k: nat, t: int)
    requires |spans| == |answers| + 1 && Growing(table, answers, spans) && j <= k < |spans|
    requires forall i :: 0 <= i < |spans| ==> spans[i].In(table)
    requires HasTime(RowsOf(table, spans[j]), t)
    ensures HasTime(RowsOf(table, spans[k]), t)
  {
    if j < k {
      var i := k - 1;
      WindowsGrow(table, answers, spans, j, i, t);
      assert StepGrows(table, spans[i], spans[i + 1], answers[i]);
    }
  }

  /** A label written for a row answered before stays in force until another one is written for that time,
      whatever is fetched in between. */
  lemma {:induction false} LabelsStick(table: Frame, labels: map<int, Label>, ops: seq<Op>, answers: seq<Answer>,
                                       spans: seq<Span>, i: nat, k: nat, m: nat, row: Row)
    requires |answers| == |ops| && Spans(table, ops, spans) && Growing(table, answers, spans)
    requires i < k < m <= |ops| && answers[i].Some? && answers[i].value.Ok? && row in answers[i].value.value
    requires ops[k].Labelling? && row.time in ops[k].labels
    requires forall j :: k < j < m && ops[j].Labelling? ==> row.time !in ops[j].labels
    ensures row.time in LabelsUpTo(table, labels, ops, spans, m)
    ensures LabelsUpTo(table, labels, ops, spans, m)[row.time] == ops[k].labels[row.time]
  {
    if m == k + 1 {
      assert StepGrows(table, spans[i], spans[i + 1], answers[i]);
      WindowsGrow(table, answers, spans, i + 1, k, row.time);
    } else {
      LabelsStick(table, labels, ops, answers, spans, i, k, m - 1, row);
    }
  }
}
