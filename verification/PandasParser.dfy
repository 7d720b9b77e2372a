/** Turning the columns of a parsed file into observations: a worklist of columns, where a column of mixed
    values is split into its numbers and its strings. */
module PandasParser {
  import opened Wrappers

  /** A value of a column. `Opaque` is whatever is neither a number nor a string. */
  datatype Cell = Missing | Number(n: real) | Flag(b: bool) | Text(s: string) | Opaque(content: string)

  /** Boolean columns count as numeric; `Boolean` is left to categories of booleans. */
  datatype DType = Numeric | Boolean | Object | Unsupported

  datatype Row = Row(time: string, cell: Cell)

  datatype Column = Column(name: string, dtype: DType, rows: seq<Row>)

  datatype Field = ResultNumber | ResultString | ResultBool

  datatype ResultType = NumberType | StringType | JsonType | BoolType

  datatype Observation = Observation(time: string, field: Field, value: Cell, resultType: ResultType, position: string)

  datatype Unsupported = UnsupportedType(column: string)

  /** How text is read as a number and how surrounding space is taken off. */
  datatype Reader = Reader(number: string -> Option<real>, strip: string -> string)

  ghost predicate StripsOnce(reader: Reader) {
    forall s {:trigger reader.strip(reader.strip(s))} :: reader.strip(reader.strip(s)) == reader.strip(s)
  }

  function ToNumber(reader: Reader, cell: Cell): Option<real> {
    match cell
    case Number(n) => Some(n)
    case Text(s) => reader.number(s)
    case _ => None
  }

  // ---------------------------------------------------------------- splitting

  /** Some value of the column can be read as a number. */
  predicate Mixed(reader: Reader, rows: seq<Row>) {
    exists i :: 0 <= i < |rows| && ToNumber(reader, rows[i].cell).Some?
  }

  function AsNumber(reader: Reader, row: Row): Row {
    var n := ToNumber(reader, row.cell);
    Row(row.time, if n.Some? then Number(n.value) else Missing)
  }

  /** Every row, with its number or nothing. */
  function Numbers(reader: Reader, rows: seq<Row>): (r: seq<Row>)
    ensures |r| == |rows|
  {
    seq(|rows|, i requires 0 <= i < |rows| => AsNumber(reader, rows[i]))
  }

  function AsStripped(reader: Reader, row: Row): Row {
    Row(row.time, if row.cell.Text? then Text(reader.strip(row.cell.s)) else Missing)
  }

  /** The rows that are not numbers, stripped; stripping leaves nothing of what is not a string. */
  function Strings(reader: Reader, rows: seq<Row>): (r: seq<Row>)
    ensures |r| <= |rows|
    ensures Mixed(reader, rows) ==> |r| < |rows|
  {
    if rows == [] then []
    else
      var last := rows[|rows| - 1];
      var front := Strings(reader, rows[..|rows| - 1]);
      assert ToNumber(reader, last.cell).None? && Mixed(reader, rows) ==> Mixed(reader, rows[..|rows| - 1]);
      if ToNumber(reader, last.cell).Some? then front else front + [AsStripped(reader, last)]
  }

  // ---------------------------------------------------------------- observations

  /** The observation of a row that is not missing. */
  function Record(name: string, row: Row, field: Field, resultType: ResultType): seq<Observation> {
    if row.cell.Missing? then [] else [Observation(row.time, field, row.cell, resultType, name)]
  }

  function Records(name: string, rows: seq<Row>, field: Field, resultType: ResultType): seq<Observation> {
    if rows == [] then []
    else Records(name, rows[..|rows| - 1], field, resultType) + Record(name, rows[|rows| - 1], field, resultType)
  }

  function Weight(col: Column): nat {
    if col.dtype.Object? then 2 * |col.rows| + 2 else 1
  }

  function TotalWeight(cols: seq<Column>): nat {
    if cols == [] then 0 else TotalWeight(cols[..|cols| - 1]) + Weight(cols[|cols| - 1])
  }

  /** What becomes of a column: a mixed one gives what its strings give, then its numbers. */
  function OfColumn(reader: Reader, col: Column): seq<Observation>
    decreases Weight(col)
  {
    match col.dtype
    case Numeric => Records(col.name, col.rows, ResultNumber, NumberType)
    case Boolean => Records(col.name, col.rows, ResultBool, BoolType)
    case Object =>
      if Mixed(reader, col.rows) then
        OfColumn(reader, Column(col.name, Object, Strings(reader, col.rows)))
        + Records(col.name, Numbers(reader, col.rows), ResultNumber, NumberType)
      else Records(col.name, col.rows, ResultString, StringType)
    case Unsupported => []
  }

  /** The last column first. */
  function OfColumns(reader: Reader, cols: seq<Column>): seq<Observation> {
    if cols == [] then []
    else OfColumn(reader, cols[|cols| - 1]) + OfColumns(reader, cols[..|cols| - 1])
  }

  predicate AllSupported(cols: seq<Column>) {
    forall i :: 0 <= i < |cols| ==> !cols[i].dtype.Unsupported?
  }

  /** The last unsupported column has the name. */
  ghost predicate LastUnsupported(data: seq<Column>, name: string) {
    exists c :: 0 <= c < |data| && data[c].dtype.Unsupported? && data[c].name == name &&
                forall d :: c < d < |data| ==> !data[d].dtype.Unsupported?
  }

  /** The first `n` columns are still to come, behind them only parts of others. */
  ghost predicate Split(data: seq<Column>, toProcess: seq<Column>, n: nat) {
    && n <= |data| && n <= |toProcess| && toProcess[..n] == data[..n]
    && AllSupported(data[n..]) && AllSupported(toProcess[n..])
  }

  /** The next column, and what is still to come without it. */
  lemma Popped(data: seq<Column>, toProcess: seq<Column>, n: nat) returns (m: nat)
    requires toProcess != [] && Split(data, toProcess, n)
    ensures var chunk, rest := toProcess[|toProcess| - 1], toProcess[..|toProcess| - 1];
            if chunk.dtype.Unsupported? then LastUnsupported(data, chunk.name) else Split(data, rest, m)
  {
    var k := |toProcess| - 1;
    var rest := toProcess[..k];
    if k < n {
      m := k;
      assert toProcess[..n][k] == data[..n][k];
      assert data[k..] == [data[k]] + data[n..];
      assert rest == data[..k] && rest[k..] == [];
      assert forall d :: k < d < |data| ==> data[d] == data[n..][d - n];
    } else {
      m := n;
      assert toProcess[n..][k - n] == toProcess[k];
      assert rest[..n] == toProcess[..n];
      assert forall i :: 0 <= i < k - n ==> rest[n..][i] == toProcess[n..][i];
    }
  }

  lemma SplitMore(data: seq<Column>, rest: seq<Column>, n: nat, a: Column, b: Column)
    requires Split(data, rest, n) && !a.dtype.Unsupported? && !b.dtype.Unsupported?
    ensures Split(data, rest + [a, b], n)
  {
    assert (rest + [a, b])[..n] == rest[..n];
    assert (rest + [a, b])[n..] == rest[n..] + [a, b];
    PairSupported(rest[n..], a, b);
  }

  /** The worklist. It ends because splitting a column leaves fewer rows to look at. */
  method ToObservations(reader: Reader, data: seq<Column>) returns (r: Result<seq<Observation>, Unsupported>)
    ensures r.Ok? <==> AllSupported(data)
    ensures r.Err? ==> LastUnsupported(data, r.error.column)
    ensures r.Ok? ==> r.value == OfColumns(reader, data)
    ensures r.Ok? && StripsOnce(reader) ==> multiset(r.value) == multiset(OfFile(reader, data))
    ensures r.Ok? && StripsOnce(reader) ==> forall o :: o in r.value <==> GivenByFile(reader, data, o)
  {
    var observations: seq<Observation> := [];
    var toProcess := data;
    ghost var n: nat := |data|;
    assert data[..n] == data;
    while toProcess != []
      invariant Remaining(reader, data, observations, toProcess)
      invariant Split(data, toProcess, n)
      decreases TotalWeight(toProcess)
    {
      var chunk, rest := toProcess[|toProcess| - 1], toProcess[..|toProcess| - 1];
      n := Popped(data, toProcess, n);
      if chunk.dtype.Unsupported? { return Err(UnsupportedType(chunk.name)); }
      if chunk.dtype.Object? && Mixed(reader, chunk.rows) {
        var numeric := Column(chunk.name, Numeric, Numbers(reader, chunk.rows));
        var strings := Column(chunk.name, Object, Strings(reader, chunk.rows));
        SplitKeeps(reader, data, observations, toProcess, numeric, strings);
        SplitMore(data, rest, n, numeric, strings);
        toProcess := rest + [numeric, strings];
      } else {
        var more := match chunk.dtype
          case Numeric => Records(chunk.name, chunk.rows, ResultNumber, NumberType)
          case Boolean => Records(chunk.name, chunk.rows, ResultBool, BoolType)
          case _ => Records(chunk.name, chunk.rows, ResultString, StringType);
        ColumnKeeps(reader, data, observations, toProcess, more);
        toProcess := rest;
        observations := observations + more;
      }
    }
    if StripsOnce(reader) {
      FileConserved(reader, data);
      AllGiven(reader, data, observations);
    }
    return Ok(observations);
  }

  /** What is out and what is still to process make up the whole. */
  ghost predicate Remaining(reader: Reader, data: seq<Column>, observations: seq<Observation>, toProcess: seq<Column>) {
    && observations + OfColumns(reader, toProcess) == OfColumns(reader, data)
    && (AllSupported(toProcess) <==> AllSupported(data))
  }

  lemma ColumnKeeps(reader: Reader, data: seq<Column>, observations: seq<Observation>, toProcess: seq<Column>,
                    more: seq<Observation>)
    requires toProcess != [] && Remaining(reader, data, observations, toProcess)
    requires !toProcess[|toProcess| - 1].dtype.Unsupported? && more == OfColumn(reader, toProcess[|toProcess| - 1])
    ensures Remaining(reader, data, observations + more, toProcess[..|toProcess| - 1])
    ensures TotalWeight(toProcess[..|toProcess| - 1]) < TotalWeight(toProcess)
  {
    var rest := toProcess[..|toProcess| - 1];
    Associates(observations, more, OfColumns(reader, rest));
    LastSupported(toProcess);
  }

  lemma SplitKeeps(reader: Reader, data: seq<Column>, observations: seq<Observation>, toProcess: seq<Column>,
                   numeric: Column, strings: Column)
    requires toProcess != [] && Remaining(reader, data, observations, toProcess)
    requires var chunk := toProcess[|toProcess| - 1];
             && chunk.dtype.Object? && Mixed(reader, chunk.rows)
             && numeric == Column(chunk.name, Numeric, Numbers(reader, chunk.rows))
             && strings == Column(chunk.name, Object, Strings(reader, chunk.rows))
    ensures var after := toProcess[..|toProcess| - 1] + [numeric, strings];
            Remaining(reader, data, observations, after) && TotalWeight(after) < TotalWeight(toProcess)
  {
    var chunk, rest := toProcess[|toProcess| - 1], toProcess[..|toProcess| - 1];
    PairAppended(reader, rest, numeric, strings);
    assert OfColumn(reader, chunk) == OfColumn(reader, strings) + OfColumn(reader, numeric);
    Associates(OfColumn(reader, strings), OfColumn(reader, numeric), OfColumns(reader, rest));
    PairSupported(rest, numeric, strings);
    LastSupported(toProcess);
  }

  lemma PairAppended(reader: Reader, cols: seq<Column>, a: Column, b: Column)
    ensures OfColumns(reader, cols + [a, b]) == OfColumn(reader, b) + (OfColumn(reader, a) + OfColumns(reader, cols))
    ensures TotalWeight(cols + [a, b]) == TotalWeight(cols) + Weight(a) + Weight(b)
  {
    var one, two := cols + [a], cols + [a, b];
    assert one[..|cols|] == cols;
    assert two[..|one|] == one;
  }

  lemma Associates<T>(a: seq<T>, b: seq<T>, c: seq<T>)
    ensures a + (b + c) == a + b + c
  {
  }

  lemma PairSupported(cols: seq<Column>, a: Column, b: Column)
    requires !a.dtype.Unsupported? && !b.dtype.Unsupported?
    ensures AllSupported(cols + [a, b]) <==> AllSupported(cols)
  {
    assert forall i :: 0 <= i < |cols| ==> (cols + [a, b])[i] == cols[i];
  }

  lemma LastSupported(cols: seq<Column>)
    requires cols != []
    ensures AllSupported(cols) <==> AllSupported(cols[..|cols| - 1]) && !cols[|cols| - 1].dtype.Unsupported?
  {
    assert forall i :: 0 <= i < |cols| - 1 ==> cols[..|cols| - 1][i] == cols[i];
  }

  // ---------------------------------------------------------------- every value once

  /** What a single value is to become. In a column with numbers, strings are stripped, and read as numbers
      if that is what stripping makes of them; what is neither number nor string is lost there. */
  function OfRow(reader: Reader, name: string, dtype: DType, mixed: bool, row: Row): seq<Observation> {
    match dtype
    case Numeric => Record(name, row, ResultNumber, NumberType)
    case Boolean => Record(name, row, ResultBool, BoolType)
    case Object =>
      if !mixed then Record(name, row, ResultString, StringType)
      else
        var n := ToNumber(reader, row.cell);
        var stripped := AsStripped(reader, row);
        var m := ToNumber(reader, stripped.cell);
        if n.Some? then [Observation(row.time, ResultNumber, Number(n.value), NumberType, name)]
        else if m.Some? then [Observation(row.time, ResultNumber, Number(m.value), NumberType, name)]
        else Record(name, stripped, ResultString, StringType)
    case Unsupported => []
  }

  function OfRows(reader: Reader, name: string, dtype: DType, mixed: bool, rows: seq<Row>): seq<Observation> {
    if rows == [] then []
    else OfRows(reader, name, dtype, mixed, rows[..|rows| - 1]) + OfRow(reader, name, dtype, mixed, rows[|rows| - 1])
  }

  lemma {:induction false} RecordsByRow(reader: Reader, name: string, dtype: DType, mixed: bool, rows: seq<Row>)
    requires dtype.Object? ==> !mixed
    ensures OfRows(reader, name, dtype, mixed, rows) ==
            match dtype
            case Numeric => Records(name, rows, ResultNumber, NumberType)
            case Boolean => Records(name, rows, ResultBool, BoolType)
            case Object => Records(name, rows, ResultString, StringType)
            case Unsupported => []
  {
    if rows != [] { RecordsByRow(reader, name, dtype, mixed, rows[..|rows| - 1]); }
  }

  /** Splitting shares the values of the rows out among the two parts. `again` says whether the strings will
      be split once more. */
  lemma {:induction false} SplitByRow(reader: Reader, name: string, rows: seq<Row>, again: bool)
    requires StripsOnce(reader)
    requires !again ==> !Mixed(reader, Strings(reader, rows))
    ensures multiset(OfRows(reader, name, Object, true, rows)) ==
            multiset(OfRows(reader, name, Object, again, Strings(reader, rows)))
            + multiset(Records(name, Numbers(reader, rows), ResultNumber, NumberType))
  {
    if rows != [] {
      var n := |rows| - 1;
      var front, last := rows[..n], rows[n];
      LastSplit(reader, rows, again);
      SplitByRow(reader, name, front, again);
      StringRow(reader, name, last, again);
      Shuffle(OfRows(reader, name, Object, true, front), OfRows(reader, name, Object, again, Strings(reader, front)),
              Records(name, Numbers(reader, front), ResultNumber, NumberType), OfRow(reader, name, Object, true, last));
      RowsTogether(reader, name, again, Strings(reader, front), AsStripped(reader, last));
      RecordsTogether(name, Numbers(reader, front), AsNumber(reader, last));
    }
  }

  lemma LastSplit(reader: Reader, rows: seq<Row>, again: bool)
    requires rows != [] && (!again ==> !Mixed(reader, Strings(reader, rows)))
    ensures var front, last := rows[..|rows| - 1], rows[|rows| - 1];
            && Numbers(reader, rows) == Numbers(reader, front) + [AsNumber(reader, last)]
            && (!again ==> !Mixed(reader, Strings(reader, front)))
            && (ToNumber(reader, last.cell).None? && !again ==> ToNumber(reader, AsStripped(reader, last).cell).None?)
            && Strings(reader, rows) ==
                Strings(reader, front) + if ToNumber(reader, last.cell).Some? then [] else [AsStripped(reader, last)]
  {
    var strings, front := Strings(reader, rows), Strings(reader, rows[..|rows| - 1]);
    assert forall i :: 0 <= i < |front| ==> strings[i] == front[i];
    var last := rows[|rows| - 1];
    assert ToNumber(reader, last.cell).None? ==> strings[|strings| - 1] == AsStripped(reader, last);
    assert Numbers(reader, rows) == Numbers(reader, rows[..|rows| - 1]) + [AsNumber(reader, last)];
  }

  lemma RowsTogether(reader: Reader, name: string, mixed: bool, rows: seq<Row>, row: Row)
    ensures OfRows(reader, name, Object, mixed, rows + [row]) ==
            OfRows(reader, name, Object, mixed, rows) + OfRow(reader, name, Object, mixed, row)
  {
    assert (rows + [row])[..|rows|] == rows;
  }

  lemma RecordsTogether(name: string, rows: seq<Row>, row: Row)
    ensures Records(name, rows + [row], ResultNumber, NumberType)
            == Records(name, rows, ResultNumber, NumberType) + Record(name, row, ResultNumber, NumberType)
  {
    assert (rows + [row])[..|rows|] == rows;
  }

  lemma Shuffle<T>(all: seq<T>, left: seq<T>, right: seq<T>, more: seq<T>)
    requires multiset(all) == multiset(left) + multiset(right)
    ensures multiset(all + more) == multiset(left + more) + multiset(right)
    ensures multiset(all + more) == multiset(left) + multiset(right + more)
  {
  }

  lemma StringRow(reader: Reader, name: string, row: Row, again: bool)
    requires StripsOnce(reader)
    requires ToNumber(reader, row.cell).None? && !again ==> ToNumber(reader, AsStripped(reader, row).cell).None?
    ensures OfRow(reader, name, Object, true, row) ==
            if ToNumber(reader, row.cell).Some? then Record(name, AsNumber(reader, row), ResultNumber, NumberType)
            else OfRow(reader, name, Object, again, AsStripped(reader, row))
    ensures ToNumber(reader, row.cell).None? ==> Record(name, AsNumber(reader, row), ResultNumber, NumberType) == []
  {
    assert row.cell.Text? ==> reader.strip(reader.strip(row.cell.s)) == reader.strip(row.cell.s);
  }

  /** Nothing is lost, doubled or moved: the observations of a column are those of its rows, one by one. */
  lemma {:induction false} ColumnConserved(reader: Reader, col: Column)
    requires StripsOnce(reader) && !col.dtype.Unsupported?
    ensures multiset(OfColumn(reader, col)) ==
            multiset(OfRows(reader, col.name, col.dtype, Mixed(reader, col.rows), col.rows))
    decreases Weight(col)
  {
    if col.dtype.Object? && Mixed(reader, col.rows) {
      var strings := Strings(reader, col.rows);
      ColumnConserved(reader, Column(col.name, Object, strings));
      SplitByRow(reader, col.name, col.rows, Mixed(reader, strings));
    } else {
      RecordsByRow(reader, col.name, col.dtype, Mixed(reader, col.rows), col.rows);
    }
  }

  /** The result type of every observation says which field is filled. */
  predicate Tagged(o: Observation) {
    match o.field
    case ResultNumber => o.resultType.NumberType?
    case ResultString => o.resultType.StringType?
    case ResultBool => o.resultType.BoolType?
  }

  /** Neither a number nor a string, in an object column that holds numbers as well. */
  predicate Lost(dtype: DType, mixed: bool, row: Row) {
    dtype.Object? && mixed && !row.cell.Number? && !row.cell.Text?
  }

  /** The value an observation is to carry: in an object column with numbers, numbers are read and strings
      stripped; otherwise the value as it is. */
  function Expected(reader: Reader, dtype: DType, mixed: bool, cell: Cell): Cell {
    if !(dtype.Object? && mixed) then cell
    else if cell.Text? then
      if reader.number(cell.s).Some? then Number(reader.number(cell.s).value) else Text(reader.strip(cell.s))
    else cell
  }

  /** Every row gives one observation, with its own time and column, exactly if there is a value and it is
      not lost in a mixed column; a missing value gives none. The observation carries the expected value
      exactly if stripping makes no number of a string that is none. */
  lemma RowIsObserved(reader: Reader, name: string, dtype: DType, mixed: bool, row: Row)
    requires !dtype.Unsupported?
    ensures var out := OfRow(reader, name, dtype, mixed, row);
            && (|out| == 1 <==> !row.cell.Missing? && !Lost(dtype, mixed, row))
            && (|out| != 1 ==> out == [])
            && (|out| == 1 ==>
                  && out[0].time == row.time && out[0].position == name && Tagged(out[0])
                  && (out[0].value == Expected(reader, dtype, mixed, row.cell) <==>
                      !(dtype.Object? && mixed && row.cell.Text? && reader.number(row.cell.s).None? &&
                        reader.number(reader.strip(row.cell.s)).Some?)))
  {
  }

  /** Some value of the rows is a number, or text that reads as one. */
  ghost predicate SomeNumber(reader: Reader, rows: seq<Row>) {
    exists i :: 0 <= i < |rows| && (rows[i].cell.Number? || (rows[i].cell.Text? && reader.number(rows[i].cell.s).Some?))
  }

  /** The row gives the observation. Numeric and boolean columns give their values, object columns without numbers
      strings; beside numbers, numbers are given as such, and text as a number if it reads as one as it is or
      stripped, and otherwise stripped. */
  ghost predicate Gives(reader: Reader, name: string, dtype: DType, mixed: bool, row: Row, o: Observation) {
    && o.time == row.time && o.position == name && !row.cell.Missing?
    && match dtype
       case Numeric => o.field == ResultNumber && o.resultType == NumberType && o.value == row.cell
       case Boolean => o.field == ResultBool && o.resultType == BoolType && o.value == row.cell
       case Unsupported => false
       case Object =>
         if !mixed then o.field == ResultString && o.resultType == StringType && o.value == row.cell
         else match row.cell
           case Number(n) => o.field == ResultNumber && o.resultType == NumberType && o.value == Number(n)
           case Text(s) =>
             var read := if reader.number(s).Some? then reader.number(s) else reader.number(reader.strip(s));
             if read.Some? then o.field == ResultNumber && o.resultType == NumberType && o.value == Number(read.value)
             else o.field == ResultString && o.resultType == StringType && o.value == Text(reader.strip(s))
           case _ => false
  }

  /** Some row of some column gives the observation. */
  ghost predicate GivenByFile(reader: Reader, data: seq<Column>, o: Observation) {
    exists c :: 0 <= c < |data| && GivenByColumn(reader, data[c], o)
  }

  ghost predicate GivenByColumn(reader: Reader, col: Column, o: Observation) {
    exists i :: 0 <= i < |col.rows| && Gives(reader, col.name, col.dtype, SomeNumber(reader, col.rows), col.rows[i], o)
  }

  lemma RowGives(reader: Reader, name: string, dtype: DType, mixed: bool, row: Row, o: Observation)
    ensures o in OfRow(reader, name, dtype, mixed, row) <==> Gives(reader, name, dtype, mixed, row, o)
  {
  }

  lemma {:induction false} RowsGive(reader: Reader, name: string, dtype: DType, mixed: bool, rows: seq<Row>,
                                    o: Observation)
    ensures o in OfRows(reader, name, dtype, mixed, rows) <==>
            exists i :: 0 <= i < |rows| && Gives(reader, name, dtype, mixed, rows[i], o)
  {
    if rows != [] {
      var n := |rows| - 1;
      RowsGive(reader, name, dtype, mixed, rows[..n], o);
      RowGives(reader, name, dtype, mixed, rows[n], o);
      assert forall i :: 0 <= i < n ==> rows[..n][i] == rows[i];
    }
  }

  lemma MixedIs(reader: Reader, rows: seq<Row>)
    ensures Mixed(reader, rows) <==> SomeNumber(reader, rows)
  {
    if Mixed(reader, rows) {
      var i :| 0 <= i < |rows| && ToNumber(reader, rows[i].cell).Some?;
      assert rows[i].cell.Number? || (rows[i].cell.Text? && reader.number(rows[i].cell.s).Some?);
    }
    if SomeNumber(reader, rows) {
      var i :| 0 <= i < |rows| && (rows[i].cell.Number? || (rows[i].cell.Text? && reader.number(rows[i].cell.s).Some?));
      assert ToNumber(reader, rows[i].cell).Some?;
    }
  }

  lemma ColumnGives(reader: Reader, col: Column, o: Observation)
    ensures o in OfRows(reader, col.name, col.dtype, Mixed(reader, col.rows), col.rows) <==>
            GivenByColumn(reader, col, o)
  {
    RowsGive(reader, col.name, col.dtype, Mixed(reader, col.rows), col.rows, o);
    MixedIs(reader, col.rows);
  }

  lemma {:induction false} FileGives(reader: Reader, data: seq<Column>, o: Observation)
    ensures o in OfFile(reader, data) <==> GivenByFile(reader, data, o)
  {
    if data != [] {
      var n := |data| - 1;
      FileGives(reader, data[..n], o);
      ColumnGives(reader, data[n], o);
      assert forall c :: 0 <= c < n ==> data[..n][c] == data[c];
    }
  }

  lemma AllGiven(reader: Reader, data: seq<Column>, observations: seq<Observation>)
    requires multiset(observations) == multiset(OfFile(reader, data))
    ensures forall o :: o in observations <==> GivenByFile(reader, data, o)
  {
    forall o ensures o in observations <==> GivenByFile(reader, data, o) {
      FileGives(reader, data, o);
      assert o in observations <==> o in multiset(observations);
      assert o in OfFile(reader, data) <==> o in multiset(OfFile(reader, data));
    }
  }

  /** The observations of all rows of all columns, one by one. */
  function OfFile(reader: Reader, data: seq<Column>): seq<Observation> {
    if data == [] then []
    else
      var last := data[|data| - 1];
      OfFile(reader, data[..|data| - 1]) + OfRows(reader, last.name, last.dtype, Mixed(reader, last.rows), last.rows)
  }

  lemma {:induction false} FileConserved(reader: Reader, data: seq<Column>)
    requires StripsOnce(reader) && AllSupported(data)
    ensures multiset(OfColumns(reader, data)) == multiset(OfFile(reader, data))
  {
    if data != [] {
      FileConserved(reader, data[..|data| - 1]);
      ColumnConserved(reader, data[|data| - 1]);
    }
  }

  /** A reader that takes "1" for a number, and leading blanks off. */
  function Blanks(s: string): string {
    if s != [] && s[0] == ' ' then Blanks(s[1..]) else s
  }

  function Plain(): Reader {
    Reader(s => if s == "1" then Some(1.0) else None, s => Blanks(s))
  }

  /** A list beside a number: the number is observed, the list is gone. Alone it is kept. */
  method ListIsLost()
      returns (mixed: Result<seq<Observation>, Unsupported>, alone: Result<seq<Observation>, Unsupported>)
    ensures mixed == Ok([Observation("t2", ResultNumber, Number(1.0), NumberType, "c")])
    ensures alone == Ok([Observation("t1", ResultString, Opaque("[]"), StringType, "c")])
  {
    var list, number := Row("t1", Opaque("[]")), Row("t2", Text("1"));
    BesideANumber(list, number);
    var both, one := Column("c", Object, [list, number]), Column("c", Object, [list]);
    OneColumn(Plain(), both);
    OneColumn(Plain(), one);
    mixed := ToObservations(Plain(), [both]);
    alone := ToObservations(Plain(), [one]);
  }

  lemma OneColumn(reader: Reader, col: Column)
    ensures OfColumns(reader, [col]) == OfColumn(reader, col)
    ensures AllSupported([col]) <==> !col.dtype.Unsupported?
  {
    assert [col][..0] == [];
  }

  lemma BesideANumber(list: Row, number: Row)
    requires list == Row("t1", Opaque("[]")) && number == Row("t2", Text("1"))
    ensures OfColumn(Plain(), Column("c", Object, [list, number])) ==
            [Observation("t2", ResultNumber, Number(1.0), NumberType, "c")]
    ensures OfColumn(Plain(), Column("c", Object, [list])) ==
            [Observation("t1", ResultString, Opaque("[]"), StringType, "c")]
  {
    var reader, rows := Plain(), [list, number];
    assert ToNumber(reader, rows[1].cell).Some? && Mixed(reader, rows);
    assert rows[..1] == [list] && [list][..0] == [];
    assert Strings(reader, [list]) == [Row("t1", Missing)] && Strings(reader, rows) == [Row("t1", Missing)];
    assert [Row("t1", Missing)][..0] == [];
    assert Numbers(reader, rows) == [Row("t1", Missing), Row("t2", Number(1.0))];
    assert [Row("t1", Missing), Row("t2", Number(1.0))][..1] == [Row("t1", Missing)];
  }

  /** Text that stripping makes a number: in a column with numbers it becomes one. */
  lemma StrippedToANumber(row: Row)
    requires row == Row("t", Text(" 1"))
    ensures OfRow(Plain(), "c", Object, true, row) == [Observation("t", ResultNumber, Number(1.0), NumberType, "c")]
    ensures Expected(Plain(), Object, true, row.cell) == Text("1")
  {
    assert Blanks(" 1") == "1" by { assert " 1"[1..] == "1"; }
  }
}
