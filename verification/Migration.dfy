/** Moving the datastreams of a thing from column positions to column headers: the position stream takes
    the header's name, and the header stream, whose observations it is checked to repeat, goes. */
module Migration {
  import opened Wrappers

  datatype Value = Value(kind: int, number: Option<real>, text: Option<string>, json: Option<string>,
                         flag: Option<bool>)

  datatype Stream = Stream(thing: string, position: string, name: string)

  /** Primary key of a datastream. */
  datatype Id = Id(number: int)

  datatype Key = Key(stream: Id, time: int)

  /** The tables: thing names, datastreams and observations, one per datastream and time. */
  datatype Store = Store(things: map<string, string>, streams: map<Id, Stream>, observations: map<Key, Value>)

  /** One line of a mapping: the old position and the header that replaces it. */
  datatype Pair = Pair(position: string, header: string)

  datatype Mapping = Mapping(thing: string, pairs: seq<Pair>)

  datatype Failure = NoMapping | NoDatastream

  datatype Comparison = Comparison(positionId: Id, headerId: Id, pair: Pair, equal: bool)

  /** Every datastream belongs to a thing and every observation to a datastream. */
  ghost predicate ForeignKeys(s: Store) {
    && (forall id :: id in s.streams ==> s.streams[id].thing in s.things)
    && (forall k :: k in s.observations ==> k.stream in s.streams)
  }

  ghost predicate UniqueFor(s: Store, thing: string) {
    forall a, b ::
      (a in s.streams && b in s.streams && s.streams[a].thing == thing && s.streams[b].thing == thing
       && s.streams[a].position == s.streams[b].position) ==> a == b
  }

  /** The constraint on (thing, position). */
  ghost predicate Unique(s: Store) {
    forall thing :: UniqueFor(s, thing)
  }

  predicate At(s: Store, id: Id, thing: string, position: string) {
    id in s.streams && s.streams[id].thing == thing && s.streams[id].position == position
  }

  function ObservationsOf(s: Store, id: Id): map<int, Value> {
    map k | k in s.observations && k.stream == id :: k.time := s.observations[k]
  }

  // ---------------------------------------------------------------- comparing two datastreams

  predicate IsLeast(s: set<int>, m: int) {
    m in s && forall x :: x in s ==> m <= x
  }

  predicate IsGreatest(s: set<int>, m: int) {
    m in s && forall x :: x in s ==> x <= m
  }

  lemma SomeMember(s: set<int>)
    requires s != {}
    ensures exists x: int :: x in s
  {
    if forall x: int :: x !in s { assert false; }
  }

  lemma {:induction false} LeastExists(s: set<int>)
    requires s != {}
    ensures exists m :: IsLeast(s, m)
  {
    SomeMember(s);
    var x :| x in s;
    var rest := s - {x};
    if rest == {} {
      assert s == {x};
      assert IsLeast(s, x);
    } else {
      LeastExists(rest);
      var m :| IsLeast(rest, m);
      assert forall y :: y in s ==> y == x || y in rest;
      assert IsLeast(s, if m <= x then m else x);
    }
  }

  lemma {:induction false} GreatestExists(s: set<int>)
    requires s != {}
    ensures exists m :: IsGreatest(s, m)
  {
    SomeMember(s);
    var x :| x in s;
    var rest := s - {x};
    if rest == {} {
      assert s == {x};
      assert IsGreatest(s, x);
    } else {
      GreatestExists(rest);
      var m :| IsGreatest(rest, m);
      assert forall y :: y in s ==> y == x || y in rest;
      assert IsGreatest(s, if m <= x then x else m);
    }
  }

  function Least(s: set<int>): (m: int)
    requires s != {}
    ensures IsLeast(s, m)
  {
    LeastExists(s);
    var m :| IsLeast(s, m);
    m
  }

  function Greatest(s: set<int>): (m: int)
    requires s != {}
    ensures IsGreatest(s, m)
  {
    GreatestExists(s);
    var m :| IsGreatest(s, m);
    m
  }

  /** `rows` within the time range of `header`; nothing when there is no range. */
  function WithinRange(rows: map<int, Value>, header: map<int, Value>): map<int, Value> {
    if header.Keys == {} then map[]
    else map t | t in rows && Least(header.Keys) <= t <= Greatest(header.Keys) :: rows[t]
  }

  function EqualInRange(rows: map<int, Value>, header: map<int, Value>): bool {
    WithinRange(rows, header) == WithinRange(header, header)
  }

  ghost predicate Includes(rows: map<int, Value>, part: map<int, Value>) {
    forall t :: t in part ==> t in rows && rows[t] == part[t]
  }

  /** What the comparison establishes: the position stream repeats all of the header stream and has
      nothing else between the header's observations. */
  lemma ComparisonMeans(rows: map<int, Value>, header: map<int, Value>)
    ensures EqualInRange(rows, header) <==>
            && Includes(rows, header)
            && forall t, a, b :: t in rows && a in header && b in header && a <= t <= b ==> t in header
  {
    if header.Keys != {} {
      var lo, hi := Least(header.Keys), Greatest(header.Keys);
      assert lo in header && hi in header;
      assert WithinRange(header, header) == header;
      if EqualInRange(rows, header) {
        forall t | t in header ensures t in rows && rows[t] == header[t] {
          assert t in WithinRange(rows, header);
          assert WithinRange(rows, header)[t] == header[t];
        }
        forall t, a, b | t in rows && a in header && b in header && a <= t <= b ensures t in header {
          assert t in WithinRange(rows, header);
        }
      }
      if Includes(rows, header)
         && forall t, a, b :: t in rows && a in header && b in header && a <= t <= b ==> t in header {
        assert forall t :: t in WithinRange(rows, header) ==> lo <= t <= hi;
        assert WithinRange(rows, header) == header;
      }
    }
  }

  // ---------------------------------------------------------------- what a whole mapping does

  predicate Existing(s: Store, thing: string, position: string) {
    exists id :: id in s.streams && At(s, id, thing, position)
  }

  /** The comparison of one pair succeeds. */
  ghost predicate Matches(s: Store, thing: string, pair: Pair) {
    forall p, h :: At(s, p, thing, pair.position) && At(s, h, thing, pair.header) ==>
                     EqualInRange(ObservationsOf(s, p), ObservationsOf(s, h))
  }

  ghost predicate AllExist(s: Store, m: Mapping) {
    m.pairs != [] &&
    forall i :: 0 <= i < |m.pairs| ==>
        Existing(s, m.thing, m.pairs[i].position) && Existing(s, m.thing, m.pairs[i].header)
  }

  ghost predicate AllMatch(s: Store, m: Mapping) {
    forall i :: 0 <= i < |m.pairs| ==> Matches(s, m.thing, m.pairs[i])
  }

  /** Old positions are the keys of a dictionary. */
  ghost predicate DistinctPositions(pairs: seq<Pair>) {
    forall i, j :: 0 <= i < j < |pairs| ==> pairs[i].position != pairs[j].position
  }

  ghost predicate DistinctHeaders(pairs: seq<Pair>) {
    forall i, j :: 0 <= i < j < |pairs| ==> pairs[i].header != pairs[j].header
  }

  ghost predicate IsHeader(pairs: seq<Pair>, name: string) {
    exists j :: 0 <= j < |pairs| && pairs[j].header == name
  }

  ghost predicate IsPosition(pairs: seq<Pair>, name: string) {
    exists j :: 0 <= j < |pairs| && pairs[j].position == name
  }

  /** Headers are distinct, and none is itself an old position. */
  ghost predicate Safe(pairs: seq<Pair>) {
    DistinctHeaders(pairs) && forall j :: 0 <= j < |pairs| ==> !IsPosition(pairs, pairs[j].header)
  }

  function Rename(s: Stream, thing: string, thingName: string, pair: Pair): Stream {
    if s.thing == thing && s.position == pair.position
    then Stream(thing, pair.header, thingName + "/" + pair.header)
    else s
  }

  /** One datastream through all renaming steps, in order. */
  function RenameAll(s: Stream, thing: string, thingName: string, pairs: seq<Pair>): Stream {
    if pairs == [] then s
    else Rename(RenameAll(s, thing, thingName, pairs[..|pairs| - 1]), thing, thingName, pairs[|pairs| - 1])
  }

  lemma {:induction false} RenameAllKeepsThing(s: Stream, thing: string, thingName: string, pairs: seq<Pair>)
    ensures RenameAll(s, thing, thingName, pairs).thing == s.thing
  {
    if pairs != [] { RenameAllKeepsThing(s, thing, thingName, pairs[..|pairs| - 1]); }
  }

  lemma {:induction false} UnmappedStays(s: Stream, thing: string, thingName: string, pairs: seq<Pair>)
    requires s.thing != thing || !IsPosition(pairs, s.position)
    ensures RenameAll(s, thing, thingName, pairs) == s
  {
    if pairs != [] {
      var front := pairs[..|pairs| - 1];
      if s.thing == thing {
        assert pairs[|pairs| - 1].position != s.position;
        assert forall j :: 0 <= j < |front| ==> front[j] == pairs[j];
      }
      UnmappedStays(s, thing, thingName, front);
    }
  }

  lemma {:induction false} MappedIsRenamed(s: Stream, thing: string, thingName: string, pairs: seq<Pair>, i: nat)
    requires DistinctPositions(pairs) && Safe(pairs)
    requires i < |pairs| && s.thing == thing && s.position == pairs[i].position
    ensures RenameAll(s, thing, thingName, pairs) == Stream(thing, pairs[i].header, thingName + "/" + pairs[i].header)
  {
    var n := |pairs| - 1;
    var front := pairs[..n];
    assert forall j :: 0 <= j < n ==> front[j] == pairs[j];
    if i == n {
      assert !IsPosition(front, s.position);
      UnmappedStays(s, thing, thingName, front);
    } else {
      assert Safe(front) by {
        forall j | 0 <= j < n ensures !IsPosition(front, front[j].header) {
          assert !IsPosition(pairs, pairs[j].header);
          assert forall k :: 0 <= k < n ==> front[k] == pairs[k];
        }
      }
      MappedIsRenamed(s, thing, thingName, front, i);
      assert !IsPosition(pairs, pairs[i].header);
    }
  }

  /** What a successful migration of `m` leaves of the thing's datastreams. */
  ghost predicate Migrated(before: Store, after: Store, m: Mapping) {
    && m.thing in before.things
    && (forall id :: id in before.streams && before.streams[id].thing == m.thing ==>
          (id in after.streams <==> !IsHeader(m.pairs, before.streams[id].position)))
    && (forall id :: id in before.streams && id in after.streams && before.streams[id].thing == m.thing ==>
          && after.streams[id] == RenameAll(before.streams[id], m.thing, before.things[m.thing], m.pairs)
          && ObservationsOf(after, id) == ObservationsOf(before, id))
    && (forall id :: id in after.streams && after.streams[id].thing == m.thing ==>
          id in before.streams && before.streams[id].thing == m.thing)
  }

  ghost predicate NothingNew(before: Store, after: Store) {
    && after.things == before.things
    && after.streams.Keys <= before.streams.Keys && after.observations.Keys <= before.observations.Keys
  }

  /** The datastreams of `thing` are the same. */
  ghost predicate SameStreams(before: Store, after: Store, thing: string) {
    && (forall id :: id in before.streams && before.streams[id].thing == thing ==>
          id in after.streams && after.streams[id] == before.streams[id] &&
              ObservationsOf(after, id) == ObservationsOf(before, id))
    && (forall id :: id in after.streams && after.streams[id].thing == thing ==>
          id in before.streams && before.streams[id].thing == thing)
  }

  /** Every old position stream is now the stream of its header, with all its observations. */
  ghost predicate Moved(before: Store, after: Store, m: Mapping) {
    forall i :: 0 <= i < |m.pairs| ==> MovedOne(before, after, m.thing, m.pairs[i])
  }

  ghost predicate MovedOne(before: Store, after: Store, thing: string, pair: Pair) {
    forall id :: At(before, id, thing, pair.position) ==>
      && At(after, id, thing, pair.header)
      && thing in before.things && after.streams[id].name == before.things[thing] + "/" + pair.header
      && ObservationsOf(after, id) == ObservationsOf(before, id)
  }

  /** A migration does what it is for, and the constraint can be put back, exactly if the headers are
      distinct and none of them is an old position as well. */
  lemma MigrationSucceedsIffSafe(before: Store, after: Store, m: Mapping)
    requires UniqueFor(before, m.thing) && AllExist(before, m) && DistinctPositions(m.pairs)
    requires Migrated(before, after, m)
    ensures Moved(before, after, m) && UniqueFor(after, m.thing) <==> Safe(m.pairs)
  {
    if Safe(m.pairs) {
      SafeMoves(before, after, m);
      SafeIsUnique(before, after, m);
    } else if Moved(before, after, m) && UniqueFor(after, m.thing) {
      if j :| 0 <= j < |m.pairs| && IsPosition(m.pairs, m.pairs[j].header) {
        HeaderThatIsAPosition(before, after, m, j);
      } else {
        var i, j :| 0 <= i < j < |m.pairs| && m.pairs[i].header == m.pairs[j].header;
        SharedHeader(before, after, m, i, j);
      }
    }
  }

  lemma SafeMoves(before: Store, after: Store, m: Mapping)
    requires DistinctPositions(m.pairs) && Safe(m.pairs) && Migrated(before, after, m)
    ensures Moved(before, after, m)
  {
    forall i, id | 0 <= i < |m.pairs| && At(before, id, m.thing, m.pairs[i].position)
      ensures At(after, id, m.thing, m.pairs[i].header) && ObservationsOf(after, id) == ObservationsOf(before, id)
      ensures after.streams[id].name == before.things[m.thing] + "/" + m.pairs[i].header
    {
      assert !IsHeader(m.pairs, m.pairs[i].position) by { assert IsPosition(m.pairs, m.pairs[i].position); }
      MappedIsRenamed(before.streams[id], m.thing, before.things[m.thing], m.pairs, i);
    }
  }

  /** The position stream is then also a header stream and deleted. */
  lemma HeaderThatIsAPosition(before: Store, after: Store, m: Mapping, j: nat)
    requires AllExist(before, m) && Migrated(before, after, m)
    requires j < |m.pairs| && IsPosition(m.pairs, m.pairs[j].header)
    ensures !Moved(before, after, m)
  {
    var i :| 0 <= i < |m.pairs| && m.pairs[i].position == m.pairs[j].header;
    assert Existing(before, m.thing, m.pairs[i].position);
    var id :| id in before.streams && At(before, id, m.thing, m.pairs[i].position);
    assert IsHeader(m.pairs, before.streams[id].position);
    assert !MovedOne(before, after, m.thing, m.pairs[i]);
  }

  /** Two position streams then carry the same name. */
  lemma SharedHeader(before: Store, after: Store, m: Mapping, i: nat, j: nat)
    requires AllExist(before, m) && DistinctPositions(m.pairs)
    requires i < j < |m.pairs| && m.pairs[i].header == m.pairs[j].header
    ensures !Moved(before, after, m) || !UniqueFor(after, m.thing)
  {
    assert Existing(before, m.thing, m.pairs[i].position) && Existing(before, m.thing, m.pairs[j].position);
    var a :| a in before.streams && At(before, a, m.thing, m.pairs[i].position);
    var b :| b in before.streams && At(before, b, m.thing, m.pairs[j].position);
    if Moved(before, after, m) {
      assert MovedOne(before, after, m.thing, m.pairs[i]) && MovedOne(before, after, m.thing, m.pairs[j]);
      assert At(after, a, m.thing, m.pairs[i].header) && At(after, b, m.thing, m.pairs[j].header);
    }
  }

  lemma SafeIsUnique(before: Store, after: Store, m: Mapping)
    requires UniqueFor(before, m.thing) && DistinctPositions(m.pairs) && Safe(m.pairs) && Migrated(before, after, m)
    ensures UniqueFor(after, m.thing)
  {
    forall a, b | a in after.streams && b in after.streams
                  && after.streams[a].thing == m.thing && after.streams[b].thing == m.thing
                  && after.streams[a].position == after.streams[b].position
      ensures a == b
    {
      PositionBefore(before, after, m, a);
      PositionBefore(before, after, m, b);
    }
  }

  /** A surviving stream's old position follows from its new one. */
  lemma PositionBefore(before: Store, after: Store, m: Mapping, id: Id)
    requires DistinctPositions(m.pairs) && Safe(m.pairs) && Migrated(before, after, m)
    requires id in after.streams && after.streams[id].thing == m.thing
    ensures id in before.streams && before.streams[id].thing == m.thing
    ensures forall i :: 0 <= i < |m.pairs| && m.pairs[i].header == after.streams[id].position ==>
                          before.streams[id].position == m.pairs[i].position
    ensures !IsHeader(m.pairs, after.streams[id].position) ==> before.streams[id].position == after.streams[id].position
  {
    var was := before.streams[id];
    if k :| 0 <= k < |m.pairs| && m.pairs[k].position == was.position {
      MappedIsRenamed(was, m.thing, before.things[m.thing], m.pairs, k);
    } else {
      UnmappedStays(was, m.thing, before.things[m.thing], m.pairs);
    }
  }

  /** No observation is lost: whatever either stream of a pair held is found under the header's name,
      which belongs to one stream only. */
  lemma NothingIsLost(before: Store, after: Store, m: Mapping, i: nat, p: Id, h: Id)
    requires UniqueFor(before, m.thing) && AllExist(before, m) && AllMatch(before, m) && DistinctPositions(m.pairs)
    requires Safe(m.pairs) && Migrated(before, after, m)
    requires i < |m.pairs| && At(before, p, m.thing, m.pairs[i].position) && At(before, h, m.thing, m.pairs[i].header)
    ensures forall id :: At(after, id, m.thing, m.pairs[i].header) <==> id == p
    ensures ObservationsOf(after, p) == ObservationsOf(before, p)
    ensures Includes(ObservationsOf(after, p), ObservationsOf(before, h))
    ensures h !in after.streams
  {
    MigrationSucceedsIffSafe(before, after, m);
    assert Matches(before, m.thing, m.pairs[i]);
    ComparisonMeans(ObservationsOf(before, p), ObservationsOf(before, h));
  }

  /** Two positions that trade names, with nothing in common but their observations: each header is also
      a position, both streams go, and with them every observation. */
  lemma TradedNamesLoseEverything(before: Store, after: Store, m: Mapping)
    requires m.pairs == [Pair("1", "2"), Pair("2", "1")]
    requires AllExist(before, m) && Migrated(before, after, m)
    ensures forall id :: At(before, id, m.thing, "1") || At(before, id, m.thing, "2") ==> id !in after.streams
  {
    assert m.pairs[0].header == "2" && m.pairs[1].header == "1";
  }

  // ---------------------------------------------------------------- running it

  /** What is reported of one pair: its two streams, and whether the comparison succeeds. */
  ghost predicate IsComparison(s: Store, thing: string, pair: Pair, c: Comparison) {
    && c.pair == pair
    && At(s, c.positionId, thing, pair.position) && At(s, c.headerId, thing, pair.header)
    && (c.equal <==> Matches(s, thing, pair))
  }

  predicate Owns(s: Store, thing: string, id: Id) {
    id in s.streams && s.streams[id].thing == thing
  }

  /** Every stream of the thing at the position carries the new position and name, all others and all
      observations are as before. */
  ghost predicate RenamedAt(before: Store, after: Store, thing: string, pair: Pair) {
    && thing in before.things && after.things == before.things && after.observations == before.observations
    && (forall id :: id in after.streams <==> id in before.streams)
    && (forall id :: id in before.streams ==>
          if At(before, id, thing, pair.position)
          then At(after, id, thing, pair.header) && after.streams[id].name == before.things[thing] + "/" + pair.header
          else after.streams[id] == before.streams[id])
  }

  lemma NoneObserved(s: Store, id: Id)
    ensures ObservationsOf(s, id) == map[] <==> forall k :: k in s.observations ==> k.stream != id
  {
    forall k | k in s.observations && k.stream == id ensures k.time in ObservationsOf(s, id) {
    }
  }

  class Migrator {
    /** What other connections see. */
    var committed: Store
    /** The working state of the open transaction. */
    var store: Store

    constructor (s: Store)
      ensures committed == s && store == s
    {
      committed, store := s, s;
    }

    method FindDatastream(thing: string, position: string) returns (found: Option<Id>)
      ensures found.Some? ==> At(committed, found.value, thing, position)
      ensures found.None? ==> !Existing(committed, thing, position)
    {
      if Existing(committed, thing, position) {
        var id :| id in committed.streams && At(committed, id, thing, position);
        return Some(id);
      }
      return None;
    }

    /** Every pair is found and compared, or the comparison fails as a whole. */
    method CompareDatastreams(m: Mapping) returns (r: Result<seq<Comparison>, Failure>)
      requires UniqueFor(committed, m.thing)
      ensures r.Ok? <==> AllExist(committed, m)
      ensures r.Ok? ==> |r.value| == |m.pairs|
      ensures r.Ok? ==> forall i :: 0 <= i < |m.pairs| ==>
                IsComparison(committed, m.thing, m.pairs[i], r.value[i])
    {
      if m.pairs == [] { return Err(NoMapping); }
      assert forall i, c :: 0 <= i < |m.pairs| && IsComparison(committed, m.thing, m.pairs[i], c) ==>
               Existing(committed, m.thing, m.pairs[i].position) && Existing(committed, m.thing, m.pairs[i].header);
      var results: seq<Comparison> := [];
      for i := 0 to |m.pairs|
        invariant |results| == i
        invariant forall j :: 0 <= j < i ==> IsComparison(committed, m.thing, m.pairs[j], results[j])
      {
        var c := CompareOne(m.thing, m.pairs[i]);
        if c.Err? { return Err(c.error); }
        results := results + [c.value];
      }
      return Ok(results);
    }

    /** One pair: both streams are looked up, and their observations compared. */
    method CompareOne(thing: string, pair: Pair) returns (r: Result<Comparison, Failure>)
      requires UniqueFor(committed, thing)
      ensures r.Ok? <==> Existing(committed, thing, pair.position) && Existing(committed, thing, pair.header)
      ensures r.Ok? ==> IsComparison(committed, thing, pair, r.value)
    {
      var position := FindDatastream(thing, pair.position);
      var header := FindDatastream(thing, pair.header);
      if position.None? || header.None? { return Err(NoDatastream); }
      var equal := EqualInRange(ObservationsOf(committed, position.value), ObservationsOf(committed, header.value));
      r := Ok(Comparison(position.value, header.value, pair, equal));
    }

    /** Renames every datastream of the thing at the old position; `false` when there is no such thing. */
    method RenameDatastream(thing: string, pair: Pair) returns (found: bool)
      modifies this`store
      ensures found <==> thing in old(store).things
      ensures !found ==> store == old(store)
      ensures found ==> RenamedAt(old(store), store, thing, pair)
    {
      if thing !in store.things { return false; }
      store := store.(streams :=
        map id | id in store.streams :: Rename(store.streams[id], thing, store.things[thing], pair));
      return true;
    }

    method DeleteDatastreamObservations(thing: string, id: Id)
      modifies this`store
      ensures store == old(store).(observations := store.observations)
      ensures old(ForeignKeys(store)) ==> ForeignKeys(store)
      ensures forall s :: ObservationsOf(store, s) ==
                if s == id && Owns(old(store), thing, id) then map[] else ObservationsOf(old(store), s)
    {
      store := store.(observations :=
        map k | k in store.observations && !(k.stream == id && Owns(store, thing, id)) :: store.observations[k]);
    }

    /** Deleting a datastream needs its observations gone. */
    method DeleteDatastream(thing: string, id: Id)
      requires ForeignKeys(store)
      requires Owns(store, thing, id) ==> ObservationsOf(store, id) == map[]
      modifies this`store
      ensures ForeignKeys(store) && !Owns(store, thing, id)
      ensures store == old(store).(streams := store.streams)
      ensures forall s :: s in store.streams <==> s in old(store).streams && !(s == id && Owns(old(store), thing, id))
      ensures forall s :: s in store.streams ==> store.streams[s] == old(store).streams[s]
    {
      NoneObserved(store, id);
      if Owns(store, thing, id) {
        store := store.(streams := store.streams - {id});
      }
    }

    /** One mapping file. Anything short of success for every pair leaves the store alone. */
    method Migrate(m: Mapping) returns (r: Result<bool, Failure>)
      requires UniqueFor(committed, m.thing) && ForeignKeys(store) && SameStreams(committed, store, m.thing)
      modifies this`store
      ensures ForeignKeys(store)
      ensures r.Ok? <==> AllExist(committed, m)
      ensures r.Ok? ==> (r.value <==> AllMatch(committed, m))
      ensures r != Ok(true) ==> store == old(store)
      ensures r == Ok(true) ==> Migrated(old(store), store, m)
      ensures NothingNew(old(store), store)
      ensures forall thing :: thing != m.thing ==> SameStreams(old(store), store, thing)
    {
      var compared := CompareDatastreams(m);
      if compared.Err? { return Err(compared.error); }
      var results := compared.value;
      if exists i :: 0 <= i < |results| && !results[i].equal { return Ok(false); }
      assert AllMatch(committed, m);
      CommittedIsCurrent(committed, store, m, results);
      RenameAndDelete(m, results);
      return Ok(true);
    }

    method RenameAndDelete(m: Mapping, results: seq<Comparison>)
      requires ForeignKeys(store) && m.thing in store.things && UniqueFor(store, m.thing)
      requires |results| == |m.pairs|
      requires forall i :: 0 <= i < |m.pairs| ==>
               results[i].pair == m.pairs[i] && At(store, results[i].headerId, m.thing, m.pairs[i].header)
      modifies this`store
      ensures ForeignKeys(store) && Migrated(old(store), store, m) && NothingNew(old(store), store)
      ensures forall thing :: thing != m.thing ==> SameStreams(old(store), store, thing)
    {
      var ids := RenameStreams(m, results);
      HeadersKeepTheirThing(old(store), m, ids);
      DeleteStreams(m.thing, ids);
      ShowMigrated(old(store), store, m, ids);
    }

    /** The renaming loop; collects the datastreams to delete. */
    method RenameStreams(m: Mapping, results: seq<Comparison>) returns (ids: seq<Id>)
      requires ForeignKeys(store) && m.thing in store.things
      requires |results| == |m.pairs| && forall i :: 0 <= i < |m.pairs| ==> results[i].pair == m.pairs[i]
      modifies this`store
      ensures ForeignKeys(store) && store == Renames(old(store), m.thing, m.pairs)
      ensures |ids| == |results| && forall j :: 0 <= j < |ids| ==> ids[j] == results[j].headerId
    {
      ids := [];
      RenamesNone(store, m.thing);
      for i := 0 to |results|
        invariant |ids| == i && forall j :: 0 <= j < i ==> ids[j] == results[j].headerId
        invariant store == Renames(old(store), m.thing, m.pairs[..i])
      {
        var found := RenameDatastream(m.thing, results[i].pair);
        RenamesOneMore(old(store), m.thing, m.pairs, i, store);
        if found { ids := ids + [results[i].headerId]; }
      }
      assert m.pairs[..|results|] == m.pairs;
      RenamesKeepForeignKeys(old(store), m.thing, m.pairs);
    }

    /** The deleting loop. */
    method DeleteStreams(thing: string, ids: seq<Id>)
      requires ForeignKeys(store)
      requires forall j :: 0 <= j < |ids| ==> ids[j] in store.streams && store.streams[ids[j]].thing == thing
      modifies this`store
      ensures ForeignKeys(store) && store == Without(old(store), ids)
    {
      assert Without(store, ids[..0]) == store;
      for i := 0 to |ids|
        invariant ForeignKeys(store)
        invariant store == Without(old(store), ids[..i])
      {
        DeleteOne(old(store), thing, ids, i);
      }
      assert ids[..|ids|] == ids;
    }

    /** One turn of the deleting loop. */
    method DeleteOne(ghost first: Store, thing: string, ids: seq<Id>, i: nat)
      requires ForeignKeys(store) && i < |ids| && Owns(first, thing, ids[i]) && store == Without(first, ids[..i])
      modifies this`store
      ensures ForeignKeys(store) && store == Without(first, ids[..i + 1])
    {
      if ids[i] in ids[..i] { AlreadyWithout(first, ids[..i], ids[i]); }
      DeleteDatastreamObservations(thing, ids[i]);
      ghost var emptied := store;
      DeleteDatastream(thing, ids[i]);
      assert Owns(old(store), thing, ids[i]) || ids[i] in ids[..i];
      forall id
        ensures ObservationsOf(store, id) ==
                if id == ids[i] then map[] else ObservationsOf(Without(first, ids[..i]), id)
      {
        SameObservations(store, emptied, id);
      }
      WithoutOneMore(first, ids, i, store);
    }

    /** All mapping files in one transaction, up to the first that cannot be migrated. If one of its streams
        is missing, everything is rolled back. If its streams do not match, the run ends when it is the first
        file; behind an earlier one it waits for ever, because putting the constraint back needs the table
        that the open transaction has written to. */
    method UpdateDatastreams(files: seq<Mapping>) returns (end: Ending)
      requires Unique(committed) && ForeignKeys(committed) && store == committed
      requires forall i, j :: 0 <= i < j < |files| ==> files[i].thing != files[j].thing
      modifies this
      ensures ForeignKeys(store) && NothingNew(old(store), store)
      ensures EndsAs(old(store), files, store, end)
      ensures committed == (if end == Finished || end == Unconstrained then store else old(committed))
      ensures end == Failed || end == Stopped ==> store == old(store)
      ensures DoneUpTo(old(store), store, files, DoneOf(end, files))
    {
      for i := 0 to |files|
        invariant committed == old(committed) && OnTheWay(committed, store, files, i)
      {
        var r := NextFile(files, i);
        if r.Err? {
          store := committed;
          NothingDone(committed, files);
          EndsAtBad(committed, files, i, store, Failed);
          return Failed;
        }
        if !r.value {
          end := if i == 0 then Stopped else Blocked(i);
          EndsAtBad(committed, files, i, store, end);
          return;
        }
      }
      ConstraintIs(store);
      end := if ConstraintHolds(store) then Finished else Unconstrained;
      EndsWell(committed, files, store, end);
      committed := store;
    }

    /** One turn of the loop over the files. */
    method NextFile(files: seq<Mapping>, i: nat) returns (r: Result<bool, Failure>)
      requires i < |files| && OnTheWay(committed, store, files, i)
      requires forall j :: 0 <= j < i ==> files[j].thing != files[i].thing
      modifies this`store
      ensures r != Ok(true) ==> store == old(store) && FirstBad(committed, files, i)
      ensures r.Ok? <==> AllExist(committed, files[i])
      ensures r == Ok(true) ==> OnTheWay(committed, store, files, i + 1)
    {
      ghost var before := store;
      NotYetTouched(committed, store, files, i);
      r := Migrate(files[i]);
      if r == Ok(true) { OneMoreFile(committed, before, store, files, i); }
    }
  }

  /** What holds in front of file `i`. */
  ghost predicate OnTheWay(committed: Store, s: Store, files: seq<Mapping>, i: nat)
    requires i <= |files|
  {
    && ForeignKeys(s) && NothingNew(committed, s) && Unique(committed)
    && (forall j :: 0 <= j < i ==> Migratable(committed, files[j]))
    && DoneUpTo(committed, s, files, i) && (i == 0 ==> s == committed)
  }

  lemma EndsAtBad(before: Store, files: seq<Mapping>, i: nat, after: Store, end: Ending)
    requires FirstBad(before, files, i)
    requires end == if !AllExist(before, files[i]) then Failed else if i == 0 then Stopped else Blocked(i)
    ensures EndsAs(before, files, after, end)
  {
    forall k: nat | FirstBad(before, files, k) ensures k == i {
    }
  }

  lemma EndsWell(before: Store, files: seq<Mapping>, after: Store, end: Ending)
    requires forall j :: 0 <= j < |files| ==> Migratable(before, files[j])
    requires end == if Unique(after) then Finished else Unconstrained
    ensures EndsAs(before, files, after, end)
  {
  }

  /** The first `n` files have been migrated, and all other things are as before. */
  ghost predicate DoneUpTo(before: Store, after: Store, files: seq<Mapping>, n: nat)
    requires n <= |files|
  {
    && (forall i :: 0 <= i < n ==> Migrated(before, after, files[i]))
    && (forall thing :: !Mapped(files, n, thing) ==> SameStreams(before, after, thing))
  }

  /** One of the first `n` files is about the thing. */
  ghost predicate Mapped(files: seq<Mapping>, n: nat, thing: string)
    requires n <= |files|
  {
    exists i :: 0 <= i < n && files[i].thing == thing
  }

  lemma NothingDone(s: Store, files: seq<Mapping>)
    ensures DoneUpTo(s, s, files, 0)
  {
  }

  lemma NotYetTouched(committed: Store, s: Store, files: seq<Mapping>, i: nat)
    requires i < |files| && forall j :: 0 <= j < i ==> files[j].thing != files[i].thing
    requires DoneUpTo(committed, s, files, i)
    ensures SameStreams(committed, s, files[i].thing)
  {
    assert !Mapped(files, i, files[i].thing);
  }

  ghost predicate Migratable(s: Store, m: Mapping) {
    AllExist(s, m) && AllMatch(s, m)
  }

  /** The first file that cannot be migrated. */
  ghost predicate FirstBad(s: Store, files: seq<Mapping>, i: nat) {
    i < |files| && !Migratable(s, files[i]) && forall j :: 0 <= j < i ==> Migratable(s, files[j])
  }

  /** What the database checks when the constraint is put back. */
  predicate ConstraintHolds(s: Store) {
    forall a, b ::
      (a in s.streams && b in s.streams && s.streams[a].thing == s.streams[b].thing
       && s.streams[a].position == s.streams[b].position) ==> a == b
  }

  lemma ConstraintIs(s: Store)
    ensures ConstraintHolds(s) <==> Unique(s)
  {
    if Unique(s) {
      forall a, b | a in s.streams && b in s.streams && s.streams[a].thing == s.streams[b].thing
                    && s.streams[a].position == s.streams[b].position
        ensures a == b
      {
        assert UniqueFor(s, s.streams[a].thing);
      }
    }
  }

  /** Finished; committed, but the constraint cannot be put back; ended at the first file; waiting for ever
      behind an earlier file, nothing committed; or rolled back. */
  datatype Ending = Finished | Unconstrained | Stopped | Blocked(at: nat) | Failed

  /** How a run over `files` ends: it is decided by the first file that cannot be migrated or, if there is
      none, by whether the constraint holds. */
  ghost predicate EndsAs(before: Store, files: seq<Mapping>, after: Store, end: Ending) {
    && (forall i: nat :: FirstBad(before, files, i) ==>
          end == if !AllExist(before, files[i]) then Failed else if i == 0 then Stopped else Blocked(i))
    && ((forall i: nat :: !FirstBad(before, files, i)) ==> end == if Unique(after) then Finished else Unconstrained)
  }

  /** Number of mapping files whose changes are in the store. */
  function DoneOf(end: Ending, files: seq<Mapping>): nat {
    match end
    case Finished => |files|
    case Unconstrained => |files|
    case Blocked(at) => at
    case _ => 0
  }

  lemma OneMoreFile(committed: Store, before: Store, after: Store, files: seq<Mapping>, i: nat)
    requires i < |files| && forall j :: 0 <= j < i ==> files[j].thing != files[i].thing
    requires DoneUpTo(committed, before, files, i)
    requires Migrated(before, after, files[i]) && NothingNew(before, after) && NothingNew(committed, before)
    requires forall thing :: thing != files[i].thing ==> SameStreams(before, after, thing)
    ensures DoneUpTo(committed, after, files, i + 1)
  {
    NotYetTouched(committed, before, files, i);
    forall thing | !Mapped(files, i + 1, thing) ensures SameStreams(committed, after, thing) {
      assert files[i].thing != thing && !Mapped(files, i, thing);
      assert SameStreams(committed, before, thing) && SameStreams(before, after, thing);
    }
    forall j | 0 <= j < i ensures Migrated(committed, after, files[j]) {
      MigratedStays(committed, before, after, files[j]);
    }
    StartsUnchanged(committed, before, after, files[i]);
  }

  lemma StartsUnchanged(first: Store, before: Store, after: Store, m: Mapping)
    requires SameStreams(first, before, m.thing) && NothingNew(first, before)
    requires Migrated(before, after, m) && NothingNew(before, after)
    ensures Migrated(first, after, m)
  {
  }

  lemma MigratedStays(first: Store, before: Store, after: Store, m: Mapping)
    requires Migrated(first, before, m) && SameStreams(before, after, m.thing) && NothingNew(before, after)
    ensures Migrated(first, after, m)
  {
    var name := first.things[m.thing];
    forall id | id in first.streams
      ensures RenameAll(first.streams[id], m.thing, name, m.pairs).thing == first.streams[id].thing
    {
      RenameAllKeepsThing(first.streams[id], m.thing, name, m.pairs);
    }
  }

  /** After a finished run over safe mappings the constraint can be put back, and every position stream
      has moved to its header. */
  lemma RunRestoresUniqueness(before: Store, after: Store, files: seq<Mapping>)
    requires Unique(before) && DoneUpTo(before, after, files, |files|)
    requires forall i :: 0 <= i < |files| ==>
      AllExist(before, files[i]) && DistinctPositions(files[i].pairs) && Safe(files[i].pairs)
    ensures Unique(after) && forall i :: 0 <= i < |files| ==> Moved(before, after, files[i])
  {
    forall i | 0 <= i < |files| ensures Moved(before, after, files[i]) && UniqueFor(after, files[i].thing) {
      MigrationSucceedsIffSafe(before, after, files[i]);
    }
    forall thing ensures UniqueFor(after, thing) {
      assert UniqueFor(before, thing);
      assert Mapped(files, |files|, thing) || SameStreams(before, after, thing);
    }
  }

  function Renames(s: Store, thing: string, pairs: seq<Pair>): Store
    requires thing in s.things
  {
    s.(streams := map id | id in s.streams :: RenameAll(s.streams[id], thing, s.things[thing], pairs))
  }

  lemma RenamesOneMore(s: Store, thing: string, pairs: seq<Pair>, i: nat, after: Store)
    requires thing in s.things && i < |pairs| && RenamedAt(Renames(s, thing, pairs[..i]), after, thing, pairs[i])
    ensures after == Renames(s, thing, pairs[..i + 1])
  {
    assert pairs[..i + 1][..i] == pairs[..i];
    var before := Renames(s, thing, pairs[..i]);
    forall id | id in s.streams
      ensures after.streams[id] == RenameAll(s.streams[id], thing, s.things[thing], pairs[..i + 1])
    {
      assert id in before.streams;
    }
    assert after.streams == Renames(s, thing, pairs[..i + 1]).streams;
  }

  lemma RenamesNone(s: Store, thing: string)
    requires thing in s.things
    ensures Renames(s, thing, []) == s
  {
    assert Renames(s, thing, []).streams == s.streams;
  }

  lemma RenamesKeepForeignKeys(s: Store, thing: string, pairs: seq<Pair>)
    requires thing in s.things && ForeignKeys(s)
    ensures ForeignKeys(Renames(s, thing, pairs))
  {
    forall id | id in s.streams
      ensures RenameAll(s.streams[id], thing, s.things[thing], pairs).thing == s.streams[id].thing
    {
      RenameAllKeepsThing(s.streams[id], thing, s.things[thing], pairs);
    }
  }

  /** Without the datastreams `ids` and their observations. */
  function Without(s: Store, ids: seq<Id>): Store {
    s.(streams := map id | id in s.streams && id !in ids :: s.streams[id],
       observations := map k | k in s.observations && k.stream !in ids :: s.observations[k])
  }

  lemma SameObservations(a: Store, b: Store, id: Id)
    requires a.observations == b.observations
    ensures ObservationsOf(a, id) == ObservationsOf(b, id)
  {
  }

  lemma AlreadyWithout(s: Store, ids: seq<Id>, id: Id)
    requires id in ids
    ensures ObservationsOf(Without(s, ids), id) == map[]
  {
  }

  lemma WithoutOneMore(s: Store, ids: seq<Id>, i: nat, after: Store)
    requires i < |ids|
    requires var before := Without(s, ids[..i]);
             && after.things == s.things
             && (forall id :: id in after.streams <==> id in before.streams && id != ids[i])
             && (forall id :: id in after.streams ==> after.streams[id] == before.streams[id])
             && (forall id :: ObservationsOf(after, id) == if id == ids[i] then map[] else ObservationsOf(before, id))
    ensures after == Without(s, ids[..i + 1])
  {
    assert ids[..i + 1] == ids[..i] + [ids[i]];
    var before, wanted := Without(s, ids[..i]), Without(s, ids[..i + 1]);
    assert after.streams == wanted.streams;
    forall k ensures k in after.observations <==> k in before.observations && k.stream != ids[i] {
      assert k in after.observations <==> k.time in ObservationsOf(after, k.stream);
      assert k in before.observations <==> k.time in ObservationsOf(before, k.stream);
    }
    forall k | k in after.observations ensures after.observations[k] == before.observations[k] {
      assert ObservationsOf(after, k.stream)[k.time] == ObservationsOf(before, k.stream)[k.time];
    }
    assert after.observations == wanted.observations;
  }

  /** `ids` are the header datastreams of the mapping. */
  ghost predicate HeadersAre(s: Store, m: Mapping, ids: seq<Id>) {
    |ids| == |m.pairs| && forall j :: 0 <= j < |ids| ==> At(s, ids[j], m.thing, m.pairs[j].header)
  }

  lemma HeadersKeepTheirThing(s: Store, m: Mapping, ids: seq<Id>)
    requires m.thing in s.things && HeadersAre(s, m, ids)
    ensures forall j :: 0 <= j < |ids| ==>
              ids[j] in s.streams && Renames(s, m.thing, m.pairs).streams[ids[j]].thing == m.thing
  {
    forall j | 0 <= j < |ids| ensures Renames(s, m.thing, m.pairs).streams[ids[j]].thing == m.thing {
      assert At(s, ids[j], m.thing, m.pairs[j].header);
      RenameAllKeepsThing(s.streams[ids[j]], m.thing, s.things[m.thing], m.pairs);
    }
  }

  /** What the comparison found in the committed tables is what the transaction works on. */
  lemma CommittedIsCurrent(committed: Store, s: Store, m: Mapping, results: seq<Comparison>)
    requires ForeignKeys(s) && UniqueFor(committed, m.thing) && SameStreams(committed, s, m.thing)
    requires m.pairs != [] && |results| == |m.pairs|
    requires forall i :: 0 <= i < |m.pairs| ==> At(committed, results[i].headerId, m.thing, m.pairs[i].header)
    ensures m.thing in s.things && UniqueFor(s, m.thing)
    ensures forall i :: 0 <= i < |m.pairs| ==> At(s, results[i].headerId, m.thing, m.pairs[i].header)
  {
    assert At(committed, results[0].headerId, m.thing, m.pairs[0].header);
  }

  lemma ShowMigrated(before: Store, after: Store, m: Mapping, ids: seq<Id>)
    requires m.thing in before.things && UniqueFor(before, m.thing) && HeadersAre(before, m, ids)
    requires after == Without(Renames(before, m.thing, m.pairs), ids)
    ensures Migrated(before, after, m) && NothingNew(before, after)
    ensures forall thing :: thing != m.thing ==> SameStreams(before, after, thing)
  {
    var name := before.things[m.thing];
    forall id | id in before.streams
      ensures RenameAll(before.streams[id], m.thing, name, m.pairs).thing == before.streams[id].thing
      ensures id in after.streams ==> ObservationsOf(after, id) == ObservationsOf(before, id)
      ensures before.streams[id].thing != m.thing ==>
              RenameAll(before.streams[id], m.thing, name, m.pairs) == before.streams[id]
      ensures id in ids <==> before.streams[id].thing == m.thing && IsHeader(m.pairs, before.streams[id].position)
    {
      RenameAllKeepsThing(before.streams[id], m.thing, name, m.pairs);
      if before.streams[id].thing != m.thing { UnmappedStays(before.streams[id], m.thing, name, m.pairs); }
      HeaderIds(before, m, ids, id);
    }
  }

  lemma HeaderIds(s: Store, m: Mapping, ids: seq<Id>, id: Id)
    requires UniqueFor(s, m.thing) && HeadersAre(s, m, ids) && id in s.streams
    ensures id in ids <==> s.streams[id].thing == m.thing && IsHeader(m.pairs, s.streams[id].position)
  {
    if id in ids {
      var j :| 0 <= j < |ids| && ids[j] == id;
      assert At(s, id, m.thing, m.pairs[j].header);
    }
    if s.streams[id].thing == m.thing && IsHeader(m.pairs, s.streams[id].position) {
      var j :| 0 <= j < |m.pairs| && m.pairs[j].header == s.streams[id].position;
      assert At(s, ids[j], m.thing, m.pairs[j].header);
    }
  }
}
