/** Small databases and messages on which a second delivery is not without effect, or the first is refused. */
module DeliveryExamples {
  import opened Wrappers
  import opened ConfigDb

  function Same(): string -> string { s => s }

  /** One ingest type, one parser type, and nothing else. */
  function StartDb(parserKey: bool): Db {
    Db(Table(map[], 0), Table(map[], 0), Table(map[], 0), Table(map[], 0), Table(map[], 0), Table(map[], 0),
       Table(map[], 0), Table(map[], 0), Table(map[0 := "sftp"], 1), Table(map[0 := "csv"], 1),
       Table(map[], 0), Table(map[], 0),
       Table(map[], 0), map[], {}, parserKey)
  }

  function Login(): Database { Database("schema", "user", "pw", "ro", "ropw", None, None) }

  function Sent(parsers: Option<ParsersPart>, storage: Option<Bucket>, qaqc: Option<QaqcPart>): Message {
    Message("thing", "name", "text", "sftp", ProjectPart("project", "p"), Login(), parsers, storage,
            None, None, None, qaqc)
  }

  function NewParser(): ParserPart { ParserPart("csv", "parser", "new") }

  function OldParser(): ParserPart { ParserPart("csv", "parser", "old") }

  function WithParser(): Message {
    Sent(Some(ParsersPart(0, [NewParser()])), Some(Bucket("user", "pw", "bucket", None)), None)
  }

  function WithSettings(): Message {
    Sent(None, None, Some(QaqcPart("settings", "3d", true, [])))
  }

  /** Another thing of the same project has a parser of the same name, with other settings. */
  function SharedDb(): Db {
    StartDb(true).(
      databases := Table(map[0 := Login()], 1), projects := Table(map[0 := ProjectRow("project", "p", 0)], 1),
      things := Table(map[0 := ThingRow("other", "other", 0, 0, Some(0), None, None, None, "", None)], 1),
      stores := Table(map[0 := StoreRow(Bucket("user", "pw", "other", None), Some(0))], 1),
      parsers := Table(map[0 := ParserRow(0, "parser", "old", ParserUuid("parser", "p"))], 1))
  }

  lemma StartIsWellFormed(parserKey: bool)
    ensures WellFormed(StartDb(parserKey))
  {
    forall l ensures Unshared(StartDb(parserKey).things.rows, l) {
    }
  }

  lemma SharedIsWellFormed()
    ensures WellFormed(SharedDb())
  {
    var db := SharedDb();
    forall l ensures Unshared(db.things.rows, l) {
    }
    assert ThingResolves(db, db.things.rows[0]);
  }

  /** The parser that the other thing, number 0, is linked to. */
  ghost predicate OtherHas(db: Db, part: ParserPart) {
    LinksOf(db, Some(0)).parser == Some(0) && ParserSays(db, 0, part.typ, part)
  }

  /** The first delivery takes over the other thing's parser row as it is, the second rewrites it. */
  method AdoptedParserIsRewritten() returns (updater: Updater, first: bool, second: bool, ghost once: Db)
    ensures first && second
    ensures OtherHas(SharedDb(), OldParser()) && OtherHas(once, OldParser()) && OtherHas(updater.db, NewParser())
    ensures Delivered(SharedDb(), once, WithParser(), true, Same())
    ensures Delivered(once, updater.db, WithParser(), true, Same())
  {
    SharedIsWellFormed();
    updater := new Updater(Same(), SharedDb());
    ParserIsAdopted();
    first := updater.Deliver(WithParser());
    once := updater.db;
    AfterFirst(once);
    second := updater.Deliver(WithParser());
    AfterSecond(once, updater.db);
  }

  lemma AfterFirst(once: Db)
    requires Delivered(SharedDb(), once, WithParser(), true, Same())
    ensures OtherHas(SharedDb(), OldParser()) && OtherHas(once, OldParser())
    ensures LinksOf(once, ThingId(once.things.rows, "thing")).parser == Some(0) && 0 in once.things.rows
    ensures once.things.rows[0].uuid == "other" && !ThingRefused(once, WithParser(), Same())
  {
    ParserIsAdopted();
    assert ThingKept(SharedDb(), once, "thing", 0);
    NotRefusedAgain(once);
  }

  lemma NotRefusedAgain(once: Db)
    requires WellFormed(once) && SameTypes(SharedDb(), once) && OtherHas(once, OldParser())
    requires once.parsers.rows[0].uuid == DefaultUuid(WithParser())
    requires LinksOf(once, ThingId(once.things.rows, "thing")).parser == Some(0)
    ensures !ThingRefused(once, WithParser(), Same())
  {
    assert once.parserTypes.rows[0] == "csv" && once.ingestTypes.rows[0] == "sftp";
    forall k | k in once.parsers.rows && once.parsers.rows[k].uuid == DefaultUuid(WithParser()) ensures k == 0 {
      assert ParsersApart(once.parsers.rows, k, 0);
    }
  }

  lemma AfterSecond(once: Db, db: Db)
    requires Delivered(once, db, WithParser(), true, Same()) && OtherHas(once, OldParser())
    requires LinksOf(once, ThingId(once.things.rows, "thing")).parser == Some(0) && 0 in once.things.rows
    requires once.things.rows[0].uuid == "other"
    ensures OtherHas(db, NewParser())
  {
    assert ThingKept(once, db, "thing", 0);
  }

  lemma ParserIsAdopted()
    ensures var db := SharedDb();
            && !ThingRefused(db, WithParser(), Same()) && AdoptsParser(db, WithParser(), Same())
            && !LosesParser(db, WithParser()) && ThingId(db.things.rows, "thing") == None
            && HasParser(db.parsers.rows, DefaultUuid(WithParser())) == Some(0)
  {
    var db, msg := SharedDb(), WithParser();
    assert db.ingestTypes.rows[0] == "sftp" && db.parserTypes.rows[0] == "csv";
    assert db.parsers.rows[0].uuid == DefaultUuid(msg);
    assert HasParser(db.parsers.rows, DefaultUuid(msg)) == Some(0);
  }

  /** A message of an old version adds settings with every delivery: there are two rows of them then, and the
      thing has the new one. */
  method SettingsAreAddedAgain()
      returns (updater: Updater, first: Result<Id, DbError>, second: Result<Id, DbError>, ghost once: Db,
               ghost earlier: Id, ghost later: Id)
    ensures first.Ok? && second.Ok?
    ensures Delivered(StartDb(true), once, WithSettings(), true, Same())
    ensures Delivered(once, updater.db, WithSettings(), true, Same())
    ensures HasSettings(once, earlier) && HasSettings(updater.db, later) && earlier != later
    ensures earlier in updater.db.qaqcs.rows && updater.db.qaqcs.rows[earlier] == once.qaqcs.rows[earlier]
  {
    var db := StartDb(true);
    StartIsWellFormed(true);
    updater := new Updater(Same(), db);
    assert db.ingestTypes.rows[0] == "sftp";
    first := updater.ThingUpdate(WithSettings());
    once := updater.db;
    earlier := SettingsOfThing(once, WithSettings());
    second := updater.ThingUpdate(WithSettings());
    later := SettingsOfThing(updater.db, WithSettings());
    var k := ThingId(once.things.rows, "thing").value;
    assert SettingsKept(once, updater.db, once.things.rows[k].qaqcId);
  }

  /** The thing has the settings of the message in row `id`. */
  ghost predicate HasSettings(db: Db, id: Id) {
    var k := ThingId(db.things.rows, WithSettings().uuid);
    k.Some? && db.things.rows[k.value].qaqcId == Some(id) && QaqcView(db, Some(id)) == WithSettings().qaqc
  }

  lemma SettingsOfThing(db: Db, msg: Message) returns (id: Id)
    requires WellFormed(db) && msg == WithSettings() && Load(db, msg.uuid).Some?
    requires Load(db, msg.uuid).value.qaqc == msg.qaqc
    ensures HasSettings(db, id)
  {
    var k := ThingId(db.things.rows, msg.uuid).value;
    id := db.things.rows[k].qaqcId.value;
  }

  /** A thing that moves from schema "a" to schema "b" has both. */
  method MovedThingHasTwoSchemas() returns (once: Db, moved: Db)
    ensures once.schemas == {("a", "thing")} && SingleMapping(once.schemas, "thing")
    ensures moved.schemas == {("a", "thing"), ("b", "thing")} && !SingleMapping(moved.schemas, "thing")
  {
    once := UpsertSchemaMapping(StartDb(true), "thing", "a");
    moved := UpsertSchemaMapping(once, "thing", "b");
    SchemaMappingStaysSingle(once.schemas, "thing", "b");
    assert ("a", "thing") in once.schemas && moved.schemas == once.schemas + {("b", "thing")};
  }

  /** As the migrations leave it, without a unique key, the database refuses the first message with a parser. */
  lemma NewParserIsRefused()
    ensures ThingRefused(StartDb(false), WithParser(), Same())
    ensures !ThingRefused(StartDb(true), WithParser(), Same())
  {
    var db := StartDb(true);
    assert db.ingestTypes.rows[0] == "sftp" && db.parserTypes.rows[0] == "csv";
  }
}
