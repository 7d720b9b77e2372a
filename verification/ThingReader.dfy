/** Loading a thing from the tables that messages are stored in, by following links from object to object. */
module ThingReader {
  import opened Wrappers
  import opened ConfigDb
  import Feta

  // ---------------------------------------------------------------- rows as they are fetched

  function OptText(s: Option<string>): Feta.Field {
    if s.None? then Feta.Null else Feta.Text(s.value)
  }

  function Named(name: string): Feta.Attrs {
    Feta.Attrs(map[], map["name" := Feta.Text(name)])
  }

  function ThingAttrs(t: ThingRow): Feta.Attrs {
    Feta.Attrs(
      map["project_id" := Some(t.projectId), "ingest_type_id" := Some(t.ingestTypeId), "s3_store_id" := t.storeId,
          "mqtt_id" := t.mqttId, "ext_sftp_id" := t.sftpId, "ext_api_id" := t.apiId],
      map["uuid" := Feta.Text(t.uuid), "name" := Feta.Text(t.name), "description" := Feta.Text(t.description)])
  }

  function ProjectAttrs(p: ProjectRow): Feta.Attrs {
    Feta.Attrs(map["database_id" := Some(p.databaseId)], map["name" := Feta.Text(p.name), "uuid" := Feta.Text(p.uuid)])
  }

  function DatabaseAttrs(d: Database): Feta.Attrs {
    Feta.Attrs(map[],
      map["schema" := Feta.Text(d.schema), "user" := Feta.Text(d.user), "password" := Feta.Text(d.password),
          "ro_user" := Feta.Text(d.roUser), "ro_password" := Feta.Text(d.roPassword),
          "url" := OptText(d.url), "ro_url" := OptText(d.roUrl)])
  }

  function MqttAttrs(m: MqttRow): Feta.Attrs {
    Feta.Attrs(map["mqtt_device_type_id" := m.deviceTypeId],
      map["user" := Feta.Text(m.login.user), "password" := Feta.Text(m.login.password),
          "password_hashed" := Feta.Text(m.login.passwordHash), "topic" := OptText(m.login.topic)])
  }

  function SftpAttrs(f: Sftp): Feta.Attrs {
    Feta.Attrs(map[],
      map["uri" := Feta.Text(f.uri), "path" := Feta.Text(f.path), "user" := Feta.Text(f.user),
          "password" := OptText(f.password), "ssh_priv_key" := Feta.Text(f.privateKey),
          "ssh_pub_key" := Feta.Text(f.publicKey), "sync_interval" := Feta.Number(f.syncInterval),
          "sync_enabled" := Feta.Flag(f.syncEnabled)])
  }

  function ApiAttrs(a: ApiRow): Feta.Attrs {
    Feta.Attrs(map["api_type_id" := Some(a.typeId)],
      map["sync_interval" := Feta.Number(a.plan.syncInterval), "sync_enabled" := Feta.Flag(a.plan.enabled),
          "settings" := OptText(a.plan.settings)])
  }

  function StoreAttrs(s: StoreRow): Feta.Attrs {
    Feta.Attrs(map["file_parser_id" := s.parserId],
      map["user" := Feta.Text(s.bucket.user), "password" := Feta.Text(s.bucket.password),
          "bucket" := Feta.Text(s.bucket.bucket), "filename_pattern" := OptText(s.bucket.filenamePattern)])
  }

  function ParserAttrs(p: ParserRow): Feta.Attrs {
    Feta.Attrs(map["file_parser_type_id" := Some(p.typeId)],
      map["name" := Feta.Text(p.name), "params" := Feta.Text(p.params), "uuid" := Feta.Text(p.uuid)])
  }

  function Fetched<R>(t: Table<R>, id: int, attrs: R -> Feta.Attrs): seq<Feta.Attrs> {
    if id >= 0 && id in t.rows then [attrs(t.rows[id])] else []
  }

  /** The tables as the reader sees them: one row for every id. */
  function TablesOf(db: Db): Feta.Tables {
    (key: (Feta.Class, int)) =>
      match key.0
      case Thing => Fetched(db.things, key.1, ThingAttrs)
      case Project => Fetched(db.projects, key.1, ProjectAttrs)
      case Database => Fetched(db.databases, key.1, DatabaseAttrs)
      case IngestType => Fetched(db.ingestTypes, key.1, Named)
      case S3Store => Fetched(db.stores, key.1, StoreAttrs)
      case FileParser => Fetched(db.parsers, key.1, ParserAttrs)
      case FileParserType => Fetched(db.parserTypes, key.1, Named)
      case Mqtt => Fetched(db.mqtts, key.1, MqttAttrs)
      case MqttDeviceType => Fetched(db.deviceTypes, key.1, Named)
      case ExtSftp => Fetched(db.sftps, key.1, SftpAttrs)
      case ExtApi => Fetched(db.apis, key.1, ApiAttrs)
      case ExtApiType => Fetched(db.apiTypes, key.1, Named)
      case _ => []
  }

  // ---------------------------------------------------------------- properties of an object

  function TextOf(o: Feta.Obj, column: string): string {
    if column in o.attrs.values && o.attrs.values[column].Text? then o.attrs.values[column].s else ""
  }

  function OptTextOf(o: Feta.Obj, column: string): Option<string> {
    if column in o.attrs.values && o.attrs.values[column].Text? then Some(o.attrs.values[column].s) else None
  }

  function NumberOf(o: Feta.Obj, column: string): int {
    if column in o.attrs.values && o.attrs.values[column].Number? then o.attrs.values[column].n else 0
  }

  function FlagOf(o: Feta.Obj, column: string): bool {
    column in o.attrs.values && o.attrs.values[column].Flag? && o.attrs.values[column].b
  }

  function DatabaseFrom(o: Feta.Obj): Database {
    Database(TextOf(o, "schema"), TextOf(o, "user"), TextOf(o, "password"), TextOf(o, "ro_user"),
             TextOf(o, "ro_password"), OptTextOf(o, "url"), OptTextOf(o, "ro_url"))
  }

  function LoginFrom(o: Feta.Obj): MqttLogin {
    MqttLogin(TextOf(o, "user"), TextOf(o, "password"), TextOf(o, "password_hashed"), OptTextOf(o, "topic"))
  }

  function SftpFrom(o: Feta.Obj): Sftp {
    Sftp(TextOf(o, "uri"), TextOf(o, "path"), TextOf(o, "user"), OptTextOf(o, "password"),
         TextOf(o, "ssh_priv_key"), TextOf(o, "ssh_pub_key"), NumberOf(o, "sync_interval"), FlagOf(o, "sync_enabled"))
  }

  function PlanFrom(o: Feta.Obj): ApiPlan {
    ApiPlan(NumberOf(o, "sync_interval"), FlagOf(o, "sync_enabled"), OptTextOf(o, "settings"))
  }

  function BucketFrom(o: Feta.Obj): Bucket {
    Bucket(TextOf(o, "user"), TextOf(o, "password"), TextOf(o, "bucket"), OptTextOf(o, "filename_pattern"))
  }

  // ---------------------------------------------------------------- following the links

  function Reached(o: Feta.Outcome): Option<Feta.Obj> {
    if o.Found? then Some(o.obj) else None
  }

  /** The object behind a link of an object, if both are there. */
  function Via(tables: Feta.Tables, o: Option<Feta.Obj>, link: string): Option<Feta.Obj> {
    if o.None? then None else Reached(Feta.Follow(tables, o.value, link))
  }

  function Prop<T>(o: Option<Feta.Obj>, f: Feta.Obj -> T): Option<T> {
    if o.None? then None else Some(f(o.value))
  }

  function NameOf(o: Feta.Obj): string { TextOf(o, "name") }

  function UuidOf(o: Feta.Obj): string { TextOf(o, "uuid") }

  function MqttFrom(mqtt: Option<Feta.Obj>, deviceType: Option<Feta.Obj>): Option<MqttPart> {
    if mqtt.None? then None else Some(MqttPart(LoginFrom(mqtt.value), Prop(deviceType, NameOf)))
  }

  function ApiFrom(api: Option<Feta.Obj>, apiType: Option<Feta.Obj>): Option<ApiPart> {
    if api.None? || apiType.None? then None else Some(ApiPart(NameOf(apiType.value), PlanFrom(api.value)))
  }

  /** What the objects reached say, once they are all there. */
  function ViewFrom(thing: Feta.Obj, project: Feta.Obj, database: Feta.Obj, ingestType: Feta.Obj,
                    mqtt: Option<Feta.Obj>, deviceType: Option<Feta.Obj>, sftp: Option<Feta.Obj>,
                    api: Option<Feta.Obj>, apiType: Option<Feta.Obj>,
                    store: Option<Feta.Obj>, parser: Option<Feta.Obj>): ThingView {
    ThingView(
      NameOf(thing), TextOf(thing, "description"), NameOf(ingestType),
      ProjectPart(NameOf(project), UuidOf(project)), DatabaseFrom(database),
      MqttFrom(mqtt, deviceType), Prop(sftp, SftpFrom), ApiFrom(api, apiType), Prop(store, BucketFrom),
      Prop(parser, UuidOf), None)
  }

  function ThingObj(db: Db, id: Id): Feta.Obj
    requires id in db.things.rows
  {
    Feta.Obj(Feta.Thing, ThingAttrs(db.things.rows[id]))
  }

  /** Reads a thing link by link through a session, with or without cache: it is what was stored. */
  method ReadThing(session: Feta.Session, db: Db, id: Id) returns (view: Option<ThingView>)
    requires session.Valid() && session.db == TablesOf(db) && KeysResolve(db) && id in db.things.rows
    modifies session
    ensures session.Valid() && view == Some(ViewOf(db, id).(qaqc := None))
  {
    var thing := ThingObj(db, id);
    var project := session.Get(thing, "project");
    ReachProject(db, id);
    ReachIngestType(db, id);
    var database := session.Get(project.obj, "database");
    var ingestType := session.Get(thing, "ingest_type");
    var mqtt := session.Get(thing, "mqtt");
    var deviceType := GetVia(session, mqtt, "mqtt_device_type");
    var sftp := session.Get(thing, "ext_sftp");
    var api := session.Get(thing, "ext_api");
    var apiType := GetVia(session, api, "api_type");
    var store := session.Get(thing, "s3_store");
    var parser := GetVia(session, store, "file_parser");
    view := Some(ViewFrom(thing, project.obj, database.obj, ingestType.obj, Reached(mqtt), deviceType, Reached(sftp),
                          Reached(api), apiType, Reached(store), parser));
    ViewIsStored(db, id, project.obj, database.obj, ingestType.obj);
  }

  lemma ViewIsStored(db: Db, id: Id, project: Feta.Obj, database: Feta.Obj, ingestType: Feta.Obj)
    requires KeysResolve(db) && id in db.things.rows
    requires Feta.Follow(TablesOf(db), ThingObj(db, id), "project") == Feta.Found(project)
    requires Feta.Follow(TablesOf(db), project, "database") == Feta.Found(database)
    requires Feta.Follow(TablesOf(db), ThingObj(db, id), "ingest_type") == Feta.Found(ingestType)
    ensures var tables, thing := TablesOf(db), Some(ThingObj(db, id));
            var mqtt, api := Via(tables, thing, "mqtt"), Via(tables, thing, "ext_api");
            var store := Via(tables, thing, "s3_store");
            ViewFrom(thing.value, project, database, ingestType, mqtt, Via(tables, mqtt, "mqtt_device_type"),
                     Via(tables, thing, "ext_sftp"), api, Via(tables, api, "api_type"),
                     store, Via(tables, store, "file_parser"))
            == ViewOf(db, id).(qaqc := None)
  {
    BaseReads(db, id, project, database, ingestType);
    MqttPartReads(db, id);
    SftpPartReads(db, id);
    ApiPartReads(db, id);
    StorePartReads(db, id);
  }

  lemma BaseReads(db: Db, id: Id, project: Feta.Obj, database: Feta.Obj, ingestType: Feta.Obj)
    requires KeysResolve(db) && id in db.things.rows
    requires Feta.Follow(TablesOf(db), ThingObj(db, id), "project") == Feta.Found(project)
    requires Feta.Follow(TablesOf(db), project, "database") == Feta.Found(database)
    requires Feta.Follow(TablesOf(db), ThingObj(db, id), "ingest_type") == Feta.Found(ingestType)
    ensures var v := ViewOf(db, id);
            && NameOf(ThingObj(db, id)) == v.name && TextOf(ThingObj(db, id), "description") == v.description
            && NameOf(ingestType) == v.ingestType
            && ProjectPart(NameOf(project), UuidOf(project)) == v.project
            && DatabaseFrom(database) == v.database
  {
    ReachProject(db, id);
    ReachIngestType(db, id);
    NameReads(Feta.IngestType, db.ingestTypes.rows[db.things.rows[id].ingestTypeId]);
    DatabaseReads(db.databases.rows[db.projects.rows[db.things.rows[id].projectId].databaseId]);
  }

  /** A message that is stored is read back by links as it says, whether the reader caches or not. */
  method StoredThenRead(updater: Updater, msg: Message, caching: bool) returns (stored: bool, view: Option<ThingView>)
    requires WellFormed(updater.db)
    modifies updater
    ensures WellFormed(updater.db)
    ensures stored <==> !ThingRefused(old(updater.db), msg, updater.lower)
    ensures stored ==> view == Some(WantedView(old(updater.db), msg, updater.lower).(qaqc := None))
  {
    var r := updater.ThingUpdate(msg);
    if r.Err? { return false, None; }
    var read := ReadByUuid(updater.db, msg.uuid, caching);
    stored, view := true, Some(read);
  }

  /** Reading a thing that is there. */
  method ReadByUuid(db: Db, uuid: string, caching: bool) returns (view: ThingView)
    requires WellFormed(db) && Load(db, uuid).Some?
    ensures view == Load(db, uuid).value.(qaqc := None)
  {
    var id := FindThing(db, uuid);
    var session := new Feta.Session(TablesOf(db), caching);
    var read := ReadThing(session, db, id.value);
    view := read.value;
  }

  method GetVia(session: Feta.Session, o: Feta.Outcome, link: string) returns (r: Option<Feta.Obj>)
    requires session.Valid()
    modifies session
    ensures session.Valid() && r == Via(session.db, Reached(o), link)
  {
    if !o.Found? { return None; }
    var outcome := session.Get(o.obj, link);
    r := Reached(outcome);
  }

  lemma ReachProject(db: Db, id: Id)
    requires KeysResolve(db) && id in db.things.rows
    ensures var p := db.things.rows[id].projectId;
            && p in db.projects.rows && db.projects.rows[p].databaseId in db.databases.rows
            && Feta.Follow(TablesOf(db), ThingObj(db, id), "project")
               == Feta.Found(Feta.Obj(Feta.Project, ProjectAttrs(db.projects.rows[p])))
            && Feta.Follow(TablesOf(db), Feta.Obj(Feta.Project, ProjectAttrs(db.projects.rows[p])), "database")
               == Feta.Found(Feta.Obj(Feta.Database, DatabaseAttrs(db.databases.rows[db.projects.rows[p].databaseId])))
  {
    assert ThingResolves(db, db.things.rows[id]);
  }

  lemma ReachIngestType(db: Db, id: Id)
    requires KeysResolve(db) && id in db.things.rows
    ensures var i := db.things.rows[id].ingestTypeId;
            && i in db.ingestTypes.rows
            && Feta.Follow(TablesOf(db), ThingObj(db, id), "ingest_type")
               == Feta.Found(Feta.Obj(Feta.IngestType, Named(db.ingestTypes.rows[i])))
  {
    assert ThingResolves(db, db.things.rows[id]);
  }

  lemma DatabaseReads(d: Database)
    ensures DatabaseFrom(Feta.Obj(Feta.Database, DatabaseAttrs(d))) == d
  {
  }

  // Where each link leads.

  function Made<R>(cls: Feta.Class, row: Option<R>, attrs: R -> Feta.Attrs): Option<Feta.Obj> {
    if row.None? then None else Some(Feta.Obj(cls, attrs(row.value)))
  }

  lemma MqttReached(db: Db, id: Id)
    requires id in db.things.rows
    ensures Via(TablesOf(db), Some(ThingObj(db, id)), "mqtt")
         == Made(Feta.Mqtt, RowAt(db.mqtts, db.things.rows[id].mqttId), MqttAttrs)
  {
  }

  lemma DeviceTypeReached(db: Db, m: MqttRow)
    ensures Via(TablesOf(db), Some(Feta.Obj(Feta.Mqtt, MqttAttrs(m))), "mqtt_device_type")
         == Made(Feta.MqttDeviceType, RowAt(db.deviceTypes, m.deviceTypeId), Named)
  {
  }

  lemma SftpReached(db: Db, id: Id)
    requires id in db.things.rows
    ensures Via(TablesOf(db), Some(ThingObj(db, id)), "ext_sftp")
         == Made(Feta.ExtSftp, RowAt(db.sftps, db.things.rows[id].sftpId), SftpAttrs)
  {
  }

  lemma ApiReached(db: Db, id: Id)
    requires id in db.things.rows
    ensures Via(TablesOf(db), Some(ThingObj(db, id)), "ext_api")
         == Made(Feta.ExtApi, RowAt(db.apis, db.things.rows[id].apiId), ApiAttrs)
  {
  }

  lemma ApiTypeReached(db: Db, a: ApiRow)
    ensures Via(TablesOf(db), Some(Feta.Obj(Feta.ExtApi, ApiAttrs(a))), "api_type")
         == Made(Feta.ExtApiType, RowAt(db.apiTypes, Some(a.typeId)), Named)
  {
  }

  lemma StoreReached(db: Db, id: Id)
    requires id in db.things.rows
    ensures Via(TablesOf(db), Some(ThingObj(db, id)), "s3_store")
         == Made(Feta.S3Store, RowAt(db.stores, db.things.rows[id].storeId), StoreAttrs)
  {
  }

  lemma ParserReached(db: Db, s: StoreRow)
    ensures Via(TablesOf(db), Some(Feta.Obj(Feta.S3Store, StoreAttrs(s))), "file_parser")
         == Made(Feta.FileParser, RowAt(db.parsers, s.parserId), ParserAttrs)
  {
  }

  // What the objects say.

  lemma LoginReads(m: MqttRow)
    ensures LoginFrom(Feta.Obj(Feta.Mqtt, MqttAttrs(m))) == m.login
  {
  }

  lemma SftpReads(f: Sftp)
    ensures SftpFrom(Feta.Obj(Feta.ExtSftp, SftpAttrs(f))) == f
  {
  }

  lemma PlanReads(a: ApiRow)
    ensures PlanFrom(Feta.Obj(Feta.ExtApi, ApiAttrs(a))) == a.plan
  {
  }

  lemma BucketReads(s: StoreRow)
    ensures BucketFrom(Feta.Obj(Feta.S3Store, StoreAttrs(s))) == s.bucket
  {
  }

  lemma NameReads(cls: Feta.Class, name: string)
    ensures NameOf(Feta.Obj(cls, Named(name))) == name
  {
  }

  // The parts of a thing, link by link, are what its rows say.

  lemma MqttPartReads(db: Db, id: Id)
    requires id in db.things.rows
    ensures var m := Via(TablesOf(db), Some(ThingObj(db, id)), "mqtt");
            MqttFrom(m, Via(TablesOf(db), m, "mqtt_device_type")) == MqttView(db, db.things.rows[id].mqttId)
  {
    MqttReached(db, id);
    var row := RowAt(db.mqtts, db.things.rows[id].mqttId);
    if row.Some? {
      LoginReads(row.value);
      DeviceTypeReached(db, row.value);
      var typ := RowAt(db.deviceTypes, row.value.deviceTypeId);
      if typ.Some? { NameReads(Feta.MqttDeviceType, typ.value); }
    }
  }

  lemma SftpPartReads(db: Db, id: Id)
    requires id in db.things.rows
    ensures Prop(Via(TablesOf(db), Some(ThingObj(db, id)), "ext_sftp"), SftpFrom) ==
            SftpView(db, db.things.rows[id].sftpId)
  {
    SftpReached(db, id);
    var row := RowAt(db.sftps, db.things.rows[id].sftpId);
    if row.Some? { SftpReads(row.value); }
  }

  lemma ApiPartReads(db: Db, id: Id)
    requires id in db.things.rows
    ensures var a := Via(TablesOf(db), Some(ThingObj(db, id)), "ext_api");
            ApiFrom(a, Via(TablesOf(db), a, "api_type")) == ApiView(db, db.things.rows[id].apiId)
  {
    ApiReached(db, id);
    var row := RowAt(db.apis, db.things.rows[id].apiId);
    if row.Some? {
      PlanReads(row.value);
      ApiTypeReached(db, row.value);
      var typ := RowAt(db.apiTypes, Some(row.value.typeId));
      if typ.Some? { NameReads(Feta.ExtApiType, typ.value); }
    }
  }

  lemma StorePartReads(db: Db, id: Id)
    requires id in db.things.rows
    ensures var s := Via(TablesOf(db), Some(ThingObj(db, id)), "s3_store");
            && Prop(s, BucketFrom) == StoreView(db, db.things.rows[id].storeId)
            && Prop(Via(TablesOf(db), s, "file_parser"), UuidOf) == ParserView(db, db.things.rows[id].storeId)
  {
    StoreReached(db, id);
    var row := RowAt(db.stores, db.things.rows[id].storeId);
    if row.Some? {
      BucketReads(row.value);
      ParserReached(db, row.value);
    }
  }
}
