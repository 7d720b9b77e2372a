/** The configuration database: messages about things become insert-or-update steps over linked
    tables. The tables are one value; the updater changes it step by step. */
module ConfigDb {
  import opened Wrappers

  type Id = nat

  datatype DbError = UnknownIngestType | UnknownParserType | UnknownRow | UniqueViolation
                   | NotNullViolation | NoSuchParser | NoUniqueKey

  // ---------------------------------------------------------------- tables

  datatype Table<R> = Table(rows: map<Id, R>, next: Id)
  {
    /** Identities come from a sequence, so no row has one that is still to be drawn. */
    ghost predicate Valid() { forall id :: id in rows ==> id < next }
  }

  /** `_upsert`: insert without an id, update with one; an update of no row fails. */
  function Upsert<R>(t: Table<R>, row: R, id: Option<Id>): (r: Result<(Table<R>, Id), DbError>)
    ensures r.Err? <==> id.Some? && id.value !in t.rows
    ensures r.Ok? ==> r.value.1 == (if id.Some? then id.value else t.next)
    ensures r.Ok? ==> r.value.0.rows == t.rows[r.value.1 := row]
    ensures r.Ok? && t.Valid() ==> r.value.0.Valid()
    ensures r.Ok? ==> (r.value.0 == t <==> id.Some? && t.rows[id.value] == row)
  {
    if id.None? then Ok((Table(t.rows[t.next := row], t.next + 1), t.next))
    else if id.value in t.rows then Ok((Table(t.rows[id.value := row], t.next), id.value))
    else Err(UnknownRow)
  }

  datatype Database = Database(schema: string, user: string, password: string, roUser: string,
                               roPassword: string, url: Option<string>, roUrl: Option<string>)

  datatype ProjectRow = ProjectRow(name: string, uuid: string, databaseId: Id)

  datatype MqttLogin = MqttLogin(user: string, password: string, passwordHash: string, topic: Option<string>)
  datatype MqttRow = MqttRow(login: MqttLogin, deviceTypeId: Option<Id>)

  datatype Sftp = Sftp(uri: string, path: string, user: string, password: Option<string>,
                       privateKey: string, publicKey: string, syncInterval: int, syncEnabled: bool)

  datatype ApiPlan = ApiPlan(syncInterval: int, enabled: bool, settings: Option<string>)
  datatype ApiRow = ApiRow(typeId: Id, plan: ApiPlan)

  datatype ParserRow = ParserRow(typeId: Id, name: string, params: string, uuid: string)

  datatype Bucket = Bucket(user: string, password: string, bucket: string, filenamePattern: Option<string>)
  datatype StoreRow = StoreRow(bucket: Bucket, parserId: Option<Id>)

  datatype QaqcTest = QaqcTest(name: string, check: string, kwargs: string, position: Option<int>)

  /** Quality-control settings: of a project or, from messages of old versions, of a thing. */
  datatype QaqcRow = QaqcRow(name: string, projectId: Option<Id>, window: string, default: bool)

  datatype ThingRow = ThingRow(uuid: string, name: string, projectId: Id, ingestTypeId: Id,
                               storeId: Option<Id>, mqttId: Option<Id>, sftpId: Option<Id>, apiId: Option<Id>,
                               description: string, qaqcId: Option<Id>)

  /** `tests` are the rows of the test table by their settings. `parserKey` says whether the parser table has
      a unique key on its uuid; the migrations create none. */
  datatype Db = Db(
    databases: Table<Database>, projects: Table<ProjectRow>, things: Table<ThingRow>,
    mqtts: Table<MqttRow>, sftps: Table<Sftp>, apis: Table<ApiRow>,
    stores: Table<StoreRow>, parsers: Table<ParserRow>,
    ingestTypes: Table<string>, parserTypes: Table<string>, deviceTypes: Table<string>, apiTypes: Table<string>,
    qaqcs: Table<QaqcRow>, tests: map<Id, seq<QaqcTest>>,
    schemas: set<(string, string)>, parserKey: bool)

  // ---------------------------------------------------------------- messages

  datatype ProjectPart = ProjectPart(name: string, uuid: string)
  datatype MqttPart = MqttPart(login: MqttLogin, deviceType: Option<string>)
  datatype ApiPart = ApiPart(typ: string, plan: ApiPlan)
  datatype ParserPart = ParserPart(typ: string, name: string, settings: string)
  datatype ParsersPart = ParsersPart(default: int, parsers: seq<ParserPart>)

  datatype QaqcPart = QaqcPart(name: string, window: string, default: bool, tests: seq<QaqcTest>)

  /** A thing message in its uniform shape: absent sections are `None`. Only messages of old versions bring
      quality-control settings. */
  datatype Message = Message(uuid: string, name: string, description: string, ingestType: string,
                             project: ProjectPart, database: Database,
                             parsers: Option<ParsersPart>, storage: Option<Bucket>,
                             mqtt: Option<MqttPart>, sftp: Option<Sftp>, api: Option<ApiPart>,
                             qaqc: Option<QaqcPart>)

  /** Python's list index: negative ones count from the end. */
  function At<T>(xs: seq<T>, i: int): Option<T> {
    if 0 <= i < |xs| then Some(xs[i])
    else if -|xs| <= i < 0 then Some(xs[|xs| + i])
    else None
  }

  /** The text whose uuid5 (RFC 9562, section 5.5) identifies a parser; the hash is taken to be
      injective, so the text itself serves as the identity. */
  function ParserUuid(name: string, projectUuid: string): string {
    name + projectUuid
  }

  // ---------------------------------------------------------------- well-formed tables

  datatype Link = ToMqtt | ToSftp | ToApi | ToStore | ToQaqc

  function LinkOf(t: ThingRow, l: Link): Option<Id> {
    match l
    case ToMqtt => t.mqttId
    case ToSftp => t.sftpId
    case ToApi => t.apiId
    case ToStore => t.storeId
    case ToQaqc => t.qaqcId
  }

  /** Nobody but thing `me` uses row `row` through link `l`. */
  ghost predicate FreeFor(things: map<Id, ThingRow>, l: Link, row: Id, me: Option<Id>) {
    forall b :: b in things && me != Some(b) ==> LinkOf(things[b], l) != Some(row)
  }

  /** No two things use the same row through the same link. */
  ghost predicate Unshared(things: map<Id, ThingRow>, l: Link) {
    forall a :: a in things && LinkOf(things[a], l).Some? ==> FreeFor(things, l, LinkOf(things[a], l).value, Some(a))
  }

  ghost predicate Resolves<R>(id: Option<Id>, t: Table<R>) {
    id.Some? ==> id.value in t.rows
  }

  ghost predicate ThingResolves(db: Db, t: ThingRow) {
    && t.projectId in db.projects.rows && t.ingestTypeId in db.ingestTypes.rows
    && Resolves(t.mqttId, db.mqtts) && Resolves(t.sftpId, db.sftps)
    && Resolves(t.apiId, db.apis) && Resolves(t.storeId, db.stores) && Resolves(t.qaqcId, db.qaqcs)
  }

  /** Settings of a thing belong to no project. */
  ghost predicate Detached(db: Db, id: Option<Id>) {
    id.Some? ==> id.value in db.qaqcs.rows && db.qaqcs.rows[id.value].projectId.None?
  }

  ghost predicate SettingsResolve(db: Db) {
    && (forall id :: id in db.qaqcs.rows ==> Resolves(db.qaqcs.rows[id].projectId, db.projects))
    && (forall id :: id in db.things.rows ==> Detached(db, db.things.rows[id].qaqcId))
    && (forall id :: id in db.tests ==> id in db.qaqcs.rows)
  }

  /** Every foreign key points to an existing row. */
  ghost predicate KeysResolve(db: Db) {
    && (forall id :: id in db.things.rows ==> ThingResolves(db, db.things.rows[id]))
    && (forall id :: id in db.projects.rows ==> db.projects.rows[id].databaseId in db.databases.rows)
    && (forall id :: id in db.mqtts.rows ==> Resolves(db.mqtts.rows[id].deviceTypeId, db.deviceTypes))
    && (forall id :: id in db.apis.rows ==> db.apis.rows[id].typeId in db.apiTypes.rows)
    && (forall id :: id in db.stores.rows ==> Resolves(db.stores.rows[id].parserId, db.parsers))
    && (forall id :: id in db.parsers.rows ==> db.parsers.rows[id].typeId in db.parserTypes.rows)
  }

  ghost predicate IdsDrawn(db: Db) {
    && db.databases.Valid() && db.projects.Valid() && db.things.Valid() && db.mqtts.Valid() && db.sftps.Valid()
    && db.apis.Valid() && db.stores.Valid() && db.parsers.Valid() && db.deviceTypes.Valid() && db.apiTypes.Valid()
    && db.qaqcs.Valid()
  }

  // Pairs of rows are looked up one by one, through these predicates.

  ghost predicate NamesApart(names: map<Id, string>, a: Id, b: Id) {
    a in names && b in names && names[a] == names[b] ==> a == b
  }

  ghost predicate ThingsApart(things: map<Id, ThingRow>, a: Id, b: Id) {
    a in things && b in things && things[a].uuid == things[b].uuid ==> a == b
  }

  ghost predicate ProjectsApart(projects: map<Id, ProjectRow>, a: Id, b: Id) {
    a in projects && b in projects && a != b ==>
      projects[a].uuid != projects[b].uuid && projects[a].databaseId != projects[b].databaseId
  }

  ghost predicate ParsersApart(parsers: map<Id, ParserRow>, a: Id, b: Id) {
    a in parsers && b in parsers && parsers[a].uuid == parsers[b].uuid ==> a == b
  }

  ghost predicate NamesUnique(t: Table<string>) {
    forall a, b :: NamesApart(t.rows, a, b)
  }

  /** One row per thing, project and parser uuid, one per type name; no two projects share their
      database row. */
  ghost predicate OneRowEach(db: Db) {
    && (forall a, b :: ThingsApart(db.things.rows, a, b))
    && (forall a, b :: ProjectsApart(db.projects.rows, a, b))
    && (db.parserKey ==> forall a, b :: ParsersApart(db.parsers.rows, a, b))
    && NamesUnique(db.deviceTypes) && NamesUnique(db.apiTypes)
    && NamesUnique(db.ingestTypes) && NamesUnique(db.parserTypes)
  }

  /** No row of a thing is shared with another thing. */
  ghost predicate Separated(db: Db) {
    forall l :: Unshared(db.things.rows, l)
  }

  ghost predicate WellFormed(db: Db) {
    IdsDrawn(db) && KeysResolve(db) && SettingsResolve(db) && OneRowEach(db) && Separated(db)
  }

  // ---------------------------------------------------------------- reading back

  datatype ThingView = ThingView(
    name: string, description: string, ingestType: string, project: ProjectPart, database: Database,
    mqtt: Option<MqttPart>, sftp: Option<Sftp>, api: Option<ApiPart>,
    storage: Option<Bucket>, parserUuid: Option<string>, qaqc: Option<QaqcPart>)

  ghost function ViewOf(db: Db, id: Id): ThingView
    requires KeysResolve(db) && id in db.things.rows
  {
    var t := db.things.rows[id];
    assert ThingResolves(db, t);
    var p := db.projects.rows[t.projectId];
    ThingView(
      t.name, t.description, db.ingestTypes.rows[t.ingestTypeId],
      ProjectPart(p.name, p.uuid), db.databases.rows[p.databaseId],
      MqttView(db, t.mqttId),
      SftpView(db, t.sftpId),
      ApiView(db, t.apiId),
      StoreView(db, t.storeId),
      ParserView(db, t.storeId),
      QaqcView(db, t.qaqcId))
  }

  /** The row with the given id, if there is one. */
  function RowAt<R>(t: Table<R>, id: Option<Id>): Option<R> {
    if id.Some? && id.value in t.rows then Some(t.rows[id.value]) else None
  }

  function QaqcView(db: Db, id: Option<Id>): Option<QaqcPart> {
    match RowAt(db.qaqcs, id)
    case None => None
    case Some(q) => Some(QaqcPart(q.name, q.window, q.default, if id.value in db.tests then db.tests[id.value] else []))
  }

  function MqttView(db: Db, id: Option<Id>): Option<MqttPart> {
    match RowAt(db.mqtts, id)
    case None => None
    case Some(m) => Some(MqttPart(m.login, RowAt(db.deviceTypes, m.deviceTypeId)))
  }

  function SftpView(db: Db, id: Option<Id>): Option<Sftp> {
    RowAt(db.sftps, id)
  }

  function StoreView(db: Db, id: Option<Id>): Option<Bucket> {
    match RowAt(db.stores, id)
    case None => None
    case Some(s) => Some(s.bucket)
  }

  function ApiView(db: Db, id: Option<Id>): Option<ApiPart> {
    match RowAt(db.apis, id)
    case None => None
    case Some(a) =>
      var typ := RowAt(db.apiTypes, Some(a.typeId));
      if typ.None? then None else Some(ApiPart(typ.value, a.plan))
  }

  function ParserView(db: Db, storeId: Option<Id>): Option<string> {
    match RowAt(db.stores, storeId)
    case None => None
    case Some(s) =>
      var parser := RowAt(db.parsers, s.parserId);
      if parser.None? then None else Some(parser.value.uuid)
  }

  // ---------------------------------------------------------------- the updater

  /** Rows of a type table are never changed, only added. */
  ghost predicate Grows(before: Table<string>, after: Table<string>) {
    forall id :: id in before.rows ==> id in after.rows && after.rows[id] == before.rows[id]
  }

  function TypeName(name: Option<string>, lower: string -> string): Option<string> {
    if name.Some? && name.value != "" then Some(lower(name.value)) else None
  }

  /** The parser row of a uuid, if there is one. */
  ghost function HasParser(parsers: map<Id, ParserRow>, uuid: string): (id: Option<Id>)
    ensures id.Some? ==> id.value in parsers && parsers[id.value].uuid == uuid
    ensures id.None? ==> forall k :: k in parsers ==> parsers[k].uuid != uuid
  {
    if k :| k in parsers && parsers[k].uuid == uuid then Some(k) else None
  }

  /** No parser row of anybody else is rewritten, unless it is the one linked. */
  ghost predicate ParserOwn(before: Db, after: Db, linked: Option<Id>, id: Option<Id>) {
    id.Some? && id != linked ==> id.value !in before.parsers.rows || after.parsers == before.parsers
  }

  ghost predicate ParserSays(db: Db, id: Id, typ: string, part: ParserPart) {
    && id in db.parsers.rows && db.parsers.rows[id].typeId in db.parserTypes.rows
    && db.parserTypes.rows[db.parsers.rows[id].typeId] == typ
    && db.parsers.rows[id].name == part.name && db.parsers.rows[id].params == part.settings
  }

  /** A parser section is refused for an unknown type. A new row is refused unless there is a unique key for
      its conflict clause, and a uuid that another row has already if there is one. */
  ghost predicate ParserRefused(db: Db, typ: string, uuid: string, id: Option<Id>) {
    || (forall k :: k in db.parserTypes.rows ==> db.parserTypes.rows[k] != typ)
    || (id.None? && !db.parserKey)
    || (id.Some? && db.parserKey &&
        exists k :: k in db.parsers.rows && k != id.value && db.parsers.rows[k].uuid == uuid)
  }

  /** The ids a message works with: the thing's row and the rows it points to, its parser through
      its store. */
  datatype Links = Links(thing: Option<Id>, mqtt: Option<Id>, sftp: Option<Id>, api: Option<Id>,
                         store: Option<Id>, parser: Option<Id>)

  function LinksOf(db: Db, thing: Option<Id>): Links {
    if thing.None? || thing.value !in db.things.rows then Links(None, None, None, None, None, None)
    else
      var t := db.things.rows[thing.value];
      var parser := if t.storeId.Some? && t.storeId.value in db.stores.rows
                    then db.stores.rows[t.storeId.value].parserId else None;
      Links(thing, t.mqttId, t.sftpId, t.apiId, t.storeId, parser)
  }

  /** Storing the links leaves things, projects, databases and the mapping alone. */
  ghost predicate KeepsBase(before: Db, after: Db) {
    && after.things == before.things && after.projects == before.projects && after.databases == before.databases
    && after.schemas == before.schemas && after.ingestTypes == before.ingestTypes
    && after.parserTypes == before.parserTypes && after.parserKey == before.parserKey
    && after.qaqcs == before.qaqcs && after.tests == before.tests
    && Grows(before.deviceTypes, after.deviceTypes) && Grows(before.apiTypes, after.apiTypes)
  }

  ghost predicate OnlyAt<R>(before: Table<R>, after: Table<R>, id: Option<Id>) {
    && Resolves(id, after)
    && after.rows == if id.None? then before.rows else before.rows[id.value := after.rows[id.value]]
  }

  /** Each table changes at most in the row linked to the thing. */
  ghost predicate OnlyAccess(before: Db, after: Db, links: Links) {
    && OnlyAt(before.mqtts, after.mqtts, links.mqtt) && OnlyAt(before.sftps, after.sftps, links.sftp)
    && OnlyAt(before.apis, after.apis, links.api)
  }

  /** The row linked so far, or else the next one to be drawn. */
  function OwnOr(own: Option<Id>, next: Id): Option<Id> {
    if own.Some? then own else Some(next)
  }

  ghost predicate OnlyLinks(before: Db, after: Db, links: Links) {
    && OnlyAccess(before, after, links)
    && OnlyAt(before.stores, after.stores, links.store) && OnlyAt(before.parsers, after.parsers, links.parser)
  }

  ghost predicate AccessDrawn(before: Db, ids: Links, links: Links) {
    && (links.mqtt.Some? ==> links.mqtt == OwnOr(ids.mqtt, before.mqtts.next))
    && (links.sftp.Some? ==> links.sftp == OwnOr(ids.sftp, before.sftps.next))
    && (links.api.Some? ==> links.api == OwnOr(ids.api, before.apis.next))
  }

  ghost predicate LinksFree(things: map<Id, ThingRow>, links: Links) {
    && (links.mqtt.Some? ==> FreeFor(things, ToMqtt, links.mqtt.value, links.thing))
    && (links.sftp.Some? ==> FreeFor(things, ToSftp, links.sftp.value, links.thing))
    && (links.api.Some? ==> FreeFor(things, ToApi, links.api.value, links.thing))
    && (links.store.Some? ==> FreeFor(things, ToStore, links.store.value, links.thing))
  }

  function WantedMqtt(part: Option<MqttPart>, lower: string -> string): Option<MqttPart> {
    if part.None? then None else Some(MqttPart(part.value.login, TypeName(part.value.deviceType, lower)))
  }

  function WantedApi(part: Option<ApiPart>, lower: string -> string): Option<ApiPart> {
    if part.None? then None else Some(ApiPart(lower(part.value.typ), part.value.plan))
  }

  function DefaultParser(msg: Message): Option<ParserPart> {
    if msg.parsers.None? then None else At(msg.parsers.value.parsers, msg.parsers.value.default)
  }

  ghost predicate ParsersRefused(db: Db, msg: Message, ids: Links, lower: string -> string) {
    msg.parsers.Some? &&
      (DefaultParser(msg).None? ||
       ParserRefused(db, lower(DefaultParser(msg).value.typ), DefaultUuid(msg), ids.parser))
  }

  ghost function DefaultUuid(msg: Message): string
    requires DefaultParser(msg).Some?
  {
    ParserUuid(DefaultParser(msg).value.name, msg.project.uuid)
  }

  /** The parser row carries the derived uuid; a linked or new row says what the message says, while
      an existing row of that uuid is taken over as it is. */
  ghost predicate ParserStored(before: Db, db: Db, msg: Message, ids: Links, id: Option<Id>, lower: string -> string) {
    && (msg.parsers.None? <==> id.None?)
    && (id.Some? ==>
          && DefaultParser(msg).Some? && id.value in db.parsers.rows
          && db.parsers.rows[id.value].uuid == DefaultUuid(msg)
          && (ids.parser.Some? ==> id == ids.parser)
          && (ids.parser.None? ==> HasParser(before.parsers.rows, DefaultUuid(msg)) in {None, id})
          && (ids.parser.Some? || HasParser(before.parsers.rows, DefaultUuid(msg)).None? ==>
                ParserSays(db, id.value, lower(DefaultParser(msg).value.typ), DefaultParser(msg).value)))
  }

  ghost predicate ParserSettled(db: Db, msg: Message, ids: Links, lower: string -> string) {
    DefaultParser(msg).Some? ==>
      if ids.parser.None? then HasParser(db.parsers.rows, DefaultUuid(msg)).Some?
      else
        && ids.parser.value in db.parsers.rows && db.parsers.rows[ids.parser.value].uuid == DefaultUuid(msg)
        && ParserSays(db, ids.parser.value, lower(DefaultParser(msg).value.typ), DefaultParser(msg).value)
  }

  lemma OnlyName(t: Table<string>, k: Id)
    requires NamesUnique(t) && k in t.rows
    ensures forall x :: x in t.rows && t.rows[x] == t.rows[k] ==> x == k
  {
    forall x | x in t.rows && t.rows[x] == t.rows[k] ensures x == k {
      assert NamesApart(t.rows, x, k);
    }
  }

  lemma OnlyParser(db: Db, k: Id)
    requires OneRowEach(db) && db.parserKey && k in db.parsers.rows
    ensures forall x :: x in db.parsers.rows && db.parsers.rows[x].uuid == db.parsers.rows[k].uuid ==> x == k
  {
    forall x | x in db.parsers.rows && db.parsers.rows[x].uuid == db.parsers.rows[k].uuid ensures x == k {
      assert ParsersApart(db.parsers.rows, x, k);
    }
  }

  /** The rows a thing owns, and those still to be drawn, are free for that thing. */
  lemma OwnedOrNew(db: Db, me: Option<Id>)
    requires WellFormed(db) && Resolves(me, db.things)
    ensures LinksFree(db.things.rows, LinksOf(db, me))
    ensures LinksFree(db.things.rows,
                      Links(me, Some(db.mqtts.next), Some(db.sftps.next), Some(db.apis.next), Some(db.stores.next),
                            None))
  {
    assert Unshared(db.things.rows, ToMqtt) && Unshared(db.things.rows, ToSftp);
    assert Unshared(db.things.rows, ToApi) && Unshared(db.things.rows, ToStore);
    assert forall b :: b in db.things.rows ==> ThingResolves(db, db.things.rows[b]);
  }

  lemma DrawnAreFree(db: Db, ids: Links, links: Links)
    requires WellFormed(db) && ids == LinksOf(db, ids.thing) && Resolves(ids.thing, db.things)
    requires links.thing == ids.thing && AccessDrawn(db, ids, links)
    requires links.store.Some? ==> links.store == OwnOr(ids.store, db.stores.next)
    ensures LinksFree(db.things.rows, links)
  {
    OwnedOrNew(db, ids.thing);
  }

  /** The ids of a thing's links resolve. */
  lemma LinksResolve(db: Db, ids: Links)
    requires WellFormed(db) && ids == LinksOf(db, ids.thing)
    ensures Resolves(ids.thing, db.things) && Resolves(ids.mqtt, db.mqtts) && Resolves(ids.sftp, db.sftps)
    ensures Resolves(ids.api, db.apis) && Resolves(ids.store, db.stores) && Resolves(ids.parser, db.parsers)
  {
    if ids.thing.Some? { assert ThingResolves(db, db.things.rows[ids.thing.value]); }
  }

  /** The linked rows say what the sections of the message say. */
  ghost predicate AccessStored(db: Db, msg: Message, links: Links, lower: string -> string) {
    && Resolves(links.mqtt, db.mqtts) && Resolves(links.api, db.apis) && Resolves(links.sftp, db.sftps)
    && MqttView(db, links.mqtt) == WantedMqtt(msg.mqtt, lower)
    && ApiView(db, links.api) == WantedApi(msg.api, lower)
    && SftpView(db, links.sftp) == msg.sftp
  }

  ghost predicate LinksStored(db: Db, msg: Message, links: Links, lower: string -> string) {
    AccessStored(db, msg, links, lower) && Resolves(links.store, db.stores) && StoreView(db, links.store) == msg.storage
  }

  /** The store points to the parser of the message, or to the one linked so far. */
  ghost predicate ParserKept(before: Db, db: Db, msg: Message, ids: Links, store: Option<Id>, parser: Option<Id>,
                             lower: string -> string) {
    && ParserStored(before, db, msg, ids, parser, lower)
    && (store.Some? ==>
          && store.value in db.stores.rows
          && db.stores.rows[store.value].parserId == if parser.None? then ids.parser else parser)
  }

  /** The parser section has been stored in row `parser`, and no other row of the table has changed. */
  ghost predicate ParserPut(before: Db, db: Db, msg: Message, ids: Links, parser: Option<Id>, lower: string -> string) {
    && ParserStored(before, db, msg, ids, parser, lower) && ParserOwn(before, db, ids.parser, parser)
    && OnlyAt(before.parsers, db.parsers, parser)
  }

  /** What a message does to the parsers. With storage, its thing is left linked to the parser, as row `id`. */
  ghost predicate ParserLinked(before: Db, db: Db, msg: Message, ids: Links, id: Option<Id>, lower: string -> string) {
    exists parser ::
      && ParserPut(before, db, msg, ids, parser, lower)
      && (msg.storage.Some? ==> id == if msg.parsers.Some? then parser else ids.parser)
  }

  /** The rows linked so far say already what the message says. */
  ghost predicate FilesSettled(db: Db, msg: Message, ids: Links, lower: string -> string) {
    && StoreView(db, ids.store) == msg.storage
    && ParserSettled(db, msg, ids, lower)
    && (msg.parsers.Some? && msg.storage.Some? ==> ids.parser.Some?)
  }

  method FindName(t: Table<string>, name: string) returns (id: Option<Id>)
    ensures id.Some? ==> id.value in t.rows && t.rows[id.value] == name
    ensures id.None? ==> forall k :: k in t.rows ==> t.rows[k] != name
  {
    if k :| k in t.rows && t.rows[k] == name {
      id := Some(k);
    } else {
      id := None;
    }
  }

  /** Device and API types are created when a message names a new one. */
  method FindOrCreate(t: Table<string>, name: string) returns (t': Table<string>, id: Id)
    requires t.Valid() && NamesUnique(t)
    ensures t'.Valid() && NamesUnique(t') && Grows(t, t')
    ensures id in t'.rows && t'.rows[id] == name
    ensures (exists k :: k in t.rows && t.rows[k] == name) ==> t' == t
  {
    var found := FindName(t, name);
    if found.Some? { return t, found.value; }
    t', id := Table(t.rows[t.next := name], t.next + 1), t.next;
    forall a, b ensures NamesApart(t'.rows, a, b) {
      assert NamesApart(t.rows, a, b);
    }
  }

  method UpsertMqtt(lower: string -> string, db0: Db, part: MqttPart, id: Option<Id>) returns (db: Db, mqttId: Id)
    requires WellFormed(db0) && Resolves(id, db0.mqtts)
    ensures WellFormed(db)
    ensures db == db0.(mqtts := db.mqtts, deviceTypes := db.deviceTypes)
    ensures mqttId == (if id.Some? then id.value else db0.mqtts.next)
    ensures mqttId in db.mqtts.rows && db.mqtts.rows == db0.mqtts.rows[mqttId := db.mqtts.rows[mqttId]]
    ensures MqttView(db, Some(mqttId)) == Some(MqttPart(part.login, TypeName(part.deviceType, lower)))
    ensures Grows(db0.deviceTypes, db.deviceTypes)
    ensures db == db0 <==> MqttView(db0, id) == Some(MqttPart(part.login, TypeName(part.deviceType, lower)))
  {
    db := db0;
    var typeId := None;
    var name := TypeName(part.deviceType, lower);
    if name.Some? {
      var types, t := FindOrCreate(db.deviceTypes, name.value);
      typeId := Some(t);
      OnlyName(types, t);
      db := db.(deviceTypes := types);
    }
    var stored := Upsert(db.mqtts, MqttRow(part.login, typeId), id);
    db := db.(mqtts := stored.value.0);
    mqttId := stored.value.1;
  }

  method UpsertSftp(db0: Db, part: Sftp, id: Option<Id>) returns (db: Db, sftpId: Id)
    requires WellFormed(db0) && Resolves(id, db0.sftps)
    ensures WellFormed(db)
    ensures db == db0.(sftps := db.sftps)
    ensures sftpId == (if id.Some? then id.value else db0.sftps.next)
    ensures db.sftps.rows == db0.sftps.rows[sftpId := part]
    ensures db == db0 <==> id.Some? && db0.sftps.rows[id.value] == part
  {
    db := db0;
    var stored := Upsert(db.sftps, part, id);
    db := db.(sftps := stored.value.0);
    sftpId := stored.value.1;
  }

  /** An empty type name leaves the type null, which the table refuses. */
  method UpsertApi(lower: string -> string, db0: Db, part: ApiPart, id: Option<Id>)
      returns (db: Db, r: Result<Id, DbError>)
    requires WellFormed(db0) && Resolves(id, db0.apis)
    ensures WellFormed(db)
    ensures r.Err? <==> part.typ == ""
    ensures db == db0.(apis := db.apis, apiTypes := db.apiTypes)
    ensures Grows(db0.apiTypes, db.apiTypes)
    ensures r.Ok? ==>
              && r.value == (if id.Some? then id.value else db0.apis.next)
              && r.value in db.apis.rows && db.apis.rows == db0.apis.rows[r.value := db.apis.rows[r.value]]
              && ApiView(db, Some(r.value)) == Some(ApiPart(lower(part.typ), part.plan))
              && (db == db0 <==> ApiView(db0, id) == Some(ApiPart(lower(part.typ), part.plan)))
  {
    db := db0;
    if part.typ == "" { return db, Err(NotNullViolation); }
    var types, t := FindOrCreate(db.apiTypes, lower(part.typ));
    OnlyName(types, t);
    db := db.(apiTypes := types);
    var stored := Upsert(db.apis, ApiRow(t, part.plan), id);
    db := db.(apis := stored.value.0);
    r := Ok(stored.value.1);
  }

  /** A linked parser row is rewritten. Without one, a row of the same uuid is taken over as it is;
      only if there is none, a new row is inserted. */
  method UpsertParser(lower: string -> string, db0: Db, part: ParserPart, uuid: string, id: Option<Id>)
      returns (db: Db, r: Result<Id, DbError>)
    requires WellFormed(db0) && Resolves(id, db0.parsers)
    ensures WellFormed(db)
    ensures db == db0.(parsers := db.parsers)
    ensures r.Err? <==> ParserRefused(db0, lower(part.typ), uuid, id)
    ensures r.Err? ==> db == db0
    ensures r.Ok? ==> r.value in db.parsers.rows && db.parsers.rows[r.value].uuid == uuid
    ensures r.Ok? ==> db.parsers.rows == db0.parsers.rows[r.value := db.parsers.rows[r.value]]
    ensures r.Ok? && id.Some? ==> r.value == id.value
    ensures r.Ok? ==> ParserOwn(db0, db, id, Some(r.value))
    ensures r.Ok? && (id.Some? || HasParser(db0.parsers.rows, uuid).None?) ==>
            ParserSays(db, r.value, lower(part.typ), part)
    ensures r.Ok? && id.None? && HasParser(db0.parsers.rows, uuid).Some? ==>
            db == db0 && HasParser(db0.parsers.rows, uuid) == Some(r.value)
    ensures r.Ok? ==> (db == db0 <==>
              if id.Some?
              then ParserSays(db0, id.value, lower(part.typ), part) && db0.parsers.rows[id.value].uuid == uuid
              else HasParser(db0.parsers.rows, uuid).Some?)
  {
    db := db0;
    var typeId := FindName(db.parserTypes, lower(part.typ));
    if typeId.None? { return db, Err(UnknownParserType); }
    OnlyName(db.parserTypes, typeId.value);
    var row := ParserRow(typeId.value, part.name, part.settings, uuid);
    if id.None? {
      if !db.parserKey { return db, Err(NoUniqueKey); }
      if k :| k in db.parsers.rows && db.parsers.rows[k].uuid == uuid {
        OnlyParser(db, k);
        return db, Ok(k);
      }
    } else if db.parserKey && exists k :: k in db.parsers.rows && k != id.value && db.parsers.rows[k].uuid == uuid {
      return db, Err(UniqueViolation);
    }
    if db.parserKey {
      forall a, b ensures ParsersApart(Upsert(db.parsers, row, id).value.0.rows, a, b) {
        assert ParsersApart(db.parsers.rows, a, b);
      }
    }
    var stored := Upsert(db.parsers, row, id);
    db := db.(parsers := stored.value.0);
    r := Ok(stored.value.1);
  }

  method UpsertStore(db0: Db, bucket: Bucket, parserId: Option<Id>, id: Option<Id>) returns (db: Db, storeId: Id)
    requires WellFormed(db0) && Resolves(id, db0.stores) && Resolves(parserId, db0.parsers)
    ensures WellFormed(db)
    ensures db == db0.(stores := db.stores)
    ensures storeId == (if id.Some? then id.value else db0.stores.next)
    ensures db.stores.rows == db0.stores.rows[storeId := StoreRow(bucket, parserId)]
    ensures db == db0 <==> id.Some? && db0.stores.rows[id.value] == StoreRow(bucket, parserId)
  {
    db := db0;
    var stored := Upsert(db.stores, StoreRow(bucket, parserId), id);
    db := db.(stores := stored.value.0);
    storeId := stored.value.1;
  }

  // Each section of a message: absent sections unlink, present ones go to the linked row.

  ghost predicate MqttStep(db0: Db, db: Db, part: Option<MqttPart>, ids: Links, id: Option<Id>,
                           lower: string -> string) {
    && db == db0.(mqtts := db.mqtts, deviceTypes := db.deviceTypes)
    && Grows(db0.deviceTypes, db.deviceTypes) && OnlyAt(db0.mqtts, db.mqtts, id)
    && (id.Some? ==> id == OwnOr(ids.mqtt, db0.mqtts.next))
    && MqttView(db, id) == WantedMqtt(part, lower)
    && (db == db0 && id == ids.mqtt <==> MqttView(db0, ids.mqtt) == WantedMqtt(part, lower))
  }

  method StoreMqtt(lower: string -> string, db0: Db, part: Option<MqttPart>, ids: Links)
      returns (db: Db, id: Option<Id>)
    requires WellFormed(db0) && ids == LinksOf(db0, ids.thing)
    ensures WellFormed(db) && MqttStep(db0, db, part, ids, id, lower)
  {
    db := db0;
    LinksResolve(db0, ids);
    if part.None? { return db, None; }
    var stored;
    db, stored := UpsertMqtt(lower, db, part.value, ids.mqtt);
    id := Some(stored);
  }

  ghost predicate SftpStep(db0: Db, db: Db, part: Option<Sftp>, ids: Links, id: Option<Id>) {
    && db == db0.(sftps := db.sftps) && OnlyAt(db0.sftps, db.sftps, id)
    && (id.Some? ==> id == OwnOr(ids.sftp, db0.sftps.next))
    && SftpView(db, id) == part
    && (db == db0 && id == ids.sftp <==> SftpView(db0, ids.sftp) == part)
  }

  method StoreSftp(db0: Db, part: Option<Sftp>, ids: Links) returns (db: Db, id: Option<Id>)
    requires WellFormed(db0) && ids == LinksOf(db0, ids.thing)
    ensures WellFormed(db) && SftpStep(db0, db, part, ids, id)
  {
    db := db0;
    LinksResolve(db0, ids);
    if part.None? { return db, None; }
    var stored;
    db, stored := UpsertSftp(db, part.value, ids.sftp);
    id := Some(stored);
  }

  ghost predicate ApiStep(db0: Db, db: Db, part: Option<ApiPart>, ids: Links, id: Option<Id>, lower: string -> string) {
    && OnlyAt(db0.apis, db.apis, id)
    && (id.Some? ==> id == OwnOr(ids.api, db0.apis.next))
    && ApiView(db, id) == WantedApi(part, lower)
    && (db == db0 && id == ids.api <==> ApiView(db0, ids.api) == WantedApi(part, lower))
  }

  method StoreApi(lower: string -> string, db0: Db, part: Option<ApiPart>, ids: Links)
      returns (db: Db, r: Result<Option<Id>, DbError>)
    requires WellFormed(db0) && ids == LinksOf(db0, ids.thing)
    ensures WellFormed(db) && db == db0.(apis := db.apis, apiTypes := db.apiTypes)
    ensures r.Err? <==> part.Some? && part.value.typ == ""
    ensures Grows(db0.apiTypes, db.apiTypes)
    ensures r.Ok? ==> ApiStep(db0, db, part, ids, r.value, lower)
  {
    db := db0;
    LinksResolve(db0, ids);
    if part.None? { return db, Ok(None); }
    var stored;
    db, stored := UpsertApi(lower, db, part.value, ids.api);
    r := if stored.Err? then Err(stored.error) else Ok(Some(stored.value));
  }

  /** The parser section has been stored under `id`. */
  ghost predicate ParserStep(db0: Db, db: Db, msg: Message, ids: Links, id: Option<Id>, lower: string -> string) {
    && db == db0.(parsers := db.parsers) && OnlyAt(db0.parsers, db.parsers, id)
    && ParserStored(db0, db, msg, ids, id, lower) && ParserOwn(db0, db, ids.parser, id)
    && (db == db0 && (ids.parser.Some? && id.Some? ==> id == ids.parser) <==> ParserSettled(db0, msg, ids, lower))
  }

  /** The default parser of the message, under the uuid derived from its name and project. */
  method StoreParser(lower: string -> string, db0: Db, msg: Message, ids: Links)
      returns (db: Db, r: Result<Option<Id>, DbError>)
    requires WellFormed(db0) && ids == LinksOf(db0, ids.thing)
    ensures WellFormed(db) && db == db0.(parsers := db.parsers)
    ensures r.Err? <==> ParsersRefused(db0, msg, ids, lower)
    ensures r.Ok? ==> ParserStep(db0, db, msg, ids, r.value, lower)
  {
    db := db0;
    LinksResolve(db0, ids);
    if msg.parsers.None? { return db, Ok(None); }
    var part := DefaultParser(msg);
    if part.None? { return db, Err(NoSuchParser); }
    var stored;
    db, stored := UpsertParser(lower, db, part.value, ParserUuid(part.value.name, msg.project.uuid), ids.parser);
    r := if stored.Err? then Err(stored.error) else Ok(Some(stored.value));
  }

  /** The storage section has been stored under `id`, pointing to the parser. */
  ghost predicate StoreStep(db0: Db, db: Db, part: Option<Bucket>, parser: Option<Id>, ids: Links, id: Option<Id>) {
    && db == db0.(stores := db.stores) && OnlyAt(db0.stores, db.stores, id)
    && (id.Some? ==> id == OwnOr(ids.store, db0.stores.next) && db.stores.rows[id.value].parserId == parser)
    && StoreView(db, id) == part
    && (db == db0 && id == ids.store <==> StoreView(db0, ids.store) == part && (part.Some? ==> parser == ids.parser))
  }

  method StoreStore(db0: Db, part: Option<Bucket>, parser: Option<Id>, ids: Links) returns (db: Db, id: Option<Id>)
    requires WellFormed(db0) && ids == LinksOf(db0, ids.thing) && Resolves(parser, db0.parsers)
    ensures WellFormed(db) && StoreStep(db0, db, part, parser, ids, id)
  {
    db := db0;
    LinksResolve(db0, ids);
    if part.None? { return db, None; }
    var stored;
    db, stored := UpsertStore(db, part.value, parser, ids.store);
    id := Some(stored);
  }

  /** The sections by which a thing is reached have been stored under the three ids. */
  ghost predicate AccessStep(db0: Db, db: Db, msg: Message, ids: Links, links: Links, lower: string -> string) {
    && OnlyAccess(db0, db, links) && AccessDrawn(db0, ids, links) && AccessStored(db, msg, links, lower)
    && (db == db0 && links.mqtt == ids.mqtt && links.sftp == ids.sftp && links.api == ids.api <==>
        AccessStored(db0, msg, ids, lower))
  }

  ghost predicate OnlyAccessTables(db0: Db, db: Db) {
    && db == db0.(mqtts := db.mqtts, deviceTypes := db.deviceTypes, sftps := db.sftps,
                  apis := db.apis, apiTypes := db.apiTypes)
    && Grows(db0.deviceTypes, db.deviceTypes) && Grows(db0.apiTypes, db.apiTypes)
  }

  function AccessLinks(thing: Option<Id>, access: (Option<Id>, Option<Id>, Option<Id>)): Links {
    Links(thing, access.0, access.1, access.2, None, None)
  }

  lemma AccessTogether(db0: Db, db1: Db, db2: Db, db: Db, msg: Message, ids: Links,
                       mqtt: Option<Id>, sftp: Option<Id>, api: Option<Id>, lower: string -> string)
    requires MqttStep(db0, db1, msg.mqtt, ids, mqtt, lower) && SftpStep(db1, db2, msg.sftp, ids, sftp)
    requires ApiStep(db2, db, msg.api, ids, api, lower) && db == db2.(apis := db.apis, apiTypes := db.apiTypes)
    requires Resolves(ids.mqtt, db0.mqtts) && Resolves(ids.sftp, db0.sftps) && Resolves(ids.api, db0.apis)
    ensures AccessStep(db0, db, msg, ids, AccessLinks(ids.thing, (mqtt, sftp, api)), lower)
  {
    assert MqttView(db, mqtt) == MqttView(db1, mqtt);
    assert SftpView(db, sftp) == SftpView(db2, sftp) && SftpView(db1, ids.sftp) == SftpView(db0, ids.sftp);
    assert ApiView(db2, ids.api) == ApiView(db0, ids.api);
  }

  /** The sections by which a thing is reached: MQTT, SFTP and API. */
  method StoreAccess(lower: string -> string, db0: Db, msg: Message, ids: Links)
      returns (db: Db, r: Result<(Option<Id>, Option<Id>, Option<Id>), DbError>)
    requires WellFormed(db0) && ids == LinksOf(db0, ids.thing)
    ensures WellFormed(db) && OnlyAccessTables(db0, db)
    ensures r.Err? <==> msg.api.Some? && msg.api.value.typ == ""
    ensures r.Ok? ==> AccessStep(db0, db, msg, ids, AccessLinks(ids.thing, r.value), lower)
  {
    LinksResolve(db0, ids);
    var db1, mqtt := StoreMqtt(lower, db0, msg.mqtt, ids);
    var db2, sftp := StoreSftp(db1, msg.sftp, ids);
    var api;
    db, api := StoreApi(lower, db2, msg.api, ids);
    if api.Err? { return db, Err(api.error); }
    AccessTogether(db0, db1, db2, db, msg, ids, mqtt, sftp, api.value, lower);
    r := Ok((mqtt, sftp, api.value));
  }

  /** The sections about files have been stored under the two ids. */
  ghost predicate FilesStep(db0: Db, db: Db, msg: Message, ids: Links, store: Option<Id>, parser: Option<Id>,
                            lower: string -> string) {
    && OnlyAt(db0.stores, db.stores, store) && OnlyAt(db0.parsers, db.parsers, parser)
    && (store.Some? ==> store == OwnOr(ids.store, db0.stores.next))
    && StoreView(db, store) == msg.storage
    && ParserKept(db0, db, msg, ids, store, parser, lower) && ParserOwn(db0, db, ids.parser, parser)
    && (db == db0 && store == ids.store <==> FilesSettled(db0, msg, ids, lower))
  }

  /** A message without parsers keeps the parser linked so far. */
  function LinkedAfter(ids: Links, parser: Option<Id>): Option<Id> {
    if parser.None? then ids.parser else parser
  }

  lemma FilesTogether(db0: Db, db1: Db, db: Db, msg: Message, ids: Links, store: Option<Id>, parser: Option<Id>,
                      lower: string -> string)
    requires ParserStep(db0, db1, msg, ids, parser, lower)
    requires StoreStep(db1, db, msg.storage, LinkedAfter(ids, parser), ids, store)
    requires !ParsersRefused(db0, msg, ids, lower)
    ensures FilesStep(db0, db, msg, ids, store, parser, lower)
  {
  }

  /** The sections about files: the parser and the store that points to it. */
  method StoreFiles(lower: string -> string, db0: Db, msg: Message, ids: Links)
      returns (db: Db, r: Result<(Option<Id>, Option<Id>), DbError>)
    requires WellFormed(db0) && ids == LinksOf(db0, ids.thing)
    ensures WellFormed(db) && db == db0.(parsers := db.parsers, stores := db.stores)
    ensures r.Err? <==> ParsersRefused(db0, msg, ids, lower)
    ensures r.Ok? ==> FilesStep(db0, db, msg, ids, r.value.0, r.value.1, lower)
  {
    LinksResolve(db0, ids);
    var db1, parser := StoreParser(lower, db0, msg, ids);
    if parser.Err? { return db1, Err(parser.error); }
    var store;
    db, store := StoreStore(db1, msg.storage, LinkedAfter(ids, parser.value), ids);
    FilesTogether(db0, db1, db, msg, ids, store, parser.value, lower);
    r := Ok((store, parser.value));
  }

  // ---------------------------------------------------------------- projects and things

  ghost function ProjectId(projects: map<Id, ProjectRow>, uuid: string): (id: Option<Id>)
    ensures id.Some? ==> id.value in projects && projects[id.value].uuid == uuid
    ensures id.None? ==> forall k :: k in projects ==> projects[k].uuid != uuid
  {
    if k :| k in projects && projects[k].uuid == uuid then Some(k) else None
  }

  ghost function ThingId(things: map<Id, ThingRow>, uuid: string): (id: Option<Id>)
    ensures id.Some? ==> id.value in things && things[id.value].uuid == uuid
    ensures id.None? ==> forall k :: k in things ==> things[k].uuid != uuid
  {
    if k :| k in things && things[k].uuid == uuid then Some(k) else None
  }

  lemma OnlyThing(db: Db, k: Id)
    requires OneRowEach(db) && k in db.things.rows
    ensures ThingId(db.things.rows, db.things.rows[k].uuid) == Some(k)
  {
    assert ThingsApart(db.things.rows, ThingId(db.things.rows, db.things.rows[k].uuid).value, k);
  }

  lemma OnlyProject(db: Db, k: Id)
    requires OneRowEach(db) && k in db.projects.rows
    ensures ProjectId(db.projects.rows, db.projects.rows[k].uuid) == Some(k)
  {
    assert ProjectsApart(db.projects.rows, ProjectId(db.projects.rows, db.projects.rows[k].uuid).value, k);
  }

  /** The project row and its database row say what the message says. */
  ghost predicate ProjectStored(db: Db, id: Option<Id>, part: ProjectPart, database: Database) {
    && id.Some? && id.value in db.projects.rows && db.projects.rows[id.value].databaseId in db.databases.rows
    && db.projects.rows[id.value].name == part.name && db.projects.rows[id.value].uuid == part.uuid
    && db.databases.rows[db.projects.rows[id.value].databaseId] == database
  }

  /** Projects of another uuid keep their row and their database row. */
  ghost predicate OtherProjectsKept(before: Db, after: Db, uuid: string) {
    forall k :: k in before.projects.rows && before.projects.rows[k].uuid != uuid ==> ProjectRowsKept(before, after, k)
  }

  ghost predicate ProjectRowsKept(before: Db, after: Db, k: Id)
    requires k in before.projects.rows
  {
    && k in after.projects.rows && after.projects.rows[k] == before.projects.rows[k]
    && RowKept(before.databases, after.databases, Some(before.projects.rows[k].databaseId))
  }

  /** Project and database row have been stored. */
  ghost predicate ProjectStep(db0: Db, db: Db, part: ProjectPart, database: Database, projectId: Id) {
    && db == db0.(databases := db.databases, projects := db.projects)
    && ProjectStored(db, Some(projectId), part, database)
    && ProjectId(db0.projects.rows, part.uuid) in {None, Some(projectId)}
    && StableProjects(db0, db) && OtherProjectsKept(db0, db, part.uuid)
    && (db == db0 <==> ProjectStored(db0, ProjectId(db0.projects.rows, part.uuid), part, database))
  }

  method StoreProject(db0: Db, part: ProjectPart, database: Database) returns (db: Db, projectId: Id)
    requires WellFormed(db0)
    ensures WellFormed(db) && ProjectStep(db0, db, part, database, projectId)
  {
    var found: Option<Id> := None;
    var databaseId: Option<Id> := None;
    if k :| k in db0.projects.rows && db0.projects.rows[k].uuid == part.uuid {
      OnlyProject(db0, k);
      found, databaseId := Some(k), Some(db0.projects.rows[k].databaseId);
    }
    var databases := Upsert(db0.databases, database, databaseId);
    var projects := Upsert(db0.projects, ProjectRow(part.name, part.uuid, databases.value.1), found);
    db := db0.(databases := databases.value.0, projects := projects.value.0);
    projectId := projects.value.1;
    ProjectPut(db0, db, found, projectId, databases.value.1);
  }

  /** A project's row and its database row, rewritten or new, keep the tables well formed. */
  lemma ProjectPut(db0: Db, db: Db, found: Option<Id>, id: Id, databaseId: Id)
    requires WellFormed(db0) && db == db0.(databases := db.databases, projects := db.projects)
    requires db.projects.Valid() && db.databases.Valid()
    requires id in db.projects.rows && db.projects.rows == db0.projects.rows[id := db.projects.rows[id]]
    requires databaseId in db.databases.rows &&
             db.databases.rows == db0.databases.rows[databaseId := db.databases.rows[databaseId]]
    requires db.projects.rows[id].databaseId == databaseId
    requires ProjectId(db0.projects.rows, db.projects.rows[id].uuid) == found
    requires if found.Some? then found.value == id && databaseId == db0.projects.rows[id].databaseId
             else id !in db0.projects.rows && databaseId !in db0.databases.rows
    ensures WellFormed(db)
    ensures StableProjects(db0, db) && OtherProjectsKept(db0, db, db.projects.rows[id].uuid)
  {
    forall a, b ensures ProjectsApart(db.projects.rows, a, b) {
      assert ProjectsApart(db0.projects.rows, a, b);
    }
    forall k | k in db0.projects.rows && k != id ensures db0.projects.rows[k].databaseId != databaseId {
      if found.Some? { assert ProjectsApart(db0.projects.rows, k, id); }
    }
    forall k | k in db.things.rows ensures ThingResolves(db, db.things.rows[k]) {
      assert ThingResolves(db0, db0.things.rows[k]);
    }
  }

  ghost predicate IngestKnown(db: Db, name: string) {
    exists k :: k in db.ingestTypes.rows && db.ingestTypes.rows[k] == name
  }

  /** Exactly these messages are refused; the transaction then leaves no trace. */
  ghost predicate ThingRefused(db: Db, msg: Message, lower: string -> string) {
    || !IngestKnown(db, lower(msg.ingestType))
    || (msg.api.Some? && msg.api.value.typ == "")
    || ParsersRefused(db, msg, LinksOf(db, ThingId(db.things.rows, msg.uuid)), lower)
  }

  ghost predicate BaseStored(db: Db, t: ThingRow, msg: Message, qaqcId: Option<Id>, projectId: Id,
                             lower: string -> string) {
    && t.uuid == msg.uuid && t.name == msg.name && t.description == msg.description
    && t.projectId == projectId && t.qaqcId == qaqcId
    && t.ingestTypeId in db.ingestTypes.rows && db.ingestTypes.rows[t.ingestTypeId] == lower(msg.ingestType)
  }

  /** The thing's row, the rows it points to and the schema mapping say what the message says. */
  ghost predicate ThingStored(db: Db, id: Option<Id>, msg: Message, qaqcId: Option<Id>, projectId: Id,
                              lower: string -> string) {
    && id.Some? && id.value in db.things.rows
    && BaseStored(db, db.things.rows[id.value], msg, qaqcId, projectId, lower)
    && AccessStored(db, msg, LinksOf(db, id), lower)
    && Resolves(db.things.rows[id.value].storeId, db.stores)
    && StoreView(db, db.things.rows[id.value].storeId) == msg.storage
    && (msg.database.schema, msg.uuid) in db.schemas
  }

  /** Uuid of the parser a thing has after the message: the message's, or the one linked so far. */
  ghost function WantedParser(db: Db, msg: Message): Option<string> {
    var ids := LinksOf(db, ThingId(db.things.rows, msg.uuid));
    if msg.storage.None? then None
    else if DefaultParser(msg).Some? then Some(DefaultUuid(msg))
    else if ids.parser.Some? && ids.parser.value in db.parsers.rows then Some(db.parsers.rows[ids.parser.value].uuid)
    else None
  }

  ghost predicate RowKept<R>(before: Table<R>, after: Table<R>, id: Option<Id>) {
    id.Some? && id.value in before.rows ==> id.value in after.rows && after.rows[id.value] == before.rows[id.value]
  }

  /** Every other thing keeps its row and the rows it points to. Its parser row may be shared, and
      then keeps what it says unless it is the parser linked to the thing of the message. */
  ghost predicate OtherThingsKept(before: Db, after: Db, uuid: string) {
    forall k :: k in before.things.rows && before.things.rows[k].uuid != uuid ==> ThingKept(before, after, uuid, k)
  }

  ghost predicate ThingKept(before: Db, after: Db, uuid: string, k: Id)
    requires k in before.things.rows
  {
    var parser := LinksOf(before, Some(k)).parser;
    && OwnRowsKept(before, after, k)
    && (parser != LinksOf(before, ThingId(before.things.rows, uuid)).parser ==>
        RowKept(before.parsers, after.parsers, parser))
  }

  /** A thing's row, and the rows it points to. */
  ghost predicate OwnRowsKept(before: Db, after: Db, k: Id)
    requires k in before.things.rows
  {
    var t := before.things.rows[k];
    && k in after.things.rows && after.things.rows[k] == t
    && RowKept(before.mqtts, after.mqtts, t.mqttId) && RowKept(before.sftps, after.sftps, t.sftpId)
    && RowKept(before.apis, after.apis, t.apiId) && RowKept(before.stores, after.stores, t.storeId)
    && SettingsKept(before, after, t.qaqcId)
  }

  ghost predicate SettingsKept(before: Db, after: Db, id: Option<Id>) {
    && RowKept(before.qaqcs, after.qaqcs, id)
    && (id.Some? ==> (id.value in before.tests <==> id.value in after.tests)
                     && (id.value in before.tests ==> after.tests[id.value] == before.tests[id.value]))
  }

  ghost predicate AllSettingsKept(before: Db, after: Db) {
    forall k :: k in before.things.rows ==> SettingsKept(before, after, before.things.rows[k].qaqcId)
  }

  /** Settings of the message are linked to its thing, in a row that no thing had before. */
  ghost predicate SettingsAdded(before: Db, after: Db, msg: Message) {
    var id, project := ThingId(after.things.rows, msg.uuid), ProjectId(after.projects.rows, msg.project.uuid);
    && AllSettingsKept(before, after) && id.Some? && project.Some?
    && SettingsPlaced(before, after, msg.qaqc, project.value, after.things.rows[id.value].qaqcId)
    && (msg.qaqc.Some? ==>
          forall k :: k in before.things.rows ==> before.things.rows[k].qaqcId != after.things.rows[id.value].qaqcId)
  }

  /** Nobody uses the settings row yet, except the thing `me`. */
  ghost predicate SettingsFree(db: Db, id: Option<Id>, me: Option<Id>) {
    Detached(db, id) && (id.Some? ==> FreeFor(db.things.rows, ToQaqc, id.value, me))
  }

  lemma PutKeepsUuids(db: Db, row: ThingRow, id: Option<Id>)
    requires OneRowEach(db) && ThingId(db.things.rows, row.uuid) == id
    ensures forall a, b :: ThingsApart(Upsert(db.things, row, id).value.0.rows, a, b)
  {
    var things := Upsert(db.things, row, id).value.0;
    forall a, b ensures ThingsApart(things.rows, a, b) {
      assert ThingsApart(db.things.rows, a, b);
      if id.Some? {
        assert ThingsApart(db.things.rows, a, id.value) && ThingsApart(db.things.rows, id.value, b);
      }
    }
  }

  lemma PutKeepsSeparation(db: Db, row: ThingRow, id: Option<Id>)
    requires Separated(db) && (id.Some? ==> id.value in db.things.rows) && SettingsFree(db, row.qaqcId, id)
    requires LinksFree(db.things.rows, Links(id, row.mqttId, row.sftpId, row.apiId, row.storeId, None))
    ensures Separated(db.(things := Upsert(db.things, row, id).value.0))
  {
    var things := Upsert(db.things, row, id).value.0;
    forall l ensures Unshared(things.rows, l) {
      assert Unshared(db.things.rows, l);
      assert LinkOf(row, l).Some? ==> FreeFor(db.things.rows, l, LinkOf(row, l).value, id);
    }
  }

  /** Storing a thing's row keeps the tables well formed, if its links are free for it. */
  lemma ThingPut(db: Db, row: ThingRow, id: Option<Id>)
    requires WellFormed(db) && ThingResolves(db, row) && Resolves(id, db.things) && SettingsFree(db, row.qaqcId, id)
    requires ThingId(db.things.rows, row.uuid) == id
    requires LinksFree(db.things.rows, Links(id, row.mqttId, row.sftpId, row.apiId, row.storeId, None))
    ensures WellFormed(db.(things := Upsert(db.things, row, id).value.0))
  {
    PutKeepsUuids(db, row, id);
    PutKeepsSeparation(db, row, id);
    var things := Upsert(db.things, row, id).value.0;
    forall k | k in things.rows ensures ThingResolves(db.(things := things), things.rows[k]) {
      assert k in db.things.rows ==> ThingResolves(db, db.things.rows[k]);
    }
  }

  /** Tables that change only in rows free for one thing leave the rows of all others alone. */
  lemma FreeRowsKeepOthers(before: Db, after: Db, uuid: string, links: Links, k: Id)
    requires WellFormed(before) && k in before.things.rows && before.things.rows[k].uuid != uuid
    requires links.thing == ThingId(before.things.rows, uuid) && LinksFree(before.things.rows, links)
    requires OnlyLinks(before, after, links) && after.qaqcs == before.qaqcs && after.tests == before.tests
    requires k in after.things.rows && after.things.rows[k] == before.things.rows[k]
    requires ParserOwn(before, after, LinksOf(before, links.thing).parser, links.parser)
    ensures ThingKept(before, after, uuid, k)
  {
    assert ThingResolves(before, before.things.rows[k]);
    assert links.mqtt.Some? ==> LinkOf(before.things.rows[k], ToMqtt) != links.mqtt;
    assert links.sftp.Some? ==> LinkOf(before.things.rows[k], ToSftp) != links.sftp;
    assert links.api.Some? ==> LinkOf(before.things.rows[k], ToApi) != links.api;
    assert links.store.Some? ==> LinkOf(before.things.rows[k], ToStore) != links.store;
  }

  /** All rows a thing points to have been stored. */
  ghost predicate LinksStep(db0: Db, db: Db, msg: Message, ids: Links, links: Links, lower: string -> string) {
    && links.thing == ids.thing
    && OnlyLinks(db0, db, links) && ParserOwn(db0, db, ids.parser, links.parser)
    && LinksStored(db, msg, links, lower)
    && ParserKept(db0, db, msg, ids, links.store, links.parser, lower)
    && (db == db0 && links.(parser := ids.parser) == ids <==>
        AccessStored(db0, msg, ids, lower) && FilesSettled(db0, msg, ids, lower))
  }

  lemma LinksTogether(db0: Db, db1: Db, db: Db, msg: Message, ids: Links, access: Links, links: Links,
                      lower: string -> string)
    requires AccessStep(db0, db1, msg, ids, access, lower) && OnlyAccessTables(db0, db1)
    requires FilesStep(db1, db, msg, ids, links.store, links.parser, lower)
    requires db == db1.(parsers := db.parsers, stores := db.stores)
    requires links == access.(thing := ids.thing, store := links.store, parser := links.parser)
    ensures LinksStep(db0, db, msg, ids, links, lower)
  {
  }

  /** All rows a thing points to. */
  method StoreLinks(lower: string -> string, db0: Db, msg: Message, ids: Links)
      returns (db: Db, r: Result<Links, DbError>)
    requires WellFormed(db0) && ids == LinksOf(db0, ids.thing) && Resolves(ids.thing, db0.things)
    ensures WellFormed(db) && KeepsBase(db0, db)
    ensures r.Err? <==> (msg.api.Some? && msg.api.value.typ == "") || ParsersRefused(db0, msg, ids, lower)
    ensures r.Ok? ==> LinksStep(db0, db, msg, ids, r.value, lower) && LinksFree(db0.things.rows, r.value)
  {
    var db1, access := StoreAccess(lower, db0, msg, ids);
    if access.Err? { return db1, Err(access.error); }
    var files;
    db, files := StoreFiles(lower, db1, msg, ids);
    if files.Err? { return db, Err(files.error); }
    var links := AccessLinks(ids.thing, access.value).(store := files.value.0, parser := files.value.1);
    LinksTogether(db0, db1, db, msg, ids, AccessLinks(ids.thing, access.value), links, lower);
    DrawnAreFree(db0, ids, links);
    r := Ok(links);
  }

  method FindThing(db: Db, uuid: string) returns (id: Option<Id>)
    requires OneRowEach(db)
    ensures id == ThingId(db.things.rows, uuid)
  {
    id := None;
    if k :| k in db.things.rows && db.things.rows[k].uuid == uuid {
      OnlyThing(db, k);
      id := Some(k);
    }
  }

  lemma LinkedParser(before: Db, db: Db, msg: Message, ids: Links, links: Links)
    requires WellFormed(before) && WellFormed(db) && ids == LinksOf(before, ThingId(before.things.rows, msg.uuid))
    requires Resolves(links.store, db.stores) && (links.store.Some? <==> msg.storage.Some?)
    requires msg.parsers.None? <==> links.parser.None?
    requires links.parser.Some? ==> DefaultParser(msg).Some? && links.parser.value in db.parsers.rows
                                    && db.parsers.rows[links.parser.value].uuid == DefaultUuid(msg)
    requires links.store.Some? ==>
               db.stores.rows[links.store.value].parserId == if links.parser.None? then ids.parser else links.parser
    requires OnlyAt(before.parsers, db.parsers, links.parser)
    ensures ParserView(db, links.store) == WantedParser(before, msg)
  {
    LinksResolve(before, ids);
  }

  /** The thing row that a message asks for. */
  function RowOf(msg: Message, links: Links, ingestTypeId: Id, projectId: Id, qaqcId: Option<Id>): ThingRow {
    ThingRow(msg.uuid, msg.name, projectId, ingestTypeId,
             links.store, links.mqtt, links.sftp, links.api, msg.description, qaqcId)
  }

  lemma PutIsStored(db: Db, row: ThingRow, things: Table<ThingRow>, id: Id, msg: Message, links: Links,
                    qaqcId: Option<Id>, projectId: Id, lower: string -> string)
    requires KeysResolve(db) && LinksStored(db, msg, links, lower)
    requires things.rows == db.things.rows[id := row] && KeysResolve(db.(things := things))
    requires row == RowOf(msg, links, row.ingestTypeId, projectId, qaqcId)
    requires row.ingestTypeId in db.ingestTypes.rows && db.ingestTypes.rows[row.ingestTypeId] == lower(msg.ingestType)
    requires (msg.database.schema, msg.uuid) in db.schemas
    ensures ThingStored(db.(things := things), Some(id), msg, qaqcId, projectId, lower)
  {
  }

  lemma OthersKept(before: Db, after: Db, msg: Message, links: Links, id: Id)
    requires WellFormed(before)
    requires links.thing == ThingId(before.things.rows, msg.uuid) && LinksFree(before.things.rows, links)
    requires OnlyLinks(before, after, links) && after.qaqcs == before.qaqcs && after.tests == before.tests
    requires ParserOwn(before, after, LinksOf(before, links.thing).parser, links.parser)
    requires id in after.things.rows && after.things.rows == before.things.rows[id := after.things.rows[id]]
    requires if links.thing.None? then id !in before.things.rows else links.thing == Some(id)
    ensures OtherThingsKept(before, after, msg.uuid)
  {
    forall k | k in before.things.rows && before.things.rows[k].uuid != msg.uuid
      ensures ThingKept(before, after, msg.uuid, k)
    {
      FreeRowsKeepOthers(before, after, msg.uuid, links, k);
    }
  }

  /** The one case in which a message is not fully stored at once: a thing without a parser takes over
      an existing parser row of the derived uuid, and that row says something else. */
  ghost predicate AdoptsParser(db: Db, msg: Message, lower: string -> string) {
    var ids := LinksOf(db, ThingId(db.things.rows, msg.uuid));
    && DefaultParser(msg).Some? && msg.storage.Some? && ids.parser.None?
    && HasParser(db.parsers.rows, DefaultUuid(msg)).Some?
    && !ParserSays(db, HasParser(db.parsers.rows, DefaultUuid(msg)).value,
                   lower(DefaultParser(msg).value.typ), DefaultParser(msg).value)
  }

  /** The links of a thing once its row is put. */
  ghost function LinksAfter(db: Db, id: Id, links: Links): Links {
    Links(Some(id), links.mqtt, links.sftp, links.api, links.store,
          if links.store.Some? && links.store.value in db.stores.rows
          then db.stores.rows[links.store.value].parserId else None)
  }

  lemma FilesSettledAfter(before: Db, db: Db, msg: Message, ids: Links, links: Links, id: Id, lower: string -> string)
    requires WellFormed(before) && WellFormed(db)
    requires db.parserTypes == before.parserTypes && db.parserKey == before.parserKey
    requires ids == LinksOf(before, ThingId(before.things.rows, msg.uuid))
    requires ParserKept(before, db, msg, ids, links.store, links.parser, lower)
    requires ParserOwn(before, db, ids.parser, links.parser)
    requires Resolves(links.store, db.stores) && StoreView(db, links.store) == msg.storage
    requires !ParsersRefused(before, msg, ids, lower)
    ensures FilesSettled(db, msg, LinksAfter(db, id, links), lower) <==> !AdoptsParser(before, msg, lower)
    ensures ParsersRefused(db, msg, LinksAfter(db, id, links), lower) <==> LosesParser(db, msg)
  {
    if links.parser.Some? && db.parserKey { OnlyParser(db, links.parser.value); }
  }

  /** A message with a parser but no storage leaves the thing without a link to its parser, so that the next
      one asks for a new row, which needs the unique key. */
  ghost predicate LosesParser(db: Db, msg: Message) {
    !db.parserKey && msg.parsers.Some? && msg.storage.None?
  }

  lemma AfterPut(before: Db, db: Db, things: Table<ThingRow>, msg: Message, ids: Links, links: Links, id: Id,
                 row: ThingRow, lower: string -> string)
    requires WellFormed(before) && WellFormed(db)
    requires db.parserTypes == before.parserTypes && db.parserKey == before.parserKey
    requires ids == LinksOf(before, ThingId(before.things.rows, msg.uuid))
    requires ParserKept(before, db, msg, ids, links.store, links.parser, lower)
    requires ParserOwn(before, db, ids.parser, links.parser)
    requires LinksStored(db, msg, links, lower) && !ParsersRefused(before, msg, ids, lower)
    requires row == RowOf(msg, links, row.ingestTypeId, row.projectId, row.qaqcId)
    requires id in things.rows && things.rows[id] == row
    requires OnlyAt(before.parsers, db.parsers, links.parser)
    ensures ParserView(db.(things := things), row.storeId) == WantedParser(before, msg)
    ensures var after := db.(things := things);
            && (FilesSettled(after, msg, LinksOf(after, Some(id)), lower) <==> !AdoptsParser(before, msg, lower))
            && (ParsersRefused(after, msg, LinksOf(after, Some(id)), lower) <==> LosesParser(after, msg))
            && ParserLinked(before, after, msg, ids, LinksOf(after, Some(id)).parser, lower)
  {
    FilesSettledAfter(before, db, msg, ids, links, id, lower);
    LinkedParser(before, db, msg, ids, links);
    ThingsDoNotMatter(db, things, msg, LinksAfter(db, id, links), row.storeId, lower);
    LinksOfRow(db, things, id, links);
    assert ParserPut(before, db.(things := things), msg, ids, links.parser, lower);
  }

  lemma ThingsDoNotMatter(db: Db, things: Table<ThingRow>, msg: Message, links: Links, storeId: Option<Id>,
                          lower: string -> string)
    ensures var after := db.(things := things);
            && ParserView(after, storeId) == ParserView(db, storeId)
            && (FilesSettled(after, msg, links, lower) <==> FilesSettled(db, msg, links, lower))
            && (ParsersRefused(after, msg, links, lower) <==> ParsersRefused(db, msg, links, lower))
            && (LosesParser(after, msg) <==> LosesParser(db, msg))
  {
  }

  lemma LinksOfRow(db: Db, things: Table<ThingRow>, id: Id, links: Links)
    requires id in things.rows
    requires var t := things.rows[id];
             t.mqttId == links.mqtt && t.sftpId == links.sftp && t.apiId == links.api && t.storeId == links.store
    ensures LinksOf(db.(things := things), Some(id)) == LinksAfter(db, id, links)
  {
  }

  /** The thing's row has been stored under `id`. */
  ghost predicate PutStep(db0: Db, db1: Db, db: Db, msg: Message, ids: Links, row: ThingRow, id: Id,
                          lower: string -> string) {
    && db == db1.(things := db.things)
    && ids.thing in {None, Some(id)} && ThingStored(db, Some(id), msg, row.qaqcId, row.projectId, lower)
    && db.things.rows == db1.things.rows[id := row]
    && (ids.thing.None? ==> id !in db1.things.rows)
    && ParserView(db, row.storeId) == WantedParser(db0, msg)
    && (db == db1 <==> ids.thing.Some? && ids.thing.value in db1.things.rows && db1.things.rows[ids.thing.value] == row)
    && (FilesSettled(db, msg, LinksOf(db, Some(id)), lower) <==> !AdoptsParser(db0, msg, lower))
    && (ParsersRefused(db, msg, LinksOf(db, Some(id)), lower) <==> LosesParser(db, msg))
    && ParserLinked(db0, db, msg, ids, LinksOf(db, Some(id)).parser, lower)
  }

  /** The last step of a message: the thing's own row. */
  method PutThing(lower: string -> string, db0: Db, db1: Db, msg: Message, ids: Links, links: Links, row: ThingRow)
      returns (db: Db, id: Id)
    requires WellFormed(db0) && WellFormed(db1)
    requires KeepsBase(db0, db1) && ids == LinksOf(db0, ids.thing)
    requires ids.thing == links.thing == ThingId(db0.things.rows, msg.uuid)
    requires LinksFree(db0.things.rows, links) && OnlyAt(db0.parsers, db1.parsers, links.parser)
    requires ParserOwn(db0, db1, ids.parser, links.parser)
    requires LinksStored(db1, msg, links, lower)
    requires ParserKept(db0, db1, msg, ids, links.store, links.parser, lower)
    requires !ParsersRefused(db0, msg, ids, lower)
    requires row == RowOf(msg, links, row.ingestTypeId, row.projectId, row.qaqcId)
    requires row.projectId in db1.projects.rows && SettingsFree(db1, row.qaqcId, ids.thing)
    requires row.ingestTypeId in db1.ingestTypes.rows && db1.ingestTypes.rows[row.ingestTypeId] == lower(msg.ingestType)
    requires (msg.database.schema, msg.uuid) in db1.schemas
    ensures WellFormed(db) && PutStep(db0, db1, db, msg, ids, row, id, lower)
  {
    ThingPut(db1, row, links.thing);
    var stored := Upsert(db1.things, row, links.thing);
    PutIsStored(db1, row, stored.value.0, stored.value.1, msg, links, row.qaqcId, row.projectId, lower);
    db, id := db1.(things := stored.value.0), stored.value.1;
    AfterPut(db0, db1, db.things, msg, ids, links, id, row, lower);
  }

  /** A further schema for a known thing is a further row: the mapping never forgets the old one. */
  method UpsertSchemaMapping(db0: Db, uuid: string, schema: string) returns (db: Db)
    ensures db == db0.(schemas := db0.schemas + {(schema, uuid)})
  {
    db := db0;
    if pair :| pair in db.schemas && pair.1 == uuid {
      if pair.0 == schema { return; }
    }
    db := db.(schemas := db.schemas + {(schema, uuid)});
  }

  /** Storing the message would change nothing. */
  ghost predicate ThingSettled(db: Db, msg: Message, qaqcId: Option<Id>, projectId: Id, lower: string -> string) {
    var id := ThingId(db.things.rows, msg.uuid);
    ThingStored(db, id, msg, qaqcId, projectId, lower) && FilesSettled(db, msg, LinksOf(db, id), lower)
  }

  /** Projects, databases, mapping and quality-control settings are the same. */
  ghost predicate SameBase(before: Db, after: Db) {
    && after.projects == before.projects && after.databases == before.databases && after.schemas == before.schemas
    && after.qaqcs == before.qaqcs && after.tests == before.tests && after.parserKey == before.parserKey
  }

  /** Names of types stay what they are. */
  ghost predicate TypesKept(before: Db, after: Db) {
    && after.ingestTypes == before.ingestTypes && after.parserTypes == before.parserTypes
    && Grows(before.deviceTypes, after.deviceTypes) && Grows(before.apiTypes, after.apiTypes)
  }

  /** The thing of the message has been stored under `id`, and what comes of delivering it once more. */
  ghost predicate ThingStep(db0: Db, db: Db, msg: Message, qaqcId: Option<Id>, projectId: Id, id: Id,
                            lower: string -> string) {
    && SameBase(db0, db) && TypesKept(db0, db)
    && ThingId(db0.things.rows, msg.uuid) in {None, Some(id)}
    && ThingStored(db, Some(id), msg, qaqcId, projectId, lower)
    && ParserView(db, db.things.rows[id].storeId) == WantedParser(db0, msg)
    && OtherThingsKept(db0, db, msg.uuid)
    && (db == db0 <==> ThingSettled(db0, msg, qaqcId, projectId, lower))
    && (ThingSettled(db, msg, qaqcId, projectId, lower) <==> !AdoptsParser(db0, msg, lower))
    && (ThingRefused(db, msg, lower) <==> LosesParser(db, msg))
    && ParserLinked(db0, db, msg, LinksOf(db0, ThingId(db0.things.rows, msg.uuid)), LinksOf(db, Some(id)).parser, lower)
  }

  /** `store_thing_config` behind the schema mapping. */
  method StoreThing(lower: string -> string, db0: Db, msg: Message, qaqcId: Option<Id>, projectId: Id)
      returns (db: Db, r: Result<Id, DbError>)
    requires WellFormed(db0) && projectId in db0.projects.rows && (msg.database.schema, msg.uuid) in db0.schemas
    requires SettingsFree(db0, qaqcId, ThingId(db0.things.rows, msg.uuid))
    ensures r.Err? <==> ThingRefused(db0, msg, lower)
    ensures r.Err? <==> IsRefused(db0, msg, lower)
    ensures r.Ok? ==> WellFormed(db) && ThingStep(db0, db, msg, qaqcId, projectId, r.value, lower)
    ensures r.Ok? ==> ThingSays(db0, db, msg, lower)
  {
    RefusalIs(db0, msg, lower);
    var found := FindThing(db0, msg.uuid);
    var ids := LinksOf(db0, found);
    var ingestTypeId := FindName(db0.ingestTypes, lower(msg.ingestType));
    if ingestTypeId.None? { return db0, Err(UnknownIngestType); }

    var db1, links := StoreLinks(lower, db0, msg, ids);
    if links.Err? { return db1, Err(links.error); }

    var row := RowOf(msg, links.value, ingestTypeId.value, projectId, qaqcId);
    OnlyName(db0.ingestTypes, ingestTypeId.value);
    var id;
    db, id := PutThing(lower, db0, db1, msg, ids, links.value, row);
    ThingTogether(db0, db1, db, msg, ids, links.value, row, id, lower);
    StoredSays(db0, db, msg, qaqcId, projectId, id, lower);
    r := Ok(id);
  }

  lemma ThingTogether(db0: Db, db1: Db, db: Db, msg: Message, ids: Links, links: Links, row: ThingRow, id: Id,
                      lower: string -> string)
    requires WellFormed(db0) && WellFormed(db) && (msg.database.schema, msg.uuid) in db0.schemas
    requires ids == LinksOf(db0, ThingId(db0.things.rows, msg.uuid))
    requires !ThingRefused(db0, msg, lower) && IngestIs(db0, row.ingestTypeId, lower(msg.ingestType))
    requires KeepsBase(db0, db1) && LinksStep(db0, db1, msg, ids, links, lower) && LinksFree(db0.things.rows, links)
    requires row == RowOf(msg, links, row.ingestTypeId, row.projectId, row.qaqcId)
    requires ids.thing == ThingId(db0.things.rows, msg.uuid)
    requires PutStep(db0, db1, db, msg, ids, row, id, lower)
    ensures ThingStep(db0, db, msg, row.qaqcId, row.projectId, id, lower)
  {
    OnlyThing(db, id);
    OthersKept(db0, db, msg, links, id);
    RefusedTogether(db0, db1, db, msg, ids, links, row, id, lower);
    SettledTogether(db0, db1, db, msg, ids, links, row, id, lower);
  }

  lemma RefusedTogether(db0: Db, db1: Db, db: Db, msg: Message, ids: Links, links: Links, row: ThingRow, id: Id,
                        lower: string -> string)
    requires WellFormed(db) && !ThingRefused(db0, msg, lower) && ThingId(db.things.rows, msg.uuid) == Some(id)
    requires KeepsBase(db0, db1) && LinksStep(db0, db1, msg, ids, links, lower)
    requires PutStep(db0, db1, db, msg, ids, row, id, lower)
    ensures SameBase(db0, db) && TypesKept(db0, db)
    ensures ThingRefused(db, msg, lower) <==> LosesParser(db, msg)
  {
  }

  lemma SettledTogether(db0: Db, db1: Db, db: Db, msg: Message, ids: Links, links: Links, row: ThingRow, id: Id,
                        lower: string -> string)
    requires ids == LinksOf(db0, ThingId(db0.things.rows, msg.uuid)) && ids.thing == ThingId(db0.things.rows, msg.uuid)
    requires IngestIs(db0, row.ingestTypeId, lower(msg.ingestType)) && (msg.database.schema, msg.uuid) in db0.schemas
    requires KeepsBase(db0, db1) && LinksStep(db0, db1, msg, ids, links, lower)
    requires row == RowOf(msg, links, row.ingestTypeId, row.projectId, row.qaqcId)
    requires PutStep(db0, db1, db, msg, ids, row, id, lower)
    ensures db == db0 <==> ThingSettled(db0, msg, row.qaqcId, row.projectId, lower)
  {
  }

  // ---------------------------------------------------------------- what the tables say, row by row

  /** The rows of the sections are there as sent, under the names of their types, or there is no link. */
  ghost predicate MqttSays(db: Db, id: Option<Id>, part: Option<MqttPart>, lower: string -> string) {
    match part
    case None => id == None
    case Some(m) =>
      && id.Some? && id.value in db.mqtts.rows && db.mqtts.rows[id.value].login == m.login
      && var typeId := db.mqtts.rows[id.value].deviceTypeId;
         if m.deviceType.None? || m.deviceType.value == "" then typeId == None
         else
           && typeId.Some? && typeId.value in db.deviceTypes.rows
           && db.deviceTypes.rows[typeId.value] == lower(m.deviceType.value)
  }

  ghost predicate SftpSays(db: Db, id: Option<Id>, part: Option<Sftp>) {
    match part
    case None => id == None
    case Some(f) => id.Some? && id.value in db.sftps.rows && db.sftps.rows[id.value] == f
  }

  ghost predicate ApiSays(db: Db, id: Option<Id>, part: Option<ApiPart>, lower: string -> string) {
    match part
    case None => id == None
    case Some(a) =>
      && id.Some? && id.value in db.apis.rows && db.apis.rows[id.value].plan == a.plan
      && db.apis.rows[id.value].typeId in db.apiTypes.rows
      && db.apiTypes.rows[db.apis.rows[id.value].typeId] == lower(a.typ)
  }

  ghost predicate BucketSays(db: Db, id: Option<Id>, part: Option<Bucket>) {
    match part
    case None => id == None
    case Some(b) => id.Some? && id.value in db.stores.rows && db.stores.rows[id.value].bucket == b
  }

  /** The parser of a thing with storage is the one that the index sent names, counted from the end if it is
      negative. What an existing row of that uuid says is left as it is, if the thing had no parser. A message
      without parsers keeps the one the thing had. */
  ghost predicate ParserIsSaid(before: Db, db: Db, msg: Message, storeId: Option<Id>, lower: string -> string) {
    if msg.parsers.None? then
      msg.storage.Some? ==>
        && storeId.Some? && storeId.value in db.stores.rows
        && forall p: Id :: IsParserOf(before, msg.uuid, p) <==> db.stores.rows[storeId.value].parserId == Some(p)
    else
      var parsers, index := msg.parsers.value.parsers, msg.parsers.value.default;
      var k := if index < 0 then index + |parsers| else index;
      && 0 <= k < |parsers|
      && var uuid := ParserUuid(parsers[k].name, msg.project.uuid);
         msg.storage.Some? ==>
           && storeId.Some? && storeId.value in db.stores.rows
           && var parser := db.stores.rows[storeId.value].parserId;
              && parser.Some? && parser.value in db.parsers.rows && db.parsers.rows[parser.value].uuid == uuid
              && ((exists p :: IsParserOf(before, msg.uuid, p))
                  || (forall p :: p in before.parsers.rows ==> before.parsers.rows[p].uuid != uuid) ==>
                    && db.parsers.rows[parser.value].name == parsers[k].name
                    && db.parsers.rows[parser.value].params == parsers[k].settings
                    && db.parsers.rows[parser.value].typeId in db.parserTypes.rows
                    && db.parserTypes.rows[db.parsers.rows[parser.value].typeId] == lower(parsers[k].typ))
  }

  /** The store of the thing points to parser `p`. */
  ghost predicate IsParserOf(db: Db, uuid: string, p: Id) {
    exists k :: k in db.things.rows && db.things.rows[k].uuid == uuid && PointsTo(db, db.things.rows[k], p)
  }

  ghost predicate PointsTo(db: Db, t: ThingRow, p: Id) {
    t.storeId.Some? && t.storeId.value in db.stores.rows && db.stores.rows[t.storeId.value].parserId == Some(p)
  }

  /** The thing of the message and the rows it points to say what the message says. */
  ghost predicate ThingSays(before: Db, db: Db, msg: Message, lower: string -> string) {
    exists id :: id in db.things.rows && ThingRowSays(before, db, db.things.rows[id], msg, lower)
  }

  ghost predicate ThingRowSays(before: Db, db: Db, t: ThingRow, msg: Message, lower: string -> string) {
    && t.uuid == msg.uuid && t.name == msg.name && t.description == msg.description
    && t.ingestTypeId in db.ingestTypes.rows && db.ingestTypes.rows[t.ingestTypeId] == lower(msg.ingestType)
    && MqttSays(db, t.mqttId, msg.mqtt, lower) && SftpSays(db, t.sftpId, msg.sftp)
    && ApiSays(db, t.apiId, msg.api, lower) && BucketSays(db, t.storeId, msg.storage)
    && ParserIsSaid(before, db, msg, t.storeId, lower)
  }

  /** Settings that come with a message are the thing's, with all their tests; otherwise it has none. */
  ghost predicate SettingsSay(db: Db, id: Option<Id>, part: Option<QaqcPart>) {
    match part
    case None => id == None
    case Some(q) =>
      && id.Some? && id.value in db.qaqcs.rows
      && db.qaqcs.rows[id.value] == QaqcRow(q.name, None, q.window, q.default)
      && id.value in db.tests && db.tests[id.value] == q.tests
  }

  /** Everything an accepted message leaves: thing, project, database, settings and schema mapping. */
  ghost predicate TablesSay(before: Db, db: Db, msg: Message, lower: string -> string) {
    db.schemas == before.schemas + {(msg.database.schema, msg.uuid)} &&
    exists id ::
      && id in db.things.rows && ThingRowSays(before, db, db.things.rows[id], msg, lower)
      && SettingsSay(db, db.things.rows[id].qaqcId, msg.qaqc)
      && db.things.rows[id].projectId in db.projects.rows
      && var p := db.projects.rows[db.things.rows[id].projectId];
         && p.name == msg.project.name && p.uuid == msg.project.uuid
         && p.databaseId in db.databases.rows && db.databases.rows[p.databaseId] == msg.database
  }

  /** A message is refused for an unknown ingest type, an API without type, an index that names no parser, a parser
      of an unknown type, or a parser row that the table does not take. */
  ghost predicate IsRefused(db: Db, msg: Message, lower: string -> string) {
    || (forall k :: k in db.ingestTypes.rows ==> db.ingestTypes.rows[k] != lower(msg.ingestType))
    || (msg.api.Some? && msg.api.value.typ == "")
    || (msg.parsers.Some? &&
        var parsers, index := msg.parsers.value.parsers, msg.parsers.value.default;
        var k := if index < 0 then index + |parsers| else index;
        || !(0 <= k < |parsers|)
        || (forall p :: p in db.parserTypes.rows ==> db.parserTypes.rows[p] != lower(parsers[k].typ))
        || (!db.parserKey && !exists p :: IsParserOf(db, msg.uuid, p))
        || (db.parserKey && exists p, q :: IsParserOf(db, msg.uuid, p) && q in db.parsers.rows && q != p &&
                                           db.parsers.rows[q].uuid == ParserUuid(parsers[k].name, msg.project.uuid)))
  }

  lemma LinkedIs(db: Db, uuid: string, p: Id)
    requires OneRowEach(db)
    ensures IsParserOf(db, uuid, p) <==> LinksOf(db, ThingId(db.things.rows, uuid)).parser == Some(p)
  {
    if IsParserOf(db, uuid, p) {
      var k :| k in db.things.rows && db.things.rows[k].uuid == uuid && PointsTo(db, db.things.rows[k], p);
      OnlyThing(db, k);
    }
    if LinksOf(db, ThingId(db.things.rows, uuid)).parser == Some(p) {
      var k := ThingId(db.things.rows, uuid).value;
      assert PointsTo(db, db.things.rows[k], p);
    }
  }

  lemma NoneLinkedIs(db: Db, uuid: string)
    requires OneRowEach(db)
    ensures (exists p :: IsParserOf(db, uuid, p)) <==> LinksOf(db, ThingId(db.things.rows, uuid)).parser.Some?
  {
    var linked := LinksOf(db, ThingId(db.things.rows, uuid)).parser;
    if linked.Some? { LinkedIs(db, uuid, linked.value); }
    if p :| IsParserOf(db, uuid, p) { LinkedIs(db, uuid, p); }
  }

  lemma RefusalIs(db: Db, msg: Message, lower: string -> string)
    requires WellFormed(db)
    ensures ThingRefused(db, msg, lower) <==> IsRefused(db, msg, lower)
  {
    NoneLinkedIs(db, msg.uuid);
    var linked := LinksOf(db, ThingId(db.things.rows, msg.uuid)).parser;
    forall p: Id ensures IsParserOf(db, msg.uuid, p) <==> linked == Some(p) {
      LinkedIs(db, msg.uuid, p);
    }
    ParsersRefusedIs(db, msg, linked, lower);
  }

  lemma ParsersRefusedIs(db: Db, msg: Message, linked: Option<Id>, lower: string -> string)
    requires linked == LinksOf(db, ThingId(db.things.rows, msg.uuid)).parser
    ensures ParsersRefused(db, msg, LinksOf(db, ThingId(db.things.rows, msg.uuid)), lower) <==>
            && msg.parsers.Some?
            && var parsers, index := msg.parsers.value.parsers, msg.parsers.value.default;
               var k := if index < 0 then index + |parsers| else index;
               || !(0 <= k < |parsers|)
               || (forall p :: p in db.parserTypes.rows ==> db.parserTypes.rows[p] != lower(parsers[k].typ))
               || (!db.parserKey && linked.None?)
               || (db.parserKey && linked.Some? &&
                   exists q :: q in db.parsers.rows && q != linked.value &&
                               db.parsers.rows[q].uuid == ParserUuid(parsers[k].name, msg.project.uuid))
  {
  }

  lemma AccessIsSaid(db: Db, t: ThingRow, id: Id, msg: Message, lower: string -> string)
    requires KeysResolve(db) && id in db.things.rows && db.things.rows[id] == t
    requires AccessStored(db, msg, LinksOf(db, Some(id)), lower)
    requires Resolves(t.storeId, db.stores) && StoreView(db, t.storeId) == msg.storage
    ensures MqttSays(db, t.mqttId, msg.mqtt, lower) && SftpSays(db, t.sftpId, msg.sftp)
    ensures ApiSays(db, t.apiId, msg.api, lower) && BucketSays(db, t.storeId, msg.storage)
  {
  }

  lemma ParserSaid(before: Db, db: Db, id: Id, msg: Message, lower: string -> string)
    requires WellFormed(before) && id in db.things.rows
    requires Resolves(db.things.rows[id].storeId, db.stores)
    requires StoreView(db, db.things.rows[id].storeId) == msg.storage
    requires ParserLinked(before, db, msg, LinksOf(before, ThingId(before.things.rows, msg.uuid)),
                          LinksOf(db, Some(id)).parser, lower)
    ensures ParserIsSaid(before, db, msg, db.things.rows[id].storeId, lower)
  {
    var ids := LinksOf(before, ThingId(before.things.rows, msg.uuid));
    NoneLinkedIs(before, msg.uuid);
    forall p: Id ensures IsParserOf(before, msg.uuid, p) <==> ids.parser == Some(p) {
      LinkedIs(before, msg.uuid, p);
    }
    var parser :| ParserPut(before, db, msg, ids, parser, lower) &&
                  (msg.storage.Some? ==>
                    LinksOf(db, Some(id)).parser == if msg.parsers.Some? then parser else ids.parser);
  }

  lemma StoredSays(before: Db, db: Db, msg: Message, qaqcId: Option<Id>, projectId: Id, id: Id, lower: string -> string)
    requires WellFormed(before) && WellFormed(db) && ThingStored(db, Some(id), msg, qaqcId, projectId, lower)
    requires ParserLinked(before, db, msg, LinksOf(before, ThingId(before.things.rows, msg.uuid)),
                          LinksOf(db, Some(id)).parser, lower)
    ensures id in db.things.rows && ThingRowSays(before, db, db.things.rows[id], msg, lower)
  {
    AccessIsSaid(db, db.things.rows[id], id, msg, lower);
    ParserSaid(before, db, id, msg, lower);
  }

  /** The type of the name, and no other. */
  ghost predicate IngestIs(db: Db, id: Id, name: string) {
    && id in db.ingestTypes.rows && db.ingestTypes.rows[id] == name
    && forall k :: k in db.ingestTypes.rows && db.ingestTypes.rows[k] == name ==> k == id
  }

  ghost predicate SingleMapping(schemas: set<(string, string)>, uuid: string) {
    forall p, q :: p in schemas && q in schemas && p.1 == uuid && q.1 == uuid ==> p == q
  }

  /** A thing keeps a single schema mapping exactly if every earlier mapping names the same schema. */
  lemma SchemaMappingStaysSingle(before: set<(string, string)>, uuid: string, schema: string)
    ensures SingleMapping(before + {(schema, uuid)}, uuid) <==> forall p :: p in before && p.1 == uuid ==> p.0 == schema
  {
    var after := before + {(schema, uuid)};
    assert (schema, uuid) in after;
    if SingleMapping(after, uuid) {
      forall p | p in before && p.1 == uuid ensures p.0 == schema {
        assert p in after;
      }
    }
  }

  /** Parsers of different projects never share a uuid, because project uuids have one length. */
  lemma ParserUuidsAreApart(name1: string, project1: string, name2: string, project2: string)
    requires |project1| == |project2|
    ensures ParserUuid(name1, project1) == ParserUuid(name2, project2) <==> name1 == name2 && project1 == project2
  {
    if ParserUuid(name1, project1) == ParserUuid(name2, project2) {
      assert |name1| == |name2|;
      assert ParserUuid(name1, project1)[..|name1|] == name1 && ParserUuid(name2, project2)[..|name1|] == name2;
      assert ParserUuid(name1, project1)[|name1|..] == project1 && ParserUuid(name2, project2)[|name1|..] == project2;
    }
  }

  // ---------------------------------------------------------------- transactions

  /** What loading the thing by its uuid yields. */
  ghost function Load(db: Db, uuid: string): Option<ThingView>
    requires KeysResolve(db)
  {
    var id := ThingId(db.things.rows, uuid);
    if id.None? then None else Some(ViewOf(db, id.value))
  }

  /** What the message says, in the reader's terms. */
  ghost function WantedView(db: Db, msg: Message, lower: string -> string): ThingView {
    ThingView(msg.name, msg.description, lower(msg.ingestType), msg.project, msg.database,
              WantedMqtt(msg.mqtt, lower), msg.sftp, WantedApi(msg.api, lower), msg.storage,
              WantedParser(db, msg), msg.qaqc)
  }

  /** Nothing is to be done: project, mapping and thing say already what the message says. Settings that come
      with a message are never there yet. */
  ghost predicate Settled(db: Db, msg: Message, lower: string -> string) {
    var projectId := ProjectId(db.projects.rows, msg.project.uuid);
    && msg.qaqc.None?
    && ProjectStored(db, projectId, msg.project, msg.database)
    && ThingSettled(db, msg, None, projectId.value, lower)
  }

  /** Tables behind the steps in front of the thing: only projects, databases, the mapping and settings
      differ. */
  ghost predicate OnlyBase(before: Db, mapped: Db) {
    mapped == before.(databases := mapped.databases, projects := mapped.projects, schemas := mapped.schemas,
                      qaqcs := mapped.qaqcs, tests := mapped.tests)
  }

  /** What concerns the thing does not depend on projects, schema mapping and settings. */
  lemma SameForThing(before: Db, mapped: Db, msg: Message, lower: string -> string)
    requires OnlyBase(before, mapped)
    ensures ThingRefused(mapped, msg, lower) <==> ThingRefused(before, msg, lower)
    ensures AdoptsParser(mapped, msg, lower) <==> AdoptsParser(before, msg, lower)
    ensures WantedParser(mapped, msg) == WantedParser(before, msg)
  {
  }

  lemma SameOthers(before: Db, mapped: Db, after: Db, uuid: string)
    requires OnlyBase(before, mapped) && OtherThingsKept(mapped, after, uuid)
    requires AllSettingsKept(before, mapped)
    ensures OtherThingsKept(before, after, uuid)
  {
    forall k | k in before.things.rows && before.things.rows[k].uuid != uuid ensures ThingKept(before, after, uuid, k) {
      assert ThingKept(mapped, after, uuid, k);
      assert SettingsKept(before, mapped, before.things.rows[k].qaqcId);
    }
  }

  lemma NothingChangedForOthers(db: Db, uuid: string)
    ensures OtherThingsKept(db, db, uuid)
  {
  }

  /** Well stored means read back. */
  lemma StoredIsLoaded(before: Db, db: Db, id: Id, projectId: Id, msg: Message, qaqcId: Option<Id>,
                       lower: string -> string)
    requires WellFormed(db)
    requires ProjectStored(db, Some(projectId), msg.project, msg.database)
    requires ThingStored(db, Some(id), msg, qaqcId, projectId, lower)
    requires Resolves(qaqcId, db.qaqcs) && QaqcView(db, qaqcId) == msg.qaqc
    requires ParserView(db, db.things.rows[id].storeId) == WantedParser(before, msg)
    ensures Load(db, msg.uuid) == Some(WantedView(before, msg, lower))
  {
    OnlyThing(db, id);
    assert ThingResolves(db, db.things.rows[id]);
  }

  lemma SettledIs(db: Db, projectId: Id, msg: Message, lower: string -> string)
    requires WellFormed(db) && ProjectStored(db, Some(projectId), msg.project, msg.database)
    ensures Settled(db, msg, lower) <==> msg.qaqc.None? && ThingSettled(db, msg, None, projectId, lower)
  {
    OnlyProject(db, projectId);
  }

  /** The steps in front of the thing change nothing exactly if the project and the mapping say
      already what the message says, and it brings no settings. */
  lemma SettledBefore(before: Db, mapped: Db, projectId: Id, msg: Message, lower: string -> string)
    requires WellFormed(before) && WellFormed(mapped) && OnlyBase(before, mapped)
    requires mapped.schemas == before.schemas + {(msg.database.schema, msg.uuid)}
    requires ProjectStored(mapped, Some(projectId), msg.project, msg.database)
    requires mapped.databases == before.databases && mapped.projects == before.projects <==>
               ProjectStored(before, ProjectId(before.projects.rows, msg.project.uuid), msg.project, msg.database)
    requires mapped.qaqcs == before.qaqcs && mapped.tests == before.tests <==> msg.qaqc.None?
    ensures Settled(before, msg, lower) <==> mapped == before && ThingSettled(mapped, msg, None, projectId, lower)
  {
    SettledIs(mapped, projectId, msg, lower);
    assert Settled(before, msg, lower) ==> mapped.schemas == before.schemas;
  }

  /** An id once given to a thing stays with it, and so does the id of a project. */
  ghost predicate StableIds(before: Db, after: Db) {
    && (forall k :: k in before.things.rows ==>
          k in after.things.rows && after.things.rows[k].uuid == before.things.rows[k].uuid)
    && StableProjects(before, after)
  }

  ghost predicate StableProjects(before: Db, after: Db) {
    forall k :: k in before.projects.rows ==>
      k in after.projects.rows && after.projects.rows[k].uuid == before.projects.rows[k].uuid
  }

  lemma IdsStay(before: Db, after: Db, uuid: string, id: Id)
    requires WellFormed(before) && OtherThingsKept(before, after, uuid) && StableProjects(before, after)
    requires id in after.things.rows && after.things.rows[id].uuid == uuid
    requires ThingId(before.things.rows, uuid) in {None, Some(id)}
    ensures StableIds(before, after)
  {
    forall k | k in before.things.rows
      ensures k in after.things.rows && after.things.rows[k].uuid == before.things.rows[k].uuid
    {
      if before.things.rows[k].uuid == uuid { OnlyThing(before, k); } else { assert ThingKept(before, after, uuid, k); }
    }
  }

  // ---------------------------------------------------------------- settings of old messages

  /** The settings of a message, if there are any, have been stored under an id that no thing uses. */
  ghost predicate SettingsStep(db0: Db, db: Db, part: Option<QaqcPart>, projectId: Id, id: Option<Id>) {
    && SettingsPlaced(db0, db, part, projectId, id)
    && db == db0.(qaqcs := db.qaqcs, tests := db.tests)
    && Resolves(id, db.qaqcs) && QaqcView(db, id) == part && SettingsFree(db, id, None)
    && (db.qaqcs == db0.qaqcs && db.tests == db0.tests <==> part.None?)
    && AllSettingsKept(db0, db)
  }

  predicate SettingsOf(q: QaqcRow, projectId: Id, name: string) {
    q.projectId == Some(projectId) && q.name == name
  }

  ghost predicate HasSettingsOf(db: Db, projectId: Id, name: string) {
    exists k :: k in db.qaqcs.rows && db.qaqcs.rows[k].projectId == Some(projectId) && db.qaqcs.rows[k].name == name
  }

  /** All settings stay but those in row `id`, which is no project's any more. A project loses a row to the
      message exactly if it has one of that name, and then only this one; otherwise the row is new. */
  ghost predicate SettingsPlaced(db0: Db, db: Db, part: Option<QaqcPart>, projectId: Id, id: Option<Id>) {
    && OnlyAt(db0.qaqcs, db.qaqcs, id) && (id.Some? <==> part.Some?)
    && (id.Some? ==> db.qaqcs.rows[id.value].projectId.None? && db.tests == db0.tests[id.value := part.value.tests])
    && (id.None? ==> db.tests == db0.tests)
    && (id.Some? ==>
          if HasSettingsOf(db0, projectId, part.value.name)
          then
            && id.value in db0.qaqcs.rows && db0.qaqcs.rows[id.value].projectId == Some(projectId)
            && db0.qaqcs.rows[id.value].name == part.value.name
          else id.value !in db0.qaqcs.rows)
  }

  /** Settings go to a row of that name of the project, which is then no longer the project's, or else to a
      new one. So nobody else has them, and the next message finds no row to go to. */
  method StoreQaqc(db0: Db, part: Option<QaqcPart>, projectId: Id) returns (db: Db, id: Option<Id>)
    requires WellFormed(db0) && projectId in db0.projects.rows
    ensures WellFormed(db) && SettingsStep(db0, db, part, projectId, id)
  {
    db := db0;
    if part.None? { return db, None; }
    var found: Option<Id> := None;
    if k :| k in db.qaqcs.rows && SettingsOf(db.qaqcs.rows[k], projectId, part.value.name) {
      found := Some(k);
    }
    var row := QaqcRow(part.value.name, None, part.value.window, part.value.default);
    var stored := Upsert(db.qaqcs, row, found);
    SettingsUnused(db0, stored.value.1);
    db := db.(qaqcs := stored.value.0, tests := db.tests[stored.value.1 := part.value.tests]);
    id := Some(stored.value.1);
    SettingsPut(db0, db, stored.value.1);
    assert db.qaqcs != db0.qaqcs;
  }

  /** No thing uses settings that are a project's or not there. */
  lemma SettingsUnused(db: Db, id: Id)
    requires WellFormed(db) && (id in db.qaqcs.rows ==> db.qaqcs.rows[id].projectId.Some?)
    ensures FreeFor(db.things.rows, ToQaqc, id, None)
  {
    forall k | k in db.things.rows ensures LinkOf(db.things.rows[k], ToQaqc) != Some(id) {
      assert Detached(db, db.things.rows[k].qaqcId);
    }
  }

  lemma SettingsPut(db0: Db, db: Db, id: Id)
    requires WellFormed(db0) && FreeFor(db0.things.rows, ToQaqc, id, None)
    requires db == db0.(qaqcs := db.qaqcs, tests := db.tests) && db.qaqcs.Valid()
    requires id in db.qaqcs.rows && db.qaqcs.rows == db0.qaqcs.rows[id := db.qaqcs.rows[id]]
    requires db.qaqcs.rows[id].projectId.None?
    requires id in db.tests && db.tests == db0.tests[id := db.tests[id]]
    ensures WellFormed(db) && SettingsFree(db, Some(id), None)
    ensures AllSettingsKept(db0, db)
  {
    forall k | k in db.things.rows
      ensures ThingResolves(db, db.things.rows[k]) && Detached(db, db.things.rows[k].qaqcId)
      ensures SettingsKept(db0, db, db0.things.rows[k].qaqcId)
    {
      assert ThingResolves(db0, db0.things.rows[k]) && Detached(db0, db0.things.rows[k].qaqcId);
      assert LinkOf(db0.things.rows[k], ToQaqc) != Some(id);
    }
  }

  class Updater {
    const lower: string -> string
    var db: Db

    constructor (lower: string -> string, db: Db)
      ensures this.lower == lower && this.db == db
    {
      this.lower, this.db := lower, db;
    }

    /** `thing_update`: all of a message or nothing of it. */
    method ThingUpdate(msg: Message) returns (r: Result<Id, DbError>)
      requires WellFormed(db)
      modifies this
      ensures WellFormed(db)
      ensures (r.Err? <==> ThingRefused(old(db), msg, lower)) && (r.Err? <==> IsRefused(old(db), msg, lower))
      ensures r.Err? ==> db == old(db)
      ensures r.Ok? ==> Updated(old(db), db, msg, lower)
    {
      ghost var before := db;
      RefusalIs(db, msg, lower);
      var mapped, projectId, qaqcId := Prepare(db, msg);
      var after;
      after, r := StoreThing(lower, mapped, msg, qaqcId, projectId);
      SameForThing(before, mapped, msg, lower);
      if r.Err? { return; }
      AllTogether(before, mapped, after, msg, projectId, qaqcId, r.value, lower);
      db := after;
    }

    /** The steps in front of the thing: project, settings and schema mapping. */
    method Prepare(db0: Db, msg: Message) returns (mapped: Db, projectId: Id, qaqcId: Option<Id>)
      requires WellFormed(db0)
      ensures WellFormed(mapped) && Prepared(db0, mapped, msg, projectId, qaqcId)
    {
      var db1, db2;
      db1, projectId := StoreProject(db0, msg.project, msg.database);
      db2, qaqcId := StoreQaqc(db1, msg.qaqc, projectId);
      mapped := UpsertSchemaMapping(db2, msg.uuid, msg.database.schema);
      PreparedIs(db0, db1, db2, mapped, msg, projectId, qaqcId);
      SchemasDoNotMatter(db2, mapped.schemas);
    }

    /** A message delivered twice has the effect of one delivery, exactly if it brings no settings and takes
        over no parser row that says something else. The second delivery is refused in one case, too. */
    method Redelivered(msg: Message) returns (first: Result<Id, DbError>, second: Result<Id, DbError>, ghost once: Db)
      requires WellFormed(db)
      modifies this
      ensures WellFormed(db)
      ensures first.Err? <==> ThingRefused(old(db), msg, lower)
      ensures first.Err? ==> second.Err? && db == once == old(db)
      ensures first.Ok? ==> (second.Err? <==> LosesParser(old(db), msg))
      ensures first.Ok? && second.Err? ==> db == once
      ensures first.Ok? && second.Ok? ==> (db == once <==> msg.qaqc.None? && !AdoptsParser(old(db), msg, lower))
    {
      first := ThingUpdate(msg);
      once := db;
      second := ThingUpdate(msg);
    }

    /** Any sequence of messages, with the tables in front of each and at the end. A message is accepted exactly
        if it is not refused there, and does what one message does. In the end every thing loads, in what is its
        own, as the last message accepted for it says, and every project with its database as the last one
        accepted for that project says. All others have kept their rows, and every id is where it was. */
    method Process(msgs: seq<Message>) returns (accepted: seq<bool>, ghost states: seq<Db>)
      requires WellFormed(db)
      modifies this
      ensures WellFormed(db) && StableIds(old(db), db) && SameTypes(old(db), db)
      ensures History(states, msgs, accepted, lower) && states[0] == old(db) && states[|msgs|] == db
      ensures ThingsAsLast(db, msgs, accepted, lower) && ProjectsAsLast(db, msgs, accepted)
      ensures OthersUntouched(old(db), db, msgs, accepted)
    {
      accepted, states := [], [db];
      for n := 0 to |msgs|
        invariant Processed(old(db), db, states, msgs[..n], accepted, lower)
      {
        ghost var before, done := db, accepted;
        var ok := Deliver(msgs[n]);
        accepted := accepted + [ok];
        OneMoreProcessed(old(db), before, db, states, msgs, done, ok, lower);
        states := states + [db];
      }
      assert msgs[..|msgs|] == msgs;
      UntouchedByAll(states, msgs, accepted, lower);
    }

    /** One message; a refused one is passed over. */
    method Deliver(msg: Message) returns (ok: bool)
      requires WellFormed(db)
      modifies this
      ensures Delivered(old(db), db, msg, ok, lower) && StableIds(old(db), db)
    {
      NothingChangedForOthers(db, msg.uuid);
      var r := ThingUpdate(msg);
      ok := r.Ok?;
    }
  }

  // ---------------------------------------------------------------- what a sequence of messages leaves

  /** The last message accepted for its thing. */
  ghost predicate LastOfThing(msgs: seq<Message>, accepted: seq<bool>, i: int) {
    && 0 <= i < |msgs| == |accepted| && accepted[i]
    && forall j :: i < j < |msgs| && accepted[j] ==> msgs[j].uuid != msgs[i].uuid
  }

  /** The last message accepted for its project. */
  ghost predicate LastOfProject(msgs: seq<Message>, accepted: seq<bool>, i: int) {
    && 0 <= i < |msgs| == |accepted| && accepted[i]
    && forall j :: i < j < |msgs| && accepted[j] ==> msgs[j].project.uuid != msgs[i].project.uuid
  }

  /** What messages of other things cannot change: all but the project's name, its database, and the parser
      row that things may share. */
  ghost function Own(v: ThingView): ThingView {
    v.(project := v.project.(name := ""), database := Database("", "", "", "", "", None, None), parserUuid := None)
  }

  ghost predicate LoadsOwn(db: Db, msg: Message, lower: string -> string) {
    KeysResolve(db) && Load(db, msg.uuid).Some? && Own(Load(db, msg.uuid).value) == Own(WantedView(db, msg, lower))
  }

  ghost predicate ProjectIsAs(db: Db, msg: Message) {
    ProjectStored(db, ProjectId(db.projects.rows, msg.project.uuid), msg.project, msg.database)
  }

  ghost predicate ThingsAsLast(db: Db, msgs: seq<Message>, accepted: seq<bool>, lower: string -> string) {
    forall i :: LastOfThing(msgs, accepted, i) ==> LoadsOwn(db, msgs[i], lower)
  }

  ghost predicate ProjectsAsLast(db: Db, msgs: seq<Message>, accepted: seq<bool>) {
    forall i :: LastOfProject(msgs, accepted, i) ==> ProjectIsAs(db, msgs[i])
  }

  /** One message of a sequence has been dealt with. */
  ghost predicate Delivered(before: Db, after: Db, msg: Message, ok: bool, lower: string -> string) {
    && WellFormed(before) && WellFormed(after)
    && (ok <==> !ThingRefused(before, msg, lower))
    && (ok <==> !IsRefused(before, msg, lower))
    && (if ok then
          && TablesSay(before, after, msg, lower)
          && Load(after, msg.uuid) == Some(WantedView(before, msg, lower)) && ProjectIsAs(after, msg)
        else after == before)
    && OtherThingsKept(before, after, msg.uuid) && OtherProjectsKept(before, after, msg.project.uuid)
    && SameTypes(before, after)
    && (ok ==>
          ParserLinked(before, after, msg, LinksOf(before, ThingId(before.things.rows, msg.uuid)),
                       LinksOf(after, ThingId(after.things.rows, msg.uuid)).parser, lower))
  }

  /** What decides about the refusal of other things' messages: the names of types and the parser key. */
  ghost predicate SameTypes(before: Db, after: Db) {
    TypesKept(before, after) && after.parserKey == before.parserKey
  }

  ghost predicate History(states: seq<Db>, msgs: seq<Message>, accepted: seq<bool>, lower: string -> string) {
    && |accepted| == |msgs| && |states| == |msgs| + 1
    && forall i :: 0 <= i < |msgs| ==> Delivered(states[i], states[i + 1], msgs[i], accepted[i], lower)
  }

  /** No message of the thing has been accepted. */
  ghost predicate NoneForThing(msgs: seq<Message>, accepted: seq<bool>, uuid: string)
    requires |accepted| == |msgs|
  {
    forall i :: 0 <= i < |msgs| && accepted[i] ==> msgs[i].uuid != uuid
  }

  ghost predicate NoneForProject(msgs: seq<Message>, accepted: seq<bool>, uuid: string)
    requires |accepted| == |msgs|
  {
    forall i :: 0 <= i < |msgs| && accepted[i] ==> msgs[i].project.uuid != uuid
  }

  /** Things and projects of no accepted message keep their rows, and those they point to. */
  ghost predicate OthersUntouched(before: Db, after: Db, msgs: seq<Message>, accepted: seq<bool>)
    requires |accepted| == |msgs|
  {
    && (forall k :: k in before.things.rows && NoneForThing(msgs, accepted, before.things.rows[k].uuid) ==>
          OwnRowsKept(before, after, k))
    && (forall k :: k in before.projects.rows && NoneForProject(msgs, accepted, before.projects.rows[k].uuid) ==>
          ProjectRowsKept(before, after, k))
  }

  /** What holds after the messages dealt with so far. */
  ghost predicate Processed(db0: Db, db: Db, states: seq<Db>, msgs: seq<Message>, accepted: seq<bool>,
                            lower: string -> string)
  {
    && WellFormed(db) && StableIds(db0, db) && SameTypes(db0, db)
    && History(states, msgs, accepted, lower) && states[0] == db0 && states[|msgs|] == db
    && ThingsAsLast(db, msgs, accepted, lower) && ProjectsAsLast(db, msgs, accepted)
  }

  lemma OneMoreProcessed(db0: Db, before: Db, db: Db, states: seq<Db>, msgs: seq<Message>, done: seq<bool>, ok: bool,
                         lower: string -> string)
    requires |done| < |msgs| && Processed(db0, before, states, msgs[..|done|], done, lower)
    requires Delivered(before, db, msgs[|done|], ok, lower) && StableIds(before, db)
    ensures Processed(db0, db, states + [db], msgs[..|done| + 1], done + [ok], lower)
  {
    StableTogether(db0, before, db);
    LastThingsKept(before, db, msgs, done, ok, lower);
    LastProjectsKept(before, db, msgs, done, ok);
    HistoryGrows(states, msgs, done, db, ok, lower);
  }

  lemma HistoryGrows(states: seq<Db>, msgs: seq<Message>, done: seq<bool>, db: Db, ok: bool, lower: string -> string)
    requires |done| < |msgs| && History(states, msgs[..|done|], done, lower)
    requires Delivered(states[|done|], db, msgs[|done|], ok, lower)
    ensures History(states + [db], msgs[..|done| + 1], done + [ok], lower)
  {
    var n, more, now, all := |done|, msgs[..|done| + 1], done + [ok], states + [db];
    forall i | 0 <= i < |more| ensures Delivered(all[i], all[i + 1], more[i], now[i], lower) {
      if i < n { assert Delivered(states[i], states[i + 1], msgs[..n][i], done[i], lower); }
    }
  }

  lemma OwnRowsStayKept(a: Db, b: Db, c: Db, k: Id)
    requires k in a.things.rows && OwnRowsKept(a, b, k) && OwnRowsKept(b, c, k)
    ensures OwnRowsKept(a, c, k)
  {
  }

  lemma {:induction false} UntouchedThing(states: seq<Db>, msgs: seq<Message>, accepted: seq<bool>,
                                          lower: string -> string, n: nat, k: Id)
    requires History(states, msgs, accepted, lower) && n <= |msgs| && k in states[0].things.rows
    requires NoneForThing(msgs, accepted, states[0].things.rows[k].uuid)
    ensures OwnRowsKept(states[0], states[n], k)
  {
    if n > 0 {
      var i := n - 1;
      UntouchedThing(states, msgs, accepted, lower, i, k);
      assert Delivered(states[i], states[i + 1], msgs[i], accepted[i], lower);
      if accepted[i] { assert ThingKept(states[i], states[n], msgs[i].uuid, k); }
      OwnRowsStayKept(states[0], states[i], states[n], k);
    }
  }

  lemma {:induction false} UntouchedProject(states: seq<Db>, msgs: seq<Message>, accepted: seq<bool>,
                                            lower: string -> string, n: nat, k: Id)
    requires History(states, msgs, accepted, lower) && n <= |msgs| && k in states[0].projects.rows
    requires NoneForProject(msgs, accepted, states[0].projects.rows[k].uuid)
    ensures ProjectRowsKept(states[0], states[n], k)
  {
    if n > 0 {
      var i := n - 1;
      UntouchedProject(states, msgs, accepted, lower, i, k);
      assert Delivered(states[i], states[i + 1], msgs[i], accepted[i], lower);
      if accepted[i] { assert ProjectRowsKept(states[i], states[n], k); }
    }
  }

  lemma UntouchedByAll(states: seq<Db>, msgs: seq<Message>, accepted: seq<bool>, lower: string -> string)
    requires History(states, msgs, accepted, lower)
    ensures OthersUntouched(states[0], states[|msgs|], msgs, accepted)
  {
    forall k | k in states[0].things.rows && NoneForThing(msgs, accepted, states[0].things.rows[k].uuid)
      ensures OwnRowsKept(states[0], states[|msgs|], k)
    {
      UntouchedThing(states, msgs, accepted, lower, |msgs|, k);
    }
    forall k | k in states[0].projects.rows && NoneForProject(msgs, accepted, states[0].projects.rows[k].uuid)
      ensures ProjectRowsKept(states[0], states[|msgs|], k)
    {
      UntouchedProject(states, msgs, accepted, lower, |msgs|, k);
    }
  }

  lemma OwnKept(before: Db, after: Db, uuid: string, msg: Message, lower: string -> string)
    requires WellFormed(before) && WellFormed(after) && LoadsOwn(before, msg, lower) && msg.uuid != uuid
    requires OtherThingsKept(before, after, uuid) && TypesKept(before, after) && StableIds(before, after)
    ensures LoadsOwn(after, msg, lower)
  {
    var k := ThingId(before.things.rows, msg.uuid).value;
    assert ThingKept(before, after, uuid, k);
    OnlyThing(after, k);
    OwnViewKept(before, after, uuid, k);
  }

  lemma OwnViewKept(before: Db, after: Db, uuid: string, k: Id)
    requires KeysResolve(before) && KeysResolve(after) && k in before.things.rows
    requires ThingKept(before, after, uuid, k) && TypesKept(before, after) && StableProjects(before, after)
    ensures k in after.things.rows && Own(ViewOf(after, k)) == Own(ViewOf(before, k))
  {
    var t := before.things.rows[k];
    assert ThingResolves(before, t) && ThingResolves(after, t);
    assert MqttView(after, t.mqttId) == MqttView(before, t.mqttId);
    assert ApiView(after, t.apiId) == ApiView(before, t.apiId);
    assert QaqcView(after, t.qaqcId) == QaqcView(before, t.qaqcId);
  }

  lemma ProjectKept(before: Db, after: Db, uuid: string, msg: Message)
    requires WellFormed(after) && ProjectIsAs(before, msg) && msg.project.uuid != uuid
    requires OtherProjectsKept(before, after, uuid)
    ensures ProjectIsAs(after, msg)
  {
    OnlyProject(after, ProjectId(before.projects.rows, msg.project.uuid).value);
  }

  lemma StableTogether(a: Db, b: Db, c: Db)
    requires StableIds(a, b) && StableIds(b, c)
    ensures StableIds(a, c)
  {
  }

  lemma LastThingsKept(before: Db, db: Db, msgs: seq<Message>, done: seq<bool>, ok: bool, lower: string -> string)
    requires |done| < |msgs| && WellFormed(before) && WellFormed(db)
    requires ThingsAsLast(before, msgs[..|done|], done, lower)
    requires OtherThingsKept(before, db, msgs[|done|].uuid) && TypesKept(before, db) && StableIds(before, db)
    requires if ok then LoadsOwn(db, msgs[|done|], lower) else db == before
    ensures ThingsAsLast(db, msgs[..|done| + 1], done + [ok], lower)
  {
    var n, now, more := |done|, done + [ok], msgs[..|done| + 1];
    forall i | LastOfThing(more, now, i) ensures LoadsOwn(db, more[i], lower) {
      if i < n {
        LastBefore(msgs, done, ok, i);
        assert LoadsOwn(before, msgs[..n][i], lower);
        if ok { OwnKept(before, db, msgs[n].uuid, msgs[i], lower); }
      }
    }
  }

  lemma LastProjectsKept(before: Db, db: Db, msgs: seq<Message>, done: seq<bool>, ok: bool)
    requires |done| < |msgs| && WellFormed(db) && ProjectsAsLast(before, msgs[..|done|], done)
    requires OtherProjectsKept(before, db, msgs[|done|].project.uuid)
    requires if ok then ProjectIsAs(db, msgs[|done|]) else db == before
    ensures ProjectsAsLast(db, msgs[..|done| + 1], done + [ok])
  {
    var n, now, more := |done|, done + [ok], msgs[..|done| + 1];
    forall i | LastOfProject(more, now, i) ensures ProjectIsAs(db, more[i]) {
      if i < n {
        LastBefore(msgs, done, ok, i);
        assert ProjectIsAs(before, msgs[..n][i]);
        if ok { ProjectKept(before, db, msgs[n].project.uuid, msgs[i]); }
      }
    }
  }

  lemma LastBefore(msgs: seq<Message>, done: seq<bool>, ok: bool, i: int)
    requires 0 <= i < |done| < |msgs|
    ensures LastOfThing(msgs[..|done| + 1], done + [ok], i) ==>
              LastOfThing(msgs[..|done|], done, i) && (ok ==> msgs[|done|].uuid != msgs[i].uuid)
    ensures LastOfProject(msgs[..|done| + 1], done + [ok], i) ==>
              LastOfProject(msgs[..|done|], done, i) && (ok ==> msgs[|done|].project.uuid != msgs[i].project.uuid)
  {
    var n, before, more := |done|, msgs[..|done|], msgs[..|done| + 1];
    assert forall j :: 0 <= j < n ==> before[j] == msgs[j] == more[j] && (done + [ok])[j] == done[j];
    assert more[n] == msgs[n] && (done + [ok])[n] == ok;
  }

  /** What the steps in front of the thing leave. */
  ghost predicate Prepared(before: Db, mapped: Db, msg: Message, projectId: Id, qaqcId: Option<Id>)
  {
    && OnlyBase(before, mapped)
    && ProjectStored(mapped, Some(projectId), msg.project, msg.database)
    && StableProjects(before, mapped) && OtherProjectsKept(before, mapped, msg.project.uuid)
    && mapped.schemas == before.schemas + {(msg.database.schema, msg.uuid)}
    && (mapped.databases == before.databases && mapped.projects == before.projects <==>
          ProjectStored(before, ProjectId(before.projects.rows, msg.project.uuid), msg.project, msg.database))
    && (mapped.qaqcs == before.qaqcs && mapped.tests == before.tests <==> msg.qaqc.None?)
    && (msg.qaqc.None? <==> qaqcId.None?)
    && Resolves(qaqcId, mapped.qaqcs) && QaqcView(mapped, qaqcId) == msg.qaqc
    && SettingsFree(mapped, qaqcId, None)
    && AllSettingsKept(before, mapped) && SettingsPlaced(before, mapped, msg.qaqc, projectId, qaqcId)
  }

  lemma SchemasDoNotMatter(db: Db, schemas: set<(string, string)>)
    requires WellFormed(db)
    ensures WellFormed(db.(schemas := schemas))
  {
    var after := db.(schemas := schemas);
    forall k | k in db.things.rows
      ensures ThingResolves(after, db.things.rows[k]) && Detached(after, db.things.rows[k].qaqcId)
    {
      assert ThingResolves(db, db.things.rows[k]) && Detached(db, db.things.rows[k].qaqcId);
    }
  }

  lemma PreparedIs(db0: Db, db1: Db, db2: Db, mapped: Db, msg: Message, projectId: Id, qaqcId: Option<Id>)
    requires ProjectStep(db0, db1, msg.project, msg.database, projectId)
    requires SettingsStep(db1, db2, msg.qaqc, projectId, qaqcId)
    requires mapped == db2.(schemas := db2.schemas + {(msg.database.schema, msg.uuid)})
    ensures Prepared(db0, mapped, msg, projectId, qaqcId)
  {
    forall k | k in db0.things.rows ensures SettingsKept(db0, mapped, db0.things.rows[k].qaqcId) {
      assert SettingsKept(db1, db2, db1.things.rows[k].qaqcId);
    }
  }

  /** The tables say what an accepted message says, and it is read back so; the parser table changes in one row at
      most, and so do the settings. */
  ghost predicate Told(before: Db, after: Db, msg: Message, lower: string -> string) {
    && WellFormed(after) && TablesSay(before, after, msg, lower)
    && Load(after, msg.uuid) == Some(WantedView(before, msg, lower)) && ProjectIsAs(after, msg)
    && ParserLinked(before, after, msg, LinksOf(before, ThingId(before.things.rows, msg.uuid)),
                    LinksOf(after, ThingId(after.things.rows, msg.uuid)).parser, lower)
    && SettingsAdded(before, after, msg)
  }

  /** What an accepted message does. Other things and projects keep what they have, ids and types stay; when it has
      no effect, now and the next time, and when it is refused the next time. */
  ghost predicate Updated(before: Db, after: Db, msg: Message, lower: string -> string) {
    && Told(before, after, msg, lower)
    && SameTypes(before, after) && StableIds(before, after)
    && OtherThingsKept(before, after, msg.uuid) && OtherProjectsKept(before, after, msg.project.uuid)
    && (after == before <==> Settled(before, msg, lower))
    && (Settled(after, msg, lower) <==> msg.qaqc.None? && !AdoptsParser(before, msg, lower))
    && (ThingRefused(after, msg, lower) <==> LosesParser(before, msg))
  }

  lemma AllTold(before: Db, mapped: Db, db: Db, msg: Message, projectId: Id, qaqcId: Option<Id>, id: Id,
                lower: string -> string)
    requires WellFormed(before) && WellFormed(mapped) && WellFormed(db)
    requires Prepared(before, mapped, msg, projectId, qaqcId)
    requires ThingStep(mapped, db, msg, qaqcId, projectId, id, lower)
    ensures Told(before, db, msg, lower)
  {
    AllLinked(before, mapped, db, msg, id, lower);
    AllLoaded(before, mapped, db, msg, projectId, qaqcId, id, lower);
    OnlyThing(db, id);
    AllSaid(before, mapped, db, msg, projectId, qaqcId, id, lower);
    AllSettings(before, mapped, db, msg, projectId, qaqcId, id, lower);
  }

  lemma AllTogether(before: Db, mapped: Db, db: Db, msg: Message, projectId: Id, qaqcId: Option<Id>, id: Id,
                    lower: string -> string)
    requires WellFormed(before) && WellFormed(mapped) && WellFormed(db)
    requires Prepared(before, mapped, msg, projectId, qaqcId)
    requires ThingStep(mapped, db, msg, qaqcId, projectId, id, lower)
    ensures Updated(before, db, msg, lower)
  {
    AllTold(before, mapped, db, msg, projectId, qaqcId, id, lower);
    SameForThing(before, mapped, msg, lower);
    AllKept(before, mapped, db, msg, projectId, qaqcId, id);
    AllSettled(before, mapped, db, msg, projectId, qaqcId, lower);
  }

  /** All steps together: what is read back. */
  lemma AllLoaded(before: Db, mapped: Db, db: Db, msg: Message, projectId: Id, qaqcId: Option<Id>, id: Id,
                  lower: string -> string)
    requires WellFormed(db) && Prepared(before, mapped, msg, projectId, qaqcId) && SameBase(mapped, db)
    requires ThingStored(db, Some(id), msg, qaqcId, projectId, lower)
    requires ParserView(db, db.things.rows[id].storeId) == WantedParser(mapped, msg)
    ensures Load(db, msg.uuid) == Some(WantedView(before, msg, lower))
    ensures ProjectStored(db, ProjectId(db.projects.rows, msg.project.uuid), msg.project, msg.database)
  {
    SameForThing(before, mapped, msg, lower);
    StoredIsLoaded(before, db, id, projectId, msg, qaqcId, lower);
    OnlyProject(db, projectId);
  }

  /** All steps together: what the tables say. */
  lemma AllSaid(before: Db, mapped: Db, db: Db, msg: Message, projectId: Id, qaqcId: Option<Id>, id: Id,
                lower: string -> string)
    requires WellFormed(before) && WellFormed(db) && SameBase(mapped, db)
    requires Prepared(before, mapped, msg, projectId, qaqcId)
    requires ThingStored(db, Some(id), msg, qaqcId, projectId, lower)
    requires ParserLinked(before, db, msg, LinksOf(before, ThingId(before.things.rows, msg.uuid)),
                          LinksOf(db, Some(id)).parser, lower)
    ensures TablesSay(before, db, msg, lower)
  {
    StoredSays(before, db, msg, qaqcId, projectId, id, lower);
    SettingsSaid(before, mapped, db, msg, projectId, qaqcId);
  }

  lemma SettingsSaid(before: Db, mapped: Db, db: Db, msg: Message, projectId: Id, qaqcId: Option<Id>)
    requires Prepared(before, mapped, msg, projectId, qaqcId) && SameBase(mapped, db)
    ensures SettingsSay(db, qaqcId, msg.qaqc)
  {
  }

  /** All steps together: settings that come with the message are linked to the thing, in a row that was no
      thing's before, and all that were linked before are still there. */
  lemma AllSettings(before: Db, mapped: Db, db: Db, msg: Message, projectId: Id, qaqcId: Option<Id>, id: Id,
                    lower: string -> string)
    requires WellFormed(db) && Prepared(before, mapped, msg, projectId, qaqcId) && SameBase(mapped, db)
    requires ThingStored(db, Some(id), msg, qaqcId, projectId, lower)
    ensures SettingsAdded(before, db, msg)
  {
    OnlyThing(db, id);
    OnlyProject(db, projectId);
    if msg.qaqc.Some? {
      forall k | k in before.things.rows ensures before.things.rows[k].qaqcId != qaqcId {
        assert FreeFor(mapped.things.rows, ToQaqc, qaqcId.value, None);
        assert LinkOf(mapped.things.rows[k], ToQaqc) == before.things.rows[k].qaqcId;
      }
    }
    forall k | k in before.things.rows ensures SettingsKept(before, db, before.things.rows[k].qaqcId) {
      assert SettingsKept(before, mapped, before.things.rows[k].qaqcId);
    }
  }

  /** All steps together: the parser the thing is linked to. */
  lemma AllLinked(before: Db, mapped: Db, db: Db, msg: Message, id: Id, lower: string -> string)
    requires WellFormed(db) && OnlyBase(before, mapped)
    requires id in db.things.rows && db.things.rows[id].uuid == msg.uuid
    requires ParserLinked(mapped, db, msg, LinksOf(mapped, ThingId(mapped.things.rows, msg.uuid)),
                          LinksOf(db, Some(id)).parser, lower)
    ensures ParserLinked(before, db, msg, LinksOf(before, ThingId(before.things.rows, msg.uuid)),
                         LinksOf(db, ThingId(db.things.rows, msg.uuid)).parser, lower)
  {
    OnlyThing(db, id);
    var ids, now := LinksOf(before, ThingId(before.things.rows, msg.uuid)), LinksOf(db, Some(id)).parser;
    var parser :| ParserPut(mapped, db, msg, ids, parser, lower) &&
                  (msg.storage.Some? ==> now == if msg.parsers.Some? then parser else ids.parser);
    assert ParserPut(before, db, msg, ids, parser, lower);
  }

  /** All steps together: what stays. */
  lemma AllKept(before: Db, mapped: Db, db: Db, msg: Message, projectId: Id, qaqcId: Option<Id>, id: Id)
    requires WellFormed(before) && Prepared(before, mapped, msg, projectId, qaqcId)
    requires SameBase(mapped, db) && OtherThingsKept(mapped, db, msg.uuid)
    requires ThingId(mapped.things.rows, msg.uuid) in {None, Some(id)}
    requires id in db.things.rows && db.things.rows[id].uuid == msg.uuid
    ensures OtherThingsKept(before, db, msg.uuid) && OtherProjectsKept(before, db, msg.project.uuid)
    ensures StableIds(before, db)
  {
    SameOthers(before, mapped, db, msg.uuid);
    IdsStay(before, db, msg.uuid, id);
  }

  /** All steps together: when nothing changes, now and the next time. */
  lemma AllSettled(before: Db, mapped: Db, db: Db, msg: Message, projectId: Id, qaqcId: Option<Id>,
                   lower: string -> string)
    requires WellFormed(before) && WellFormed(mapped) && WellFormed(db)
    requires Prepared(before, mapped, msg, projectId, qaqcId) && SameBase(mapped, db)
    requires db == mapped <==> ThingSettled(mapped, msg, qaqcId, projectId, lower)
    requires ThingSettled(db, msg, qaqcId, projectId, lower) <==> !AdoptsParser(mapped, msg, lower)
    ensures db == before <==> Settled(before, msg, lower)
    ensures Settled(db, msg, lower) <==> msg.qaqc.None? && !AdoptsParser(before, msg, lower)
  {
    SameForThing(before, mapped, msg, lower);
    SettledIs(db, projectId, msg, lower);
    SettledBefore(before, mapped, projectId, msg, lower);
  }
}
