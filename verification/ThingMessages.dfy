/** Thing messages as they arrive: several content versions, sections that may be missing, null or
    without relevant values. Preparing gives them their uniform shape. */
module ThingMessages {
  import opened Wrappers
  import opened ConfigDb

  /** A key of the message: not there, there but null, or given. */
  datatype Section<+T> = Missing | Null | Given(value: T)

  datatype MessageError = UnknownVersion | MissingKey | NotASection

  datatype RawDatabase = RawDatabase(schema: Option<string>, user: string, password: string, roUser: string,
                                     roPassword: string, url: Option<string>, roUrl: Option<string>)
  datatype RawBucket = RawBucket(bucketName: Option<string>, user: string, password: string,
                                 filenamePattern: Option<string>)
  datatype RawParser = RawParser(typ: string, name: Option<string>, settings: string)
  datatype RawParsers = RawParsers(default: Option<int>, parsers: seq<RawParser>)
  datatype RawMqtt = RawMqtt(username: Option<string>, password: Option<string>, passwordHash: string,
                             topic: Option<Option<string>>, description: Option<string>)
  datatype RawSftp = RawSftp(uri: Option<string>, path: string, user: string, password: Option<string>,
                             privateKey: Option<string>, publicKey: string, syncInterval: int, syncEnabled: bool)
  datatype RawApi = RawApi(typ: Option<string>, plan: ApiPlan)

  /** Of these, `None` stands for a key that is missing or null; where the difference matters, it is a section. */
  datatype RawTest = RawTest(check: Option<string>, kwargs: Section<string>, position: Section<int>)
  datatype RawConfig = RawConfig(name: Option<string>, window: Option<string>, default: Section<bool>,
                                 tests: Option<seq<RawTest>>)
  datatype RawQaqc = RawQaqc(default: Option<int>, configs: Option<seq<RawConfig>>)

  /** `credentials` is the MQTT section of version 4, `mqtt` that of the later versions. */
  datatype RawMessage = RawMessage(
    version: int, uuid: string, name: string, description: string, ingestType: string,
    project: ProjectPart, database: RawDatabase,
    storage: Section<RawBucket>, parsers: Section<RawParsers>, deviceType: Section<string>,
    credentials: Section<RawMqtt>, mqtt: Section<RawMqtt>, sftp: Section<RawSftp>, api: Section<RawApi>,
    qaqc: Section<RawQaqc>)

  const NO_KEY := "no-key-in-message-version-4"
  const NO_PASSWORD := "no-password-in-message-version-4"
  const NO_PARSER_NAME := "no-parser-name"

  /** `data.get(key, {}).get(field)`: a null section has no `get`. */
  function Field<T, F>(s: Section<T>, field: T -> Option<F>): Result<Option<F>, MessageError> {
    match s
    case Missing => Ok(None)
    case Null => Err(NotASection)
    case Given(v) => Ok(field(v))
  }

  /** The MQTT section that counts, with the defaults of version 4. */
  function MqttSection(raw: RawMessage): Result<Section<RawMqtt>, MessageError> {
    if raw.version != 4 then Ok(raw.mqtt)
    else if !raw.credentials.Given? then Err(MissingKey)
    else
      var m := raw.credentials.value;
      Ok(Given(m.(password := if m.password.Some? then m.password else Some(NO_PASSWORD),
                  topic := if m.topic.Some? then m.topic else Some(m.description))))
  }

  function PrepareMqtt(raw: RawMessage): Result<Option<MqttPart>, MessageError> {
    var section := MqttSection(raw);
    if section.Err? then Err(section.error) else
    var user := Field(section.value, (m: RawMqtt) => m.username);
    if user.Err? then Err(user.error)
    else if user.value.None? then Ok(None)
    else if raw.deviceType.Missing? then Err(MissingKey)
    else
      var m := section.value.value;
      if m.password.None? || m.topic.None? then Err(MissingKey)
      else Ok(Some(MqttPart(MqttLogin(user.value.value, m.password.value, m.passwordHash, m.topic.value),
                            if raw.deviceType.Given? then Some(raw.deviceType.value) else None)))
  }

  function PrepareStorage(raw: RawMessage): Result<Option<Bucket>, MessageError> {
    var name := Field(raw.storage, (b: RawBucket) => b.bucketName);
    if name.Err? then Err(name.error)
    else if name.value.None? then Ok(None)
    else
      var b := raw.storage.value;
      Ok(Some(Bucket(b.user, b.password, name.value.value, b.filenamePattern)))
  }

  function PrepareSftp(raw: RawMessage): Result<Option<Sftp>, MessageError> {
    var uri := Field(raw.sftp, (s: RawSftp) => s.uri);
    if uri.Err? then Err(uri.error)
    else if uri.value.None? then Ok(None)
    else
      var s := raw.sftp.value;
      var key := if raw.version == 4 then Some(NO_KEY) else s.privateKey;
      if key.None? then Err(MissingKey)
      else Ok(Some(Sftp(uri.value.value, s.path, s.user, s.password, key.value, s.publicKey, s.syncInterval,
                        s.syncEnabled)))
  }

  function PrepareApi(raw: RawMessage): Result<Option<ApiPart>, MessageError> {
    var typ := Field(raw.api, (a: RawApi) => a.typ);
    if typ.Err? then Err(typ.error)
    else if typ.value.None? then Ok(None)
    else Ok(Some(ApiPart(typ.value.value, raw.api.value.plan)))
  }

  function PrepareParsers(raw: RawMessage): Result<Option<ParsersPart>, MessageError> {
    var default := Field(raw.parsers, (p: RawParsers) => p.default);
    if default.Err? then Err(default.error)
    else if default.value.None? then Ok(None)
    else
      var p := raw.parsers.value;
      var chosen := At(p.parsers, default.value.value);
      // only the name of the default parser is ever asked for
      if raw.version != 4 && chosen.Some? && chosen.value.name.None? then Err(MissingKey)
      else Ok(Some(ParsersPart(default.value.value, seq(|p.parsers|, i requires 0 <= i < |p.parsers| =>
             ParserPart(p.parsers[i].typ, if p.parsers[i].name.Some? then p.parsers[i].name.value else NO_PARSER_NAME,
                        p.parsers[i].settings)))))
  }

  function PrepareDatabase(raw: RawMessage): Result<Database, MessageError> {
    var d := raw.database;
    var schema := if d.schema.Some? || raw.version != 4 then d.schema else Some(d.user);
    if schema.None? then Err(MissingKey)
    else Ok(Database(schema.value, d.user, d.password, d.roUser, d.roPassword, d.url, d.roUrl))
  }

  function Digits(n: nat): string {
    (if n < 10 then "" else Digits(n / 10)) + [Digit(n % 10)]
  }

  function Digit(d: nat): (c: char)
    requires d < 10
    ensures c as int - '0' as int == d
  {
    ['0', '1', '2', '3', '4', '5', '6', '7', '8', '9'][d]
  }

  ghost function DecimalOf(s: string): int {
    if s == [] then 0 else 10 * DecimalOf(s[..|s| - 1]) + (s[|s| - 1] as int - '0' as int)
  }

  /** Numbers are written in decimal, without leading zeros. */
  lemma {:induction false} DigitsAreDecimal(n: nat)
    ensures DecimalOf(Digits(n)) == n && Digits(n) != "" && (n > 0 ==> Digits(n)[0] != '0')
  {
    var front, digit := if n < 10 then "" else Digits(n / 10), Digit(n % 10);
    if n >= 10 { DigitsAreDecimal(n / 10); }
    assert Digits(n) == front + [digit] && (front + [digit])[..|front|] == front;
  }

  /** A test of old settings: the check must be given, the other keys be there. */
  function PrepareTest(test: RawTest, n: nat): Result<QaqcTest, MessageError> {
    if !UsableTest(test) then Err(MissingKey)
    else Ok(QaqcTest("Test " + Digits(n + 1), test.check.value,
                     if test.kwargs.Given? then test.kwargs.value else "null",
                     if test.position.Given? then Some(test.position.value) else None))
  }

  function PrepareTests(tests: seq<RawTest>): Result<seq<QaqcTest>, MessageError> {
    if tests == [] then Ok([])
    else
      var n := |tests| - 1;
      var front, last := PrepareTests(tests[..n]), PrepareTest(tests[n], n);
      if front.Err? then front else if last.Err? then Err(last.error) else Ok(front.value + [last.value])
  }

  /** Messages up to version 6 bring the settings of the thing, and cannot do without. */
  function PrepareQaqc(raw: RawMessage): Result<Option<QaqcPart>, MessageError> {
    if raw.version > 6 then Ok(None)
    else if !raw.qaqc.Given? then Err(NotASection)
    else if raw.qaqc.value.default.None? || raw.qaqc.value.configs.None? then Err(MissingKey)
    else
      var config := At(raw.qaqc.value.configs.value, raw.qaqc.value.default.value);
      if config.None? then Err(MissingKey) else PrepareConfig(config.value)
  }

  function PrepareConfig(c: RawConfig): Result<Option<QaqcPart>, MessageError> {
    if c.name.None? || c.window.None? || c.default.Null? || c.tests.None? then Err(MissingKey)
    else
      var tests := PrepareTests(c.tests.value);
      if tests.Err? then Err(tests.error)
      else Ok(Some(QaqcPart(c.name.value, c.window.value, if c.default.Given? then c.default.value else true,
                            tests.value)))
  }

  /** Settings of which every test can be stored, in the order given. */
  ghost predicate UsableConfig(c: RawConfig) {
    && c.name.Some? && c.window.Some? && !c.default.Null? && c.tests.Some?
    && forall i :: 0 <= i < |c.tests.value| ==> UsableTest(c.tests.value[i])
  }

  predicate UsableTest(t: RawTest) {
    t.check.Some? && !t.kwargs.Missing? && !t.position.Missing?
  }

  lemma {:induction false} TestsPrepared(tests: seq<RawTest>)
    ensures PrepareTests(tests).Ok? <==> forall i :: 0 <= i < |tests| ==> UsableTest(tests[i])
    ensures PrepareTests(tests).Ok? ==> |PrepareTests(tests).value| == |tests| && forall i :: 0 <= i < |tests| ==>
              PrepareTest(tests[i], i) == Ok(PrepareTests(tests).value[i])
  {
    if tests != [] {
      var n := |tests| - 1;
      var front := tests[..n];
      TestsPrepared(front);
      assert forall i :: 0 <= i < n ==> front[i] == tests[i];
      assert (forall i :: 0 <= i < |tests| ==> UsableTest(tests[i])) <==>
               (forall i :: 0 <= i < n ==> UsableTest(front[i])) && UsableTest(tests[n]);
    }
  }

  /** An old message is prepared only with settings; they are the ones its index names, with all their tests. */
  lemma SettingsPrepared(raw: RawMessage)
    requires raw.version <= 6
    ensures PrepareQaqc(raw).Ok? <==>
              && raw.qaqc.Given? && raw.qaqc.value.default.Some? && raw.qaqc.value.configs.Some?
              && At(raw.qaqc.value.configs.value, raw.qaqc.value.default.value).Some?
              && UsableConfig(At(raw.qaqc.value.configs.value, raw.qaqc.value.default.value).value)
    ensures PrepareQaqc(raw).Ok? ==>
              var c := At(raw.qaqc.value.configs.value, raw.qaqc.value.default.value).value;
              && PrepareQaqc(raw).value.Some?
              && PrepareQaqc(raw).value.value.name == c.name.value
              && |PrepareQaqc(raw).value.value.tests| == |c.tests.value|
  {
    if raw.qaqc.Given? && raw.qaqc.value.default.Some? && raw.qaqc.value.configs.Some? {
      var c := At(raw.qaqc.value.configs.value, raw.qaqc.value.default.value);
      if c.Some? && c.value.tests.Some? { TestsPrepared(c.value.tests.value); }
    }
  }

  /** `prepare_data_by_version`, together with the keys that storing the result asks for. */
  function Prepare(raw: RawMessage): Result<Message, MessageError> {
    if raw.version !in {4, 5, 6, 7} then Err(UnknownVersion) else
    var mqtt, storage, parsers := PrepareMqtt(raw), PrepareStorage(raw), PrepareParsers(raw);
    var sftp, api, database, qaqc := PrepareSftp(raw), PrepareApi(raw), PrepareDatabase(raw), PrepareQaqc(raw);
    if mqtt.Err? then Err(mqtt.error)
    else if storage.Err? then Err(storage.error)
    else if parsers.Err? then Err(parsers.error)
    else if sftp.Err? then Err(sftp.error)
    else if api.Err? then Err(api.error)
    else if database.Err? then Err(database.error)
    else if qaqc.Err? then Err(qaqc.error)
    else Ok(Message(raw.uuid, raw.name, raw.description, raw.ingestType, raw.project, database.value,
                    parsers.value, storage.value, mqtt.value, sftp.value, api.value, qaqc.value))
  }

  ghost predicate Absent<T(!new), F(!new)>(s: Section<T>, field: T -> Option<F>) {
    s.Missing? || (s.Given? && field(s.value).None?)
  }

  /** Preparing turns exactly the sections without their relevant value into absent ones; a null
      section makes the whole message unreadable. */
  lemma PreparedSections(raw: RawMessage)
    requires Prepare(raw).Ok?
    ensures var msg := Prepare(raw).value;
            && (msg.storage.None? <==> Absent(raw.storage, (b: RawBucket) => b.bucketName))
            && (msg.parsers.None? <==> Absent(raw.parsers, (p: RawParsers) => p.default))
            && (msg.sftp.None? <==> Absent(raw.sftp, (s: RawSftp) => s.uri))
            && (msg.api.None? <==> Absent(raw.api, (a: RawApi) => a.typ))
            && (msg.mqtt.None? <==>
                Absent(if raw.version == 4 then raw.credentials else raw.mqtt, (m: RawMqtt) => m.username))
            && (msg.qaqc.Some? <==> raw.version <= 6) && (raw.version <= 6 ==> raw.qaqc.Given?)
            && raw.storage != Null && raw.parsers != Null && raw.sftp != Null && raw.api != Null
            && msg.uuid == raw.uuid && msg.project == raw.project
  {
  }

  // ---------------------------------------------------------------- what a prepared message says

  /** The settings say what the raw ones say. Tests have no names in old messages and are counted; a null instead
      of arguments is kept as one, and settings are the default unless they say otherwise. */
  ghost predicate SettingsSame(c: RawConfig, part: QaqcPart) {
    && c.name == Some(part.name) && c.window == Some(part.window)
    && c.default == (if c.default.Given? then Given(part.default) else Missing)
    && (c.default.Missing? ==> part.default)
    && c.tests.Some? && |part.tests| == |c.tests.value|
    && forall i :: 0 <= i < |part.tests| ==> TestSame(c.tests.value[i], part.tests[i], i)
  }

  ghost predicate TestSame(raw: RawTest, test: QaqcTest, i: nat) {
    && test.name == "Test " + Digits(i + 1) && raw.check == Some(test.check)
    && (raw.kwargs == Given(test.kwargs) || (raw.kwargs == Null && test.kwargs == "null"))
    && raw.position == match test.position { case Some(n) => Given(n) case None => Null }
  }

  ghost predicate DatabaseSame(raw: RawMessage, database: Database) {
    var d := raw.database;
    && database.user == d.user && database.password == d.password && database.roUser == d.roUser
    && database.roPassword == d.roPassword && database.url == d.url && database.roUrl == d.roUrl
    && (if d.schema.Some? then database.schema == d.schema.value else raw.version == 4 && database.schema == d.user)
  }

  ghost predicate BucketSame(raw: RawMessage, part: Option<Bucket>) {
    match raw.storage
    case Given(b) =>
      if b.bucketName.None? then part == None
      else
        && part.Some? && part.value.bucket == b.bucketName.value && part.value.user == b.user
        && part.value.password == b.password && part.value.filenamePattern == b.filenamePattern
    case Missing => part == None
    case Null => false
  }

  /** Parsers in the order sent, and the index sent. The parser it names has a name, but for version 4. */
  ghost predicate ParsersSame(raw: RawMessage, part: Option<ParsersPart>) {
    match raw.parsers
    case Given(p) =>
      if p.default.None? then part == None
      else
        && part.Some? && part.value.default == p.default.value && |part.value.parsers| == |p.parsers|
        && (forall i :: 0 <= i < |p.parsers| ==> ParserSame(p.parsers[i], part.value.parsers[i]))
        && var k := if p.default.value < 0 then p.default.value + |p.parsers| else p.default.value;
           0 <= k < |p.parsers| && p.parsers[k].name.None? ==> raw.version == 4
    case Missing => part == None
    case Null => false
  }

  ghost predicate ParserSame(raw: RawParser, part: ParserPart) {
    && part.typ == raw.typ && part.settings == raw.settings
    && part.name == if raw.name.Some? then raw.name.value else "no-parser-name"
  }

  ghost predicate SftpSame(raw: RawMessage, part: Option<Sftp>) {
    match raw.sftp
    case Given(f) =>
      if f.uri.None? then part == None
      else
        && part.Some? && part.value.uri == f.uri.value && part.value.path == f.path && part.value.user == f.user
        && part.value.password == f.password && part.value.publicKey == f.publicKey
        && part.value.syncInterval == f.syncInterval && part.value.syncEnabled == f.syncEnabled
        && (if raw.version == 4 then part.value.privateKey == "no-key-in-message-version-4"
            else f.privateKey == Some(part.value.privateKey))
    case Missing => part == None
    case Null => false
  }

  ghost predicate ApiSame(raw: RawMessage, part: Option<ApiPart>) {
    match raw.api
    case Given(a) =>
      if a.typ.None? then part == None
      else part.Some? && part.value.typ == a.typ.value && part.value.plan == a.plan
    case Missing => part == None
    case Null => false
  }

  /** In version 4 the section has another name, and password and topic may be missing. */
  ghost predicate MqttSame(raw: RawMessage, part: Option<MqttPart>) {
    match if raw.version == 4 then raw.credentials else raw.mqtt
    case Given(m) =>
      if m.username.None? then part == None
      else
        && part.Some? && part.value.login.user == m.username.value
        && part.value.login.passwordHash == m.passwordHash
        && (if m.password.Some? then part.value.login.password == m.password.value
            else raw.version == 4 && part.value.login.password == "no-password-in-message-version-4")
        && (if m.topic.Some? then part.value.login.topic == m.topic.value
            else raw.version == 4 && part.value.login.topic == m.description)
        && raw.deviceType == match part.value.deviceType { case Some(d) => Given(d) case None => Null }
    case Missing => raw.version != 4 && part == None
    case Null => false
  }

  /** Up to version 6, the settings are those that the index sent names; later ones bring none. */
  ghost predicate QaqcSame(raw: RawMessage, part: Option<QaqcPart>) {
    if raw.version > 6 then part == None
    else
      && raw.qaqc.Given? && raw.qaqc.value.default.Some? && raw.qaqc.value.configs.Some?
      && var configs, index := raw.qaqc.value.configs.value, raw.qaqc.value.default.value;
         var k := if index < 0 then index + |configs| else index;
         0 <= k < |configs| && part.Some? && SettingsSame(configs[k], part.value)
  }

  /** The prepared message says, field by field, what the raw one says. */
  ghost predicate SaysTheSame(raw: RawMessage, msg: Message) {
    && raw.version in {4, 5, 6, 7}
    && msg.uuid == raw.uuid && msg.name == raw.name && msg.description == raw.description
    && msg.ingestType == raw.ingestType && msg.project == raw.project && DatabaseSame(raw, msg.database)
    && BucketSame(raw, msg.storage) && ParsersSame(raw, msg.parsers) && SftpSame(raw, msg.sftp)
    && ApiSame(raw, msg.api) && MqttSame(raw, msg.mqtt) && QaqcSame(raw, msg.qaqc)
  }

  lemma SectionsSame(raw: RawMessage)
    requires Prepare(raw).Ok?
    ensures var msg := Prepare(raw).value;
            && DatabaseSame(raw, msg.database) && BucketSame(raw, msg.storage) && SftpSame(raw, msg.sftp)
            && ApiSame(raw, msg.api) && MqttSame(raw, msg.mqtt)
  {
  }

  lemma PreparedLists(raw: RawMessage)
    requires Prepare(raw).Ok?
    ensures PrepareParsers(raw) == Ok(Prepare(raw).value.parsers) && PrepareQaqc(raw) == Ok(Prepare(raw).value.qaqc)
  {
  }

  lemma ParsersAreSame(raw: RawMessage)
    requires PrepareParsers(raw).Ok?
    ensures ParsersSame(raw, PrepareParsers(raw).value)
  {
  }

  lemma SettingsAreSame(raw: RawMessage)
    requires raw.version in {4, 5, 6, 7} && PrepareQaqc(raw).Ok?
    ensures QaqcSame(raw, PrepareQaqc(raw).value)
  {
    if raw.version <= 6 {
      var configs, index := raw.qaqc.value.configs.value, raw.qaqc.value.default.value;
      var k := if index < 0 then index + |configs| else index;
      assert At(configs, index) == Some(configs[k]);
      TestsPrepared(configs[k].tests.value);
    }
  }

  lemma HeadSame(raw: RawMessage)
    requires Prepare(raw).Ok?
    ensures var msg := Prepare(raw).value;
            && raw.version in {4, 5, 6, 7} && msg.uuid == raw.uuid && msg.name == raw.name
            && msg.description == raw.description && msg.ingestType == raw.ingestType && msg.project == raw.project
  {
  }

  lemma PreparedSaysTheSame(raw: RawMessage, msg: Message)
    requires Prepare(raw) == Ok(msg)
    ensures SaysTheSame(raw, msg)
  {
    HeadSame(raw);
    SectionsSame(raw);
    PreparedLists(raw);
    ParsersAreSame(raw);
    SettingsAreSame(raw);
  }

  lemma SectionsReadable(raw: RawMessage, msg: Message)
    requires SaysTheSame(raw, msg)
    ensures PrepareMqtt(raw).Ok? && PrepareStorage(raw).Ok? && PrepareSftp(raw).Ok? && PrepareApi(raw).Ok?
    ensures PrepareDatabase(raw).Ok?
  {
  }

  lemma ParsersReadable(raw: RawMessage, part: Option<ParsersPart>)
    requires ParsersSame(raw, part)
    ensures PrepareParsers(raw).Ok?
  {
  }

  lemma SettingsReadable(raw: RawMessage, part: Option<QaqcPart>)
    requires QaqcSame(raw, part)
    ensures PrepareQaqc(raw).Ok?
  {
    if raw.version <= 6 {
      var configs, index := raw.qaqc.value.configs.value, raw.qaqc.value.default.value;
      var k := if index < 0 then index + |configs| else index;
      assert At(configs, index) == Some(configs[k]);
      forall i | 0 <= i < |configs[k].tests.value| ensures UsableTest(configs[k].tests.value[i]) {
        assert TestSame(configs[k].tests.value[i], part.value.tests[i], i);
      }
      TestsPrepared(configs[k].tests.value);
    }
  }

  /** Only messages without such a reading are not prepared. */
  lemma UnpreparedHasNoReading(raw: RawMessage, msg: Message)
    requires SaysTheSame(raw, msg)
    ensures Prepare(raw).Ok?
  {
    SectionsReadable(raw, msg);
    ParsersReadable(raw, msg.parsers);
    SettingsReadable(raw, msg.qaqc);
  }

  /** A message reaches the tables as a whole or not at all: exactly if it can be read, and what it says is not
      refused. The tables then say what the raw message says. */
  method Receive(updater: Updater, raw: RawMessage) returns (stored: bool, ghost msg: Option<Message>)
    requires WellFormed(updater.db)
    modifies updater
    ensures WellFormed(updater.db)
    ensures !stored ==> updater.db == old(updater.db)
    ensures if msg.Some? then SaysTheSame(raw, msg.value) else forall m :: !SaysTheSame(raw, m)
    ensures stored <==> msg.Some? && !IsRefused(old(updater.db), msg.value, updater.lower)
    ensures stored ==> TablesSay(old(updater.db), updater.db, msg.value, updater.lower)
    ensures stored ==>
              Load(updater.db, raw.uuid) == Some(WantedView(old(updater.db), msg.value, updater.lower))
    ensures stored ==>
              && Load(updater.db, raw.uuid).Some?
              && var view := Load(updater.db, raw.uuid).value;
                 && view.name == raw.name && view.description == raw.description && view.project == raw.project
                 && view.ingestType == updater.lower(raw.ingestType) && DatabaseSame(raw, view.database)
                 && view.storage == msg.value.storage && view.sftp == msg.value.sftp && view.qaqc == msg.value.qaqc
    ensures OtherThingsKept(old(updater.db), updater.db, raw.uuid)
  {
    var prepared := Prepare(raw);
    NothingChangedForOthers(updater.db, raw.uuid);
    if prepared.Err? {
      forall m ensures !SaysTheSame(raw, m) {
        if SaysTheSame(raw, m) { UnpreparedHasNoReading(raw, m); }
      }
      return false, None;
    }
    PreparedSaysTheSame(raw, prepared.value);
    msg := Some(prepared.value);
    var r := updater.ThingUpdate(prepared.value);
    stored := r.Ok?;
  }
}
