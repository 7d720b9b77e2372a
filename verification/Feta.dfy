/** The object graph over the configuration database: objects hand out linked objects, and all
    objects that come from one root share one cache. */
module Feta {
  import opened Wrappers

  datatype Class = Thing | Project | Database | IngestType | S3Store | FileParser | FileParserType
                 | Mqtt | MqttDeviceType | ExtSftp | ExtApi | ExtApiType | Qaqc | QaqcTest

  datatype Field = Null | Text(s: string) | Number(n: int) | Flag(b: bool)

  /** A row as fetched: foreign keys by column, and all other columns. */
  datatype Attrs = Attrs(keys: map<string, Option<int>>, values: map<string, Field>)

  datatype Obj = Obj(cls: Class, attrs: Attrs)

  /** The rows each table has for an id, in the order the database returns them. */
  type Tables = ((Class, int)) -> seq<Attrs>

  /** The link properties: class and key column a link name stands for. */
  function Target(cls: Class, link: string): Option<(Class, string)> {
    match cls
    case Thing =>
      if link == "project" then Some((Project, "project_id"))
      else if link == "ingest_type" then Some((IngestType, "ingest_type_id"))
      else if link == "s3_store" then Some((S3Store, "s3_store_id"))
      else if link == "mqtt" then Some((Mqtt, "mqtt_id"))
      else if link == "ext_sftp" then Some((ExtSftp, "ext_sftp_id"))
      else if link == "ext_api" then Some((ExtApi, "ext_api_id"))
      else None
    case Project => if link == "database" then Some((Database, "database_id")) else None
    case S3Store => if link == "file_parser" then Some((FileParser, "file_parser_id")) else None
    case FileParser => if link == "file_parser_type" then Some((FileParserType, "file_parser_type_id")) else None
    case Mqtt => if link == "mqtt_device_type" then Some((MqttDeviceType, "mqtt_device_type_id")) else None
    case ExtApi => if link == "api_type" then Some((ExtApiType, "api_type_id")) else None
    case Qaqc => if link == "project" then Some((Project, "project_id")) else None
    case QaqcTest => if link == "qaqc" then Some((Qaqc, "qaqc_id")) else None
    case _ => None
  }

  /** What following a link yields: nothing for a null key, an object, or an error. */
  datatype Outcome = Nothing | Found(obj: Obj) | ObjectNotFound | NoSuchAttribute

  /** Cache key of a link, or the outcome where no row is asked for. */
  function KeyOf(obj: Obj, link: string): Result<(Class, int), Outcome> {
    var target := Target(obj.cls, link);
    if target.None? || target.value.1 !in obj.attrs.keys then Err(NoSuchAttribute)
    else if obj.attrs.keys[target.value.1].None? then Err(Nothing)
    else Ok((target.value.0, obj.attrs.keys[target.value.1].value))
  }

  /** The row of a key, asked from the database. */
  function Row(db: Tables, key: (Class, int)): Outcome {
    if db(key) == [] then ObjectNotFound else Found(Obj(key.0, db(key)[0]))
  }

  /** Following a link without a cache. */
  function Follow(db: Tables, obj: Obj, link: string): Outcome {
    var key := KeyOf(obj, link);
    if key.Err? then key.error else Row(db, key.value)
  }

  /** Every key column is named after its link, and a link name stands for the same class wherever it is used. */
  lemma LinkNames(cls: Class, link: string, other: Class)
    ensures Target(cls, link).Some? ==> Target(cls, link).value.1 == link + "_id"
    ensures Target(cls, link).Some? && Target(other, link).Some? ==> Target(cls, link) == Target(other, link)
    ensures Target(cls, link).Some? <==>
            || (cls.Thing? && link in {"project", "ingest_type", "s3_store", "mqtt", "ext_sftp", "ext_api"})
            || (cls.Project? && link == "database") || (cls.S3Store? && link == "file_parser")
            || (cls.FileParser? && link == "file_parser_type") || (cls.Mqtt? && link == "mqtt_device_type")
            || (cls.ExtApi? && link == "api_type") || (cls.Qaqc? && link == "project")
            || (cls.QaqcTest? && link == "qaqc")
  {
  }

  /** What a link leads to: an error if there is no such link or its key is not among the columns, nothing for a
      null key, else the first row of that id in the table of the class, or an error if there is none. */
  ghost predicate LeadsTo(db: Tables, obj: Obj, link: string, outcome: Outcome) {
    match Target(obj.cls, link)
    case None => outcome == NoSuchAttribute
    case Some((cls, column)) =>
      if column !in obj.attrs.keys then outcome == NoSuchAttribute
      else match obj.attrs.keys[column]
        case None => outcome == Nothing
        case Some(id) =>
          if |db((cls, id))| == 0 then outcome == ObjectNotFound
          else outcome.Found? && outcome.obj.cls == cls && outcome.obj.attrs == db((cls, id))[0]
  }

  datatype Op = Access(on: nat, link: string) | ClearCache

  /** The outcomes of a run without a cache. Objects found can be used later on, by number. */
  function Trace(db: Tables, objs: seq<Obj>, ops: seq<Op>): (outcomes: seq<Outcome>)
    decreases |ops|
  {
    if ops == [] then []
    else
      match ops[0]
      case ClearCache => Trace(db, objs, ops[1..])
      case Access(on, link) =>
        if on >= |objs| then Trace(db, objs, ops[1..])
        else
          var outcome := Follow(db, objs[on], link);
          [outcome] + Trace(db, Known(objs, outcome), ops[1..])
  }

  function Known(objs: seq<Obj>, outcome: Outcome): seq<Obj> {
    if outcome.Found? then objs + [outcome.obj] else objs
  }

  lemma {:induction false} TraceSplits(db: Tables, objs: seq<Obj>, done: seq<Op>, op: Op)
    ensures var after := ObjectsAfter(db, objs, done);
            Trace(db, objs, done + [op]) == Trace(db, objs, done) + Trace(db, after, [op])
    ensures ObjectsAfter(db, objs, done + [op]) == ObjectsAfter(db, ObjectsAfter(db, objs, done), [op])
    decreases |done|
  {
    if done == [] {
      assert done + [op] == [op];
    } else {
      assert (done + [op])[1..] == done[1..] + [op];
      match done[0]
      case ClearCache => TraceSplits(db, objs, done[1..], op);
      case Access(on, link) =>
        if on >= |objs| {
          TraceSplits(db, objs, done[1..], op);
        } else {
          TraceSplits(db, Known(objs, Follow(db, objs[on], link)), done[1..], op);
        }
    }
  }

  /** An object found can be asked for its own links next, cache cleared in between or not. */
  lemma FoundIsHeld(db: Tables, objs: seq<Obj>, on: nat, link: string, next: string)
    requires on < |objs| && Follow(db, objs[on], link).Found?
    ensures var first, second := Access(on, link), Access(|objs|, next);
            var found := Follow(db, objs[on], link);
            && Trace(db, objs, [first, second]) == [found, Follow(db, found.obj, next)]
            && Trace(db, objs, [first, ClearCache, second]) == [found, Follow(db, found.obj, next)]
  {
    var first, second := Access(on, link), Access(|objs|, next);
    var more := Known(objs, Follow(db, objs[on], link));
    assert [first, second][1..] == [second] && [first, ClearCache, second][1..] == [ClearCache, second];
    assert [ClearCache, second][1..] == [second] && [second][1..] == [];
    assert Trace(db, more, [second]) == [Follow(db, more[|objs|], next)];
  }

  /** The objects a caller holds after a run. */
  function ObjectsAfter(db: Tables, objs: seq<Obj>, ops: seq<Op>): seq<Obj>
    decreases |ops|
  {
    if ops == [] then objs
    else
      match ops[0]
      case ClearCache => ObjectsAfter(db, objs, ops[1..])
      case Access(on, link) =>
        if on >= |objs| then ObjectsAfter(db, objs, ops[1..])
        else ObjectsAfter(db, Known(objs, Follow(db, objs[on], link)), ops[1..])
  }

  // ---------------------------------------------------------------- the shared cache

  /** Every entry (class, id) holds that class's row with that id. */
  ghost predicate Coherent(db: Tables, cache: map<(Class, int), Obj>) {
    forall key :: key in cache ==> Row(db, key) == Found(cache[key])
  }

  /** The cache that a root object creates and that everything reached from it shares. */
  class Session {
    const db: Tables
    const caching: bool
    var cache: map<(Class, int), Obj>

    ghost predicate Valid()
      reads this
    {
      Coherent(db, cache) && (!caching ==> cache == map[])
    }

    constructor (db: Tables, caching: bool)
      ensures Valid() && this.db == db && this.caching == caching
    {
      this.db, this.caching, cache := db, caching, map[];
    }

    method CacheGet(key: (Class, int)) returns (hit: Option<Obj>)
      ensures hit == if key in cache then Some(cache[key]) else None
    {
      // an empty cache is not even asked
      if cache == map[] { return None; }
      hit := if key in cache then Some(cache[key]) else None;
    }

    method CacheSet(key: (Class, int), obj: Obj)
      requires Valid() && Row(db, key) == Found(obj)
      modifies this
      ensures Valid() && cache == if caching then old(cache)[key := obj] else old(cache)
    {
      if caching { cache := cache[key := obj]; }
    }

    method ClearTheCache()
      requires Valid()
      modifies this
      ensures Valid() && cache == map[]
    {
      cache := map[];
    }

    /** The getter that `_create` makes. */
    method Get(obj: Obj, link: string) returns (r: Outcome)
      requires Valid()
      modifies this
      ensures Valid() && r == Follow(db, obj, link) && LeadsTo(db, obj, link, r)
    {
      var key := KeyOf(obj, link);
      if key.Err? { return key.error; }
      var cached := CacheGet(key.value);
      if cached.Some? { return Found(cached.value); }
      r := Row(db, key.value);
      if r.Found? { CacheSet(key.value, r.obj); }
    }

    /** Any run of link accesses and cache clearings gives what it gives without the cache. */
    method Run(root: Obj, ops: seq<Op>) returns (outcomes: seq<Outcome>)
      requires Valid()
      modifies this
      ensures Valid() && outcomes == Trace(db, [root], ops)
    {
      outcomes := [];
      var objs := [root];
      for i := 0 to |ops|
        invariant Valid()
        invariant outcomes == Trace(db, [root], ops[..i]) && objs == ObjectsAfter(db, [root], ops[..i])
      {
        assert ops[..i + 1] == ops[..i] + [ops[i]];
        TraceSplits(db, [root], ops[..i], ops[i]);
        match ops[i]
        case ClearCache => ClearTheCache();
        case Access(on, link) =>
          if on < |objs| {
            var outcome := Get(objs[on], link);
            outcomes := outcomes + [outcome];
            objs := Known(objs, outcome);
          }
      }
      assert ops[..|ops|] == ops;
    }
  }

  // ---------------------------------------------------------------- when the database moves on

  /** Following a link through a cache. */
  function FollowCached(db: Tables, cache: map<(Class, int), Obj>, obj: Obj, link: string): Outcome {
    var key := KeyOf(obj, link);
    if key.Err? then key.error
    else if key.value in cache then Found(cache[key.value])
    else Row(db, key.value)
  }

  /** Once the tables change under a session, an access is still right exactly if its entry is missing
      or still is the row. */
  lemma AccessIsRight(db: Tables, cache: map<(Class, int), Obj>, obj: Obj, link: string)
    ensures FollowCached(db, cache, obj, link) == Follow(db, obj, link) <==>
            KeyOf(obj, link).Err? || KeyOf(obj, link).value !in cache ||
            Row(db, KeyOf(obj, link).value) == Found(cache[KeyOf(obj, link).value])
  {
  }

  /** Hence all accesses are right exactly if the cache is coherent. Whatever class an entry belongs to,
      some object asks for it. */
  lemma TransparentIffCoherent(db: Tables, cache: map<(Class, int), Obj>)
    requires forall key :: key in cache ==> exists obj, link :: KeyOf(obj, link) == Ok(key)
    ensures (forall obj, link :: FollowCached(db, cache, obj, link) == Follow(db, obj, link)) <==> Coherent(db, cache)
  {
    forall obj, link | Coherent(db, cache) ensures FollowCached(db, cache, obj, link) == Follow(db, obj, link) {
      AccessIsRight(db, cache, obj, link);
    }
    if forall obj, link :: FollowCached(db, cache, obj, link) == Follow(db, obj, link) {
      forall key | key in cache ensures Row(db, key) == Found(cache[key]) {
        var obj, link :| KeyOf(obj, link) == Ok(key);
        AccessIsRight(db, cache, obj, link);
      }
    }
  }
}
