/** What `createTerraformVars` makes of a configuration, stated on the
    configuration it was given: which services it detects, in what order
    their blocks appear, how far the rewrite reaches, and when the whole
    synthesis fails. */
module VarsLayout {
  import opened Wrappers
  import opened Text
  import opened ConfigTree
  import opened TerraformVars

  // ---------------------------------------------------------------------
  // Detection, read off the original configuration

  /** The relational store a datasource URL selects: MySQL is tested first. */
  function DatabaseKind(url: string): Option<Dependency>
  {
    if Contains(url, "mysql") then Some(MySql)
    else if Contains(url, "postgresql") then Some(PostgreSql)
    else None
  }

  /** `data.mongodb` is present under a map-valued `data`. */
  predicate MongoRequested(config: seq<Entry>)
  {
    match Get(config, "data")
    case Some(Tree(m)) => Has(m, "mongodb")
    case _ => false
  }

  /** The relational store a map-valued `datasource` asks for. */
  function DatabaseRequested(config: seq<Entry>): Option<Dependency>
  {
    match Get(config, "datasource")
    case Some(Tree(ds)) => DatabaseKind(UrlText(ds))
    case _ => None
  }

  function OptionalList<T>(present: bool, x: T): seq<T>
  {
    if present then [x] else []
  }

  /** The services a configuration asks for, in the order their blocks are
      emitted. */
  function Detected(config: seq<Entry>): seq<Dependency>
  {
    OptionalList(Has(config, "redis"), Redis) +
    OptionalList(Has(config, "kafka"), Kafka) +
    OptionalList(MongoRequested(config), MongoDb) +
    DatabaseDetected(config)
  }

  /** The clock reading each service's resource name is stamped with. */
  function StampOf(clock: Clock, d: Dependency): nat
  {
    match d
    case Redis => clock.redis
    case Kafka => clock.kafka
    case MongoDb => clock.mongodb
    case MySql => clock.database
    case PostgreSql => clock.database
  }

  function ServiceBlocks(ds: seq<Dependency>, clock: Clock): seq<Block>
  {
    if ds == [] then []
    else ServiceBlocks(ds[..|ds| - 1], clock) + [ServiceBlock(ds[|ds| - 1], StampOf(clock, ds[|ds| - 1]))]
  }

  /** The first exception `createTerraformVars` meets, if any: a non-map
      `data` or `datasource` fails its cast while the services are
      processed; a `null` one survives that (it reads as an empty map)
      and fails on `containsKey` when the connection lines are read. */
  function SynthesisError(config: seq<Entry>): Option<ConfigError>
  {
    match (Get(config, "data"), Get(config, "datasource"))
    case (Some(Scalar(_)), _) => Some(ClassCast("data"))
    case (_, Some(Scalar(_))) => Some(ClassCast("datasource"))
    case (_, Some(Null)) => Some(NullPointer("datasource"))
    case (Some(Null), _) => Some(NullPointer("data"))
    case _ => None
  }

  // ---------------------------------------------------------------------
  // One step at a time

  lemma RedisStepEffect(d: Draft, stamp: nat)
    ensures var s := RedisStep(d, stamp);
      && s.blocks == d.blocks + OptionalList(Has(d.config, "redis"), ServiceBlock(Redis, stamp))
      && Get(s.config, "redis") == (if Has(d.config, "redis") then Some(Tree(RedisPlaceholders())) else None)
      && SameExcept(s.config, d.config, "redis")
  {
    if Has(d.config, "redis") {
      PutExisting(d.config, "redis", Tree(RedisPlaceholders()));
    } else {
      assert d.blocks + [] == d.blocks;
    }
  }

  lemma KafkaStepEffect(d: Draft, stamp: nat)
    ensures var s := KafkaStep(d, stamp);
      && s.blocks == d.blocks + OptionalList(Has(d.config, "kafka"), ServiceBlock(Kafka, stamp))
      && Get(s.config, "kafka") == (if Has(d.config, "kafka") then Some(Tree(KafkaPlaceholders())) else None)
      && SameExcept(s.config, d.config, "kafka")
  {
    if Has(d.config, "kafka") {
      PutExisting(d.config, "kafka", Tree(KafkaPlaceholders()));
    } else {
      assert d.blocks + [] == d.blocks;
    }
  }

  /** The MongoDB step fails exactly on a non-map, non-null `data`; it
      replaces `data.mongodb` and keeps the siblings under `data`. */
  lemma MongoStepEffect(d: Draft, stamp: nat)
    ensures MongoStep(d, stamp).Err? <==> Get(d.config, "data").Some? && Get(d.config, "data").value.Scalar?
    ensures MongoStep(d, stamp).Err? ==> MongoStep(d, stamp).error == ClassCast("data")
    ensures MongoStep(d, stamp).Ok? ==>
      var s := MongoStep(d, stamp).value;
      && s.blocks == d.blocks + OptionalList(MongoRequested(d.config), ServiceBlock(MongoDb, stamp))
      && SameExcept(s.config, d.config, "data")
      && (MongoRequested(d.config) ==>
            var m := Get(d.config, "data").value.entries;
            Get(s.config, "data") == Some(Tree(Put(m, "mongodb", Tree(MongoPlaceholders())))))
      && (!MongoRequested(d.config) ==> Get(s.config, "data") == Get(d.config, "data"))
  {
    if MongoRequested(d.config) {
      PutExisting(d.config, "data", Tree(Put(Get(d.config, "data").value.entries, "mongodb", Tree(MongoPlaceholders()))));
    } else {
      assert d.blocks + [] == d.blocks;
    }
  }

  /** The database step fails exactly on a non-map, non-null `datasource`;
      it rewrites the datasource only when the URL selects a store. */
  lemma DatabaseStepEffect(d: Draft, stamp: nat)
    ensures DatabaseStep(d, stamp).Err? <==>
      Get(d.config, "datasource").Some? && Get(d.config, "datasource").value.Scalar?
    ensures DatabaseStep(d, stamp).Err? ==> DatabaseStep(d, stamp).error == ClassCast("datasource")
    ensures DatabaseStep(d, stamp).Ok? ==>
      var s := DatabaseStep(d, stamp).value;
      && s.blocks == d.blocks +
           (match DatabaseRequested(d.config) case Some(k) => [ServiceBlock(k, stamp)] case None => [])
      && SameExcept(s.config, d.config, "datasource")
      && (match DatabaseRequested(d.config)
          case Some(k) =>
            Get(s.config, "datasource") == Some(Tree(DatasourceFor(k, Get(d.config, "datasource").value.entries)))
          case None => Get(s.config, "datasource") == Get(d.config, "datasource"))
  {
    match DatabaseRequested(d.config)
    case Some(k) =>
      PutExisting(d.config, "datasource", Tree(DatasourceFor(k, Get(d.config, "datasource").value.entries)));
    case None =>
      assert d.blocks + [] == d.blocks;
  }

  // ---------------------------------------------------------------------
  // The four steps together

  lemma {:induction false} ServiceBlocksAppend(xs: seq<Dependency>, ys: seq<Dependency>, clock: Clock)
    ensures ServiceBlocks(xs + ys, clock) == ServiceBlocks(xs, clock) + ServiceBlocks(ys, clock)
    decreases |ys|
  {
    if ys == [] {
      assert xs + ys == xs;
    } else {
      var init := ys[..|ys| - 1];
      ServiceBlocksAppend(xs, init, clock);
      assert (xs + ys)[..|xs + ys| - 1] == xs + init;
    }
  }

  /** One more step's block, none or one, extends the detected prefix. */
  lemma ServiceBlocksExtend(prefix: seq<Block>, xs: seq<Dependency>, before: seq<Block>, after: seq<Block>,
                            present: bool, x: Dependency, clock: Clock)
    requires before == prefix + ServiceBlocks(xs, clock)
    requires after == before + OptionalList(present, ServiceBlock(x, StampOf(clock, x)))
    ensures after == prefix + ServiceBlocks(xs + OptionalList(present, x), clock)
  {
    if present {
      assert (xs + [x])[..|xs|] == xs;
    } else {
      assert xs + [] == xs;
    }
  }

  /** The detection part of a store the datasource asks for. */
  function DatabaseDetected(config: seq<Entry>): seq<Dependency>
  {
    match DatabaseRequested(config) case Some(d) => [d] case None => []
  }

  lemma RedisLayout(prefix: seq<Block>, config: seq<Entry>, clock: Clock)
    ensures var s := RedisStep(Draft(prefix, config), clock.redis);
      && s.blocks == prefix + ServiceBlocks(OptionalList(Has(config, "redis"), Redis), clock)
      && SameExcept(s.config, config, "redis")
  {
    var d := Draft(prefix, config);
    assert prefix == prefix + ServiceBlocks([], clock);
    RedisStepEffect(d, clock.redis);
    ServiceBlocksExtend(prefix, [], d.blocks, RedisStep(d, clock.redis).blocks, Has(config, "redis"), Redis, clock);
    assert [] + OptionalList(Has(config, "redis"), Redis) == OptionalList(Has(config, "redis"), Redis);
  }

  lemma KafkaLayout(prefix: seq<Block>, xs: seq<Dependency>, d: Draft, config: seq<Entry>, clock: Clock)
    requires d.blocks == prefix + ServiceBlocks(xs, clock)
    requires Has(d.config, "kafka") == Has(config, "kafka")
    ensures var s := KafkaStep(d, clock.kafka);
      && s.blocks == prefix + ServiceBlocks(xs + OptionalList(Has(config, "kafka"), Kafka), clock)
      && SameExcept(s.config, d.config, "kafka")
  {
    KafkaStepEffect(d, clock.kafka);
    ServiceBlocksExtend(prefix, xs, d.blocks, KafkaStep(d, clock.kafka).blocks, Has(config, "kafka"), Kafka, clock);
  }

  lemma MongoLayout(prefix: seq<Block>, xs: seq<Dependency>, d: Draft, config: seq<Entry>, clock: Clock)
    requires d.blocks == prefix + ServiceBlocks(xs, clock)
    requires Get(d.config, "data") == Get(config, "data")
    requires MongoStep(d, clock.mongodb).Ok?
    ensures var s := MongoStep(d, clock.mongodb).value;
      && s.blocks == prefix + ServiceBlocks(xs + OptionalList(MongoRequested(config), MongoDb), clock)
      && Get(s.config, "datasource") == Get(d.config, "datasource")
  {
    var s := MongoStep(d, clock.mongodb).value;
    MongoStepEffect(d, clock.mongodb);
    assert MongoRequested(d.config) == MongoRequested(config);
    ServiceBlocksExtend(prefix, xs, d.blocks, s.blocks, MongoRequested(config), MongoDb, clock);
  }

  lemma DatabaseLayout(prefix: seq<Block>, xs: seq<Dependency>, d: Draft, config: seq<Entry>, clock: Clock)
    requires d.blocks == prefix + ServiceBlocks(xs, clock)
    requires Get(d.config, "datasource") == Get(config, "datasource")
    requires DatabaseStep(d, clock.database).Ok?
    ensures DatabaseStep(d, clock.database).value.blocks == prefix + ServiceBlocks(xs + DatabaseDetected(config), clock)
  {
    var s := DatabaseStep(d, clock.database).value;
    DatabaseStepEffect(d, clock.database);
    assert DatabaseRequested(d.config) == DatabaseRequested(config);
    match DatabaseRequested(config)
    case Some(k) =>
      ServiceBlocksExtend(prefix, xs, d.blocks, s.blocks, true, k, clock);
    case None =>
      ServiceBlocksExtend(prefix, xs, d.blocks, s.blocks, false, MySql, clock);
  }

  /** The service blocks follow whatever the builder already holds, one per
      detected service, in detection order: each step's decision, taken on
      the configuration the previous steps rewrote, is the one the original
      configuration calls for. */
  lemma ServicesLayout(prefix: seq<Block>, config: seq<Entry>, clock: Clock)
    requires Services(Draft(prefix, config), clock).Ok?
    ensures Services(Draft(prefix, config), clock).value.blocks == prefix + ServiceBlocks(Detected(config), clock)
  {
    var r := RedisStep(Draft(prefix, config), clock.redis);
    RedisLayout(prefix, config, clock);
    assert Get(r.config, "kafka") == Get(config, "kafka");
    KafkaLayout(prefix, OptionalList(Has(config, "redis"), Redis), r, config, clock);
    var d := KafkaStep(r, clock.kafka);
    assert Get(d.config, "data") == Get(config, "data");
    assert Get(d.config, "datasource") == Get(config, "datasource");
    var xs := OptionalList(Has(config, "redis"), Redis) + OptionalList(Has(config, "kafka"), Kafka);
    MongoLayout(prefix, xs, d, config, clock);
    var m := MongoStep(d, clock.mongodb).value;
    DatabaseLayout(prefix, xs + OptionalList(MongoRequested(config), MongoDb), m, config, clock);
  }

  // ---------------------------------------------------------------------
  // How far the rewrite reaches

  /** The rewrite keeps the key order and touches no top-level key but
      `redis`, `kafka`, `data` and `datasource`. */
  lemma RewriteScope(prefix: seq<Block>, config: seq<Entry>, clock: Clock)
    requires Services(Draft(prefix, config), clock).Ok?
    ensures var c := Services(Draft(prefix, config), clock).value.config;
      && KeysOf(c) == KeysOf(config)
      && forall k :: k != "redis" && k != "kafka" && k != "data" && k != "datasource" ==> Get(c, k) == Get(config, k)
  {
    var d1 := RedisStep(Draft(prefix, config), clock.redis);
    RedisStepEffect(Draft(prefix, config), clock.redis);
    var d2 := KafkaStep(d1, clock.kafka);
    KafkaStepEffect(d1, clock.kafka);
    var d3 := MongoStep(d2, clock.mongodb).value;
    MongoStepEffect(d2, clock.mongodb);
    DatabaseStepEffect(d3, clock.database);
  }

  /** The MongoDB and database steps touch only `data` and `datasource`. */
  lemma LateStepsKeep(d: Draft, clock: Clock)
    requires MongoStep(d, clock.mongodb).Ok?
    requires DatabaseStep(MongoStep(d, clock.mongodb).value, clock.database).Ok?
    ensures var s := DatabaseStep(MongoStep(d, clock.mongodb).value, clock.database).value;
      && KeysOf(s.config) == KeysOf(d.config)
      && forall k :: k != "data" && k != "datasource" ==> Get(s.config, k) == Get(d.config, k)
  {
    MongoStepEffect(d, clock.mongodb);
    DatabaseStepEffect(MongoStep(d, clock.mongodb).value, clock.database);
  }

  /** A present `redis` or `kafka` is replaced wholesale by its
      placeholder-only map; an absent one stays absent. */
  lemma RewriteRedisKafka(prefix: seq<Block>, config: seq<Entry>, clock: Clock)
    requires Services(Draft(prefix, config), clock).Ok?
    ensures var c := Services(Draft(prefix, config), clock).value.config;
      && Get(c, "redis") == (if Has(config, "redis") then Some(Tree(RedisPlaceholders())) else None)
      && Get(c, "kafka") == (if Has(config, "kafka") then Some(Tree(KafkaPlaceholders())) else None)
  {
    var d1 := RedisStep(Draft(prefix, config), clock.redis);
    RedisStepEffect(Draft(prefix, config), clock.redis);
    var d2 := KafkaStep(d1, clock.kafka);
    KafkaStepEffect(d1, clock.kafka);
    LateStepsKeep(d2, clock);
  }

  /** Only `data.mongodb` is replaced, and only when it is asked for. */
  lemma RewriteData(prefix: seq<Block>, config: seq<Entry>, clock: Clock)
    requires Services(Draft(prefix, config), clock).Ok?
    ensures var c := Services(Draft(prefix, config), clock).value.config;
      && (MongoRequested(config) ==>
            Get(c, "data") == Some(Tree(Put(Get(config, "data").value.entries, "mongodb", Tree(MongoPlaceholders())))))
      && (!MongoRequested(config) ==> Get(c, "data") == Get(config, "data"))
  {
    var early := KafkaStep(RedisStep(Draft(prefix, config), clock.redis), clock.kafka);
    EarlyStepsKeep(Draft(prefix, config), clock, "data");
    var mongo := MongoStep(early, clock.mongodb).value;
    DatabaseStepKeeps(mongo, clock.database, "data");
    match Get(early.config, "data")
    case Some(Tree(m)) =>
      if Has(m, "mongodb") {
        PutGetsValue(early.config, "data", Tree(Put(m, "mongodb", Tree(MongoPlaceholders()))));
      }
    case _ =>
  }

  lemma DatasourceAfterStep(d: Draft, config: seq<Entry>, stamp: nat)
    requires Get(d.config, "datasource") == Get(config, "datasource")
    requires DatabaseStep(d, stamp).Ok?
    ensures var c := DatabaseStep(d, stamp).value.config;
      match DatabaseRequested(config)
      case Some(k) => Get(c, "datasource") == Some(Tree(DatasourceFor(k, Get(config, "datasource").value.entries)))
      case None => Get(c, "datasource") == Get(config, "datasource")
  {
    DatabaseStepEffect(d, stamp);
    assert DatabaseRequested(d.config) == DatabaseRequested(config);
  }

  /** The datasource is rewritten exactly when its URL selects a store. */
  lemma RewriteDatasource(prefix: seq<Block>, config: seq<Entry>, clock: Clock)
    requires Services(Draft(prefix, config), clock).Ok?
    ensures var c := Services(Draft(prefix, config), clock).value.config;
      match DatabaseRequested(config)
      case Some(k) => Get(c, "datasource") == Some(Tree(DatasourceFor(k, Get(config, "datasource").value.entries)))
      case None => Get(c, "datasource") == Get(config, "datasource")
  {
    var early := KafkaStep(RedisStep(Draft(prefix, config), clock.redis), clock.kafka);
    EarlyStepsKeep(Draft(prefix, config), clock, "datasource");
    MongoStepKeeps(early, clock.mongodb, "datasource");
    DatasourceAfterStep(MongoStep(early, clock.mongodb).value, config, clock.database);
  }

  /** The Redis and Kafka steps change no key but their own. */
  lemma EarlyStepsKeep(d: Draft, clock: Clock, k: string)
    requires k != "redis" && k != "kafka"
    ensures Get(KafkaStep(RedisStep(d, clock.redis), clock.kafka).config, k) == Get(d.config, k)
  {
    var d1 := RedisStep(d, clock.redis);
    if Has(d.config, "redis") {
      PutKeepsOthers(d.config, "redis", Tree(RedisPlaceholders()), k);
    }
    if Has(d1.config, "kafka") {
      PutKeepsOthers(d1.config, "kafka", Tree(KafkaPlaceholders()), k);
    }
  }

  /** The MongoDB step changes no key but `data`. */
  lemma MongoStepKeeps(d: Draft, stamp: nat, k: string)
    requires k != "data"
    requires MongoStep(d, stamp).Ok?
    ensures Get(MongoStep(d, stamp).value.config, k) == Get(d.config, k)
  {
    match Get(d.config, "data")
    case Some(Tree(m)) =>
      if Has(m, "mongodb") {
        PutKeepsOthers(d.config, "data", Tree(Put(m, "mongodb", Tree(MongoPlaceholders()))), k);
      }
    case _ =>
  }

  /** The database step changes no key but `datasource`. */
  lemma DatabaseStepKeeps(d: Draft, stamp: nat, k: string)
    requires k != "datasource"
    requires DatabaseStep(d, stamp).Ok?
    ensures Get(DatabaseStep(d, stamp).value.config, k) == Get(d.config, k)
  {
    match Get(d.config, "datasource")
    case Some(Tree(ds)) =>
      if Contains(UrlText(ds), "mysql") {
        PutKeepsOthers(d.config, "datasource", Tree(DatasourceFor(MySql, ds)), k);
      } else if Contains(UrlText(ds), "postgresql") {
        PutKeepsOthers(d.config, "datasource", Tree(DatasourceFor(PostgreSql, ds)), k);
      }
    case _ =>
  }

  // ---------------------------------------------------------------------
  // When synthesis fails

  /** A value present but neither a map nor `null`: the cast to `Map` fails. */
  predicate NonMap(v: Option<Value>)
  {
    v.Some? && v.value.Scalar?
  }

  predicate MapOrAbsent(v: Option<Value>)
  {
    v.None? || v.value.Tree?
  }

  /** The four steps fail exactly on a non-map `data` or `datasource`,
      `data` being cast first. */
  lemma ServicesOutcome(prefix: seq<Block>, config: seq<Entry>, clock: Clock)
    ensures Services(Draft(prefix, config), clock).Err? <==>
      NonMap(Get(config, "data")) || NonMap(Get(config, "datasource"))
    ensures Services(Draft(prefix, config), clock).Err? ==>
      Services(Draft(prefix, config), clock).error ==
        (if NonMap(Get(config, "data")) then ClassCast("data") else ClassCast("datasource"))
  {
    var early := KafkaStep(RedisStep(Draft(prefix, config), clock.redis), clock.kafka);
    EarlyStepsKeep(Draft(prefix, config), clock, "data");
    EarlyStepsKeep(Draft(prefix, config), clock, "datasource");
    if MongoStep(early, clock.mongodb).Ok? {
      MongoStepKeeps(early, clock.mongodb, "datasource");
    }
  }

  /** What the connection-information phase can meet once the services
      have been processed: `redis`, `kafka` and `data.mongodb` are maps or
      absent, and `data` and `datasource` are maps, `null` or absent. */
  predicate Rewritten(c: seq<Entry>)
  {
    && MapOrAbsent(Get(c, "redis"))
    && MapOrAbsent(Get(c, "kafka"))
    && !NonMap(Get(c, "data"))
    && !NonMap(Get(c, "datasource"))
    && (match Get(c, "data") case Some(Tree(m)) => MapOrAbsent(Get(m, "mongodb")) case _ => true)
  }

  /** On a rewritten configuration the connection lines fail exactly on a
      `null` `datasource` or `data`, the datasource being read first. */
  lemma ConnectionOutcome(c: seq<Entry>)
    requires Rewritten(c)
    ensures ConnectionLines(c).Err? <==> Get(c, "datasource") == Some(Null) || Get(c, "data") == Some(Null)
    ensures ConnectionLines(c).Err? ==>
      ConnectionLines(c).error ==
        (if Get(c, "datasource") == Some(Null) then NullPointer("datasource") else NullPointer("data"))
  {
  }

  /** The four steps leave a rewritten configuration, with `null` exactly
      where the original had it. */
  lemma ServicesRewritten(prefix: seq<Block>, config: seq<Entry>, clock: Clock)
    requires Services(Draft(prefix, config), clock).Ok?
    ensures var c := Services(Draft(prefix, config), clock).value.config;
      && Rewritten(c)
      && (Get(c, "datasource") == Some(Null) <==> Get(config, "datasource") == Some(Null))
      && (Get(c, "data") == Some(Null) <==> Get(config, "data") == Some(Null))
  {
    ServicesOutcome(prefix, config, clock);
    RewriteRedisKafka(prefix, config, clock);
    RewriteData(prefix, config, clock);
    RewriteDatasource(prefix, config, clock);
    if MongoRequested(config) {
      PutGetsValue(Get(config, "data").value.entries, "mongodb", Tree(MongoPlaceholders()));
    }
  }

  /** `createTerraformVars` fails exactly when `SynthesisError` says, with
      that exception. */
  lemma SynthesizeOutcome(config: seq<Entry>, withToken: bool, env: map<string, string>,
                          location: string, resourceGroup: string, clock: Clock)
    ensures match Synthesize(config, withToken, env, location, resourceGroup, clock)
      case Err(e) => SynthesisError(config) == Some(e)
      case Ok(_) => SynthesisError(config) == None
  {
    ServicesThenConnection(HeadBlocks(withToken, env, location, resourceGroup), config, clock);
  }

  /** The two phases of synthesis after any head: the helpers' failure, or
      else the connection lines' failure, is the one `SynthesisError` names. */
  lemma ServicesThenConnection(prefix: seq<Block>, config: seq<Entry>, clock: Clock)
    ensures match Services(Draft(prefix, config), clock)
      case Err(e) => SynthesisError(config) == Some(e)
      case Ok(s) =>
        match ConnectionLines(s.config)
        case Err(e) => SynthesisError(config) == Some(e)
        case Ok(_) => SynthesisError(config) == None
  {
    ServicesOutcome(prefix, config, clock);
    if Services(Draft(prefix, config), clock).Ok? {
      ConnectionAfterServices(prefix, config, clock);
    }
  }

  /** Once the helpers succeed, the connection lines of the rewritten
      configuration fail exactly as the original's shape determines. */
  lemma ConnectionAfterServices(prefix: seq<Block>, config: seq<Entry>, clock: Clock)
    requires Services(Draft(prefix, config), clock).Ok?
    requires !NonMap(Get(config, "data")) && !NonMap(Get(config, "datasource"))
    ensures match ConnectionLines(Services(Draft(prefix, config), clock).value.config)
      case Err(e) => SynthesisError(config) == Some(e)
      case Ok(_) => SynthesisError(config) == None
  {
    ServicesRewritten(prefix, config, clock);
    ConnectionOutcome(Services(Draft(prefix, config), clock).value.config);
  }

  // ---------------------------------------------------------------------
  // The layout of terraform.tfvars

  lemma {:induction false} ServiceBlocksShape(ds: seq<Dependency>, clock: Clock)
    ensures |ServiceBlocks(ds, clock)| == |ds|
    ensures forall i :: 0 <= i < |ds| ==> ServiceBlocks(ds, clock)[i] == ServiceBlock(ds[i], StampOf(clock, ds[i]))
  {
    if ds != [] {
      ServiceBlocksShape(ds[..|ds| - 1], clock);
    }
  }

  /** The blocks of the file: the head, one block per service in `ds`, the
      app block with its empty image, and the connection lines. */
  function Layout(withToken: bool, env: map<string, string>, location: string, resourceGroup: string,
                  ds: seq<Dependency>, clock: Clock, lines: seq<Assignment>): seq<Block>
  {
    HeadBlocks(withToken, env, location, resourceGroup) + ServiceBlocks(ds, clock) +
    [AppBlock(clock.app, ""), ConnectionBlock(lines)]
  }

  /** The whole file is the layout of the detected services, with the
      connection lines read from the rewritten configuration. */
  lemma SynthesizeLayout(config: seq<Entry>, withToken: bool, env: map<string, string>,
                         location: string, resourceGroup: string, clock: Clock)
    requires Synthesize(config, withToken, env, location, resourceGroup, clock).Ok?
    ensures var s := Synthesize(config, withToken, env, location, resourceGroup, clock).value;
      && s.config == Services(Draft(HeadBlocks(withToken, env, location, resourceGroup), config), clock).value.config
      && s.blocks == Layout(withToken, env, location, resourceGroup, Detected(config), clock, ConnectionLines(s.config).value)
  {
    var head := HeadBlocks(withToken, env, location, resourceGroup);
    ServicesLayout(head, config, clock);
    var services := Services(Draft(head, config), clock).value;
    var lines := ConnectionLines(services.config).value;
    assert Synthesize(config, withToken, env, location, resourceGroup, clock)
        == Ok(Draft(services.blocks + [AppBlock(clock.app, "")] + [ConnectionBlock(lines)], services.config));
    TailBlocks(services.blocks, clock.app, lines);
  }

  lemma TailBlocks(blocks: seq<Block>, stamp: nat, lines: seq<Assignment>)
    ensures blocks + [AppBlock(stamp, "")] + [ConnectionBlock(lines)]
         == blocks + [AppBlock(stamp, ""), ConnectionBlock(lines)]
  {
    assert [AppBlock(stamp, "")] + [ConnectionBlock(lines)] == [AppBlock(stamp, ""), ConnectionBlock(lines)];
  }

  /** The authentication block is written exactly in session mode, first;
      the location block follows it (or opens the file in token mode); the
      app block is the last but one. */
  lemma AuthBlockIffSession(withToken: bool, env: map<string, string>, location: string, resourceGroup: string,
                            ds: seq<Dependency>, clock: Clock, lines: seq<Assignment>)
    ensures var bs := Layout(withToken, env, location, resourceGroup, ds, clock, lines);
      && ((exists i :: 0 <= i < |bs| && bs[i].AuthBlock?) <==> !withToken)
      && (!withToken ==> bs[0].AuthBlock?)
      && bs[if withToken then 0 else 1] == LocationBlock(location, resourceGroup)
      && bs[|bs| - 2] == AppBlock(clock.app, "")
  {
    var head := HeadBlocks(withToken, env, location, resourceGroup);
    var sb := ServiceBlocks(ds, clock);
    ServiceBlocksShape(ds, clock);
    var tail := [AppBlock(clock.app, ""), ConnectionBlock(lines)];
    var bs := Layout(withToken, env, location, resourceGroup, ds, clock, lines);
    assert bs == head + sb + tail;
    forall i | 0 <= i < |bs|
      ensures bs[i].AuthBlock? <==> (!withToken && i == 0)
    {
      if i < |head| {
        assert bs[i] == head[i];
      } else if i < |head| + |sb| {
        assert bs[i] == sb[i - |head|];
      } else {
        assert bs[i] == tail[i - |head| - |sb|];
      }
    }
    if !withToken {
      assert bs[0].AuthBlock?;
    }
  }

  /** Every pair of detected services is in strictly increasing rank:
      redis, then kafka, then mongodb, then the one relational store. */
  ghost predicate Ranked(ds: seq<Dependency>)
  {
    forall i, j :: 0 <= i < j < |ds| ==> Rank(ds[i]) < Rank(ds[j])
  }

  /** Appending a service ranked above everything so far keeps the
      sequence ranked; `ys` names the result. */
  lemma RankedExtend(xs: seq<Dependency>, present: bool, x: Dependency) returns (ys: seq<Dependency>)
    requires Ranked(xs)
    requires forall i :: 0 <= i < |xs| ==> Rank(xs[i]) < Rank(x)
    ensures ys == xs + OptionalList(present, x)
    ensures Ranked(ys)
    ensures forall i :: 0 <= i < |ys| ==> Rank(ys[i]) <= Rank(x)
  {
    ys := xs + OptionalList(present, x);
  }

  lemma RankedPieces(redis: bool, kafka: bool, mongo: bool, hasDb: bool, db: Dependency)
    requires Rank(db) == 3
    ensures Ranked(OptionalList(redis, Redis) + OptionalList(kafka, Kafka) + OptionalList(mongo, MongoDb) +
                   OptionalList(hasDb, db))
  {
    var xs := RankedExtend([], redis, Redis);
    assert xs == OptionalList(redis, Redis);
    xs := RankedExtend(xs, kafka, Kafka);
    xs := RankedExtend(xs, mongo, MongoDb);
    xs := RankedExtend(xs, hasDb, db);
  }

  lemma DetectedRanked(config: seq<Entry>)
    ensures Ranked(Detected(config))
  {
    match DatabaseRequested(config)
    case Some(db) =>
      RankedPieces(Has(config, "redis"), Has(config, "kafka"), MongoRequested(config), true, db);
    case None =>
      RankedPieces(Has(config, "redis"), Has(config, "kafka"), MongoRequested(config), false, MySql);
  }

  // ---------------------------------------------------------------------
  // The connection lines read the rewritten configuration

  /** Only `url`, `username` and `password` of a datasource are overwritten. */
  lemma OverwriteEffect(ds: seq<Entry>, url: string, user: string, password: string)
    ensures var o := Overwrite(ds, url, user, password);
      && Get(o, "url") == Some(Scalar(url))
      && Get(o, "username") == Some(Scalar(user))
      && Get(o, "password") == Some(Scalar(password))
      && forall k :: k != "url" && k != "username" && k != "password" ==> Get(o, k) == Get(ds, k)
  {
    var o1 := Put(ds, "url", Scalar(url));
    var o2 := Put(o1, "username", Scalar(user));
    PutGetsValue(ds, "url", Scalar(url));
    PutKeepsOthers(o1, "username", Scalar(user), "url");
    PutKeepsOthers(o2, "password", Scalar(password), "url");
    PutGetsValue(o1, "username", Scalar(user));
    PutKeepsOthers(o2, "password", Scalar(password), "username");
    PutGetsValue(o2, "password", Scalar(password));
    forall k | k != "url" && k != "username" && k != "password"
      ensures Get(Overwrite(ds, url, user, password), k) == Get(ds, k)
    {
      PutKeepsOthers(ds, "url", Scalar(url), k);
      PutKeepsOthers(o1, "username", Scalar(user), k);
      PutKeepsOthers(o2, "password", Scalar(password), k);
    }
  }

  /** A rewritten datasource yields the placeholder URL and credentials,
      not the user's own. */
  lemma DatasourceLinesOfRewrite(c: seq<Entry>, k: Dependency, ds: seq<Entry>)
    requires Get(c, "datasource") == Some(Tree(DatasourceFor(k, ds)))
    ensures DatasourceLines(c) ==
      if k == MySql then
        Ok([Assignment("database_url", MySqlUrl, true), Assignment("database_username", MySqlUser, true),
            Assignment("database_password", MySqlPassword, true)])
      else
        Ok([Assignment("database_url", PostgresUrl, true), Assignment("database_username", PostgresUser, true),
            Assignment("database_password", PostgresPassword, true)])
  {
    var m := DatasourceFor(k, ds);
    var url, user, password :=
      if k == MySql then MySqlUrl else PostgresUrl,
      if k == MySql then MySqlUser else PostgresUser,
      if k == MySql then MySqlPassword else PostgresPassword;
    assert m == Overwrite(ds, url, user, password);
    OverwriteEffect(ds, url, user, password);
    assert QuotedIfPresent(m, "url", "database_url") == [Assignment("database_url", url, true)];
    assert QuotedIfPresent(m, "username", "database_username") == [Assignment("database_username", user, true)];
    assert QuotedIfPresent(m, "password", "database_password") == [Assignment("database_password", password, true)];
    assert [Assignment("database_url", url, true)] + [Assignment("database_username", user, true)] +
           [Assignment("database_password", password, true)]
        == [Assignment("database_url", url, true), Assignment("database_username", user, true),
            Assignment("database_password", password, true)];
  }

  /** A rewritten `redis` yields its three placeholder lines, the port
      unquoted. */
  lemma RedisLinesOfRewrite(c: seq<Entry>)
    requires Get(c, "redis") == Some(Tree(RedisPlaceholders()))
    ensures RedisLines(c) ==
      Ok([Assignment("redis_host", RedisHostRef, true), Assignment("redis_port", RedisPortRef, false),
          Assignment("redis_password", RedisKeyRef, true)])
  {
    var m := RedisPlaceholders();
    assert Get(m[2..], "password") == Some(Scalar(RedisKeyRef));
    assert Get(m[1..], "password") == Some(Scalar(RedisKeyRef));
    assert Get(m[1..], "port") == Some(Scalar(RedisPortRef));
    assert QuotedIfPresent(m, "host", "redis_host") == [Assignment("redis_host", RedisHostRef, true)];
    assert QuotedIfPresent(m, "password", "redis_password") == [Assignment("redis_password", RedisKeyRef, true)];
    assert Show(GetOrNull(m, "port")) == RedisPortRef;
    assert [Assignment("redis_host", RedisHostRef, true)] + [Assignment("redis_port", RedisPortRef, false)] +
           [Assignment("redis_password", RedisKeyRef, true)]
        == [Assignment("redis_host", RedisHostRef, true), Assignment("redis_port", RedisPortRef, false),
            Assignment("redis_password", RedisKeyRef, true)];
  }

  lemma KafkaLinesOfRewrite(c: seq<Entry>)
    requires Get(c, "kafka") == Some(Tree(KafkaPlaceholders()))
    ensures KafkaLines(c) == Ok([Assignment("kafka_bootstrap_servers", KafkaServersRef, true)])
  {
  }

  lemma MongoLinesOfRewrite(c: seq<Entry>, m: seq<Entry>)
    requires Get(c, "data") == Some(Tree(Put(m, "mongodb", Tree(MongoPlaceholders()))))
    ensures MongoLines(c) == Ok([Assignment("mongodb_uri", MongoUriRef, true)])
  {
    PutGetsValue(m, "mongodb", Tree(MongoPlaceholders()));
  }

  /** For a detected relational store, the database lines carry the
      placeholder URL and credentials the rewrite put in, never the user's. */
  lemma DatabaseLinesAfterServices(prefix: seq<Block>, config: seq<Entry>, clock: Clock)
    requires Services(Draft(prefix, config), clock).Ok?
    ensures var c := Services(Draft(prefix, config), clock).value.config;
      && (DatabaseRequested(config) == Some(MySql) ==>
            DatasourceLines(c) ==
              Ok([Assignment("database_url", MySqlUrl, true), Assignment("database_username", MySqlUser, true),
                  Assignment("database_password", MySqlPassword, true)]))
      && (DatabaseRequested(config) == Some(PostgreSql) ==>
            DatasourceLines(c) ==
              Ok([Assignment("database_url", PostgresUrl, true), Assignment("database_username", PostgresUser, true),
                  Assignment("database_password", PostgresPassword, true)]))
  {
    RewriteDatasource(prefix, config, clock);
    match DatabaseRequested(config) {
      case Some(k) =>
        DatasourceLinesOfRewrite(Services(Draft(prefix, config), clock).value.config, k,
                                 Get(config, "datasource").value.entries);
      case None =>
    }
  }

  /** A detected Redis, Kafka or MongoDB yields the placeholder lines. */
  lemma ServiceLinesAfterServices(prefix: seq<Block>, config: seq<Entry>, clock: Clock)
    requires Services(Draft(prefix, config), clock).Ok?
    ensures var c := Services(Draft(prefix, config), clock).value.config;
      && (Has(config, "redis") ==>
            RedisLines(c) ==
              Ok([Assignment("redis_host", RedisHostRef, true), Assignment("redis_port", RedisPortRef, false),
                  Assignment("redis_password", RedisKeyRef, true)]))
      && (Has(config, "kafka") ==> KafkaLines(c) == Ok([Assignment("kafka_bootstrap_servers", KafkaServersRef, true)]))
      && (MongoRequested(config) ==> MongoLines(c) == Ok([Assignment("mongodb_uri", MongoUriRef, true)]))
  {
    var c := Services(Draft(prefix, config), clock).value.config;
    RewriteRedisKafka(prefix, config, clock);
    RewriteData(prefix, config, clock);
    if Has(config, "redis") {
      RedisLinesOfRewrite(c);
    }
    if Has(config, "kafka") {
      KafkaLinesOfRewrite(c);
    }
    if MongoRequested(config) {
      MongoLinesOfRewrite(c, Get(config, "data").value.entries);
    }
  }
}
