/** Variable synthesis (`TerraformService.createTerraformVars` and the four
    `process*Config` helpers): the application configuration is classified
    into the services it uses, each detected service contributes one block
    of `name = value` lines to `terraform.tfvars`, and the configuration is
    rewritten in place to point at attributes of the resources Terraform
    will create. */
module TerraformVars {
  import opened Wrappers
  import opened Text
  import opened ConfigTree

  /** One `System.currentTimeMillis()` reading per resource name, in the
      order the source takes them. */
  datatype Clock = Clock(redis: nat, kafka: nat, mongodb: nat, database: nat, app: nat)

  /** The service kinds a configuration can ask for, in emission order. */
  datatype Dependency = Redis | Kafka | MongoDb | MySql | PostgreSql

  function Rank(d: Dependency): nat
  {
    match d
    case Redis => 0
    case Kafka => 1
    case MongoDb => 2
    case MySql => 3
    case PostgreSql => 3
  }

  /** Prefix of the variable name and of the generated resource name. */
  function ResourcePrefix(d: Dependency): string
  {
    match d
    case Redis => "redis"
    case Kafka => "kafka"
    case MongoDb => "mongodb"
    case MySql => "mysql"
    case PostgreSql => "postgres"
  }

  function Title(d: Dependency): string
  {
    match d
    case Redis => "Redis"
    case Kafka => "Kafka"
    case MongoDb => "MongoDB"
    case MySql => "MySQL"
    case PostgreSql => "PostgreSQL"
  }

  /** A line of the connection-information section. */
  datatype Assignment = Assignment(name: string, value: string, quoted: bool)

  /** A section of `terraform.tfvars`, by what it is made of; its text,
      opened by a `#` comment, is `BlockText`. */
  datatype Block =
    | AuthBlock(clientId: string, clientSecret: string, tenantId: string, subscriptionId: string)
    | LocationBlock(location: string, resourceGroup: string)
    | ServiceBlock(dependency: Dependency, stamp: nat)
    | AppBlock(appStamp: nat, image: string)
    | ConnectionBlock(lines: seq<Assignment>)

  function BlockText(b: Block): string
  {
    match b
    case AuthBlock(clientId, clientSecret, tenantId, subscriptionId) =>
      "# Azure Authentication\n" +
      "client_id       = \"" + clientId + "\"\n" +
      "client_secret   = \"" + clientSecret + "\"\n" +
      "tenant_id       = \"" + tenantId + "\"\n" +
      "subscription_id = \"" + subscriptionId + "\"\n\n"
    case LocationBlock(location, resourceGroup) =>
      "# Azure Configuration\n" +
      "location        = \"" + location + "\"\n" +
      "resource_group  = \"" + resourceGroup + "\"\n\n"
    case ServiceBlock(d, stamp) =>
      "# " + Title(d) + " Configuration\n" +
      ResourcePrefix(d) + "_name = \"" + ResourcePrefix(d) + "-" + NatToString(stamp) + "\"\n\n"
    case AppBlock(stamp, image) => AppHead(stamp) + ImageLine(image) + "\n"
    case ConnectionBlock(lines) => "\n# Database and Service Connection Information\n" + RenderAssignments(lines)
  }

  /** The image line that `updateContainerImage` later fills in. */
  function ImageLine(image: string): string
  {
    "container_image = \"" + image + "\""
  }

  const Placeholder: string := ImageLine("")

  function AppHead(stamp: nat): string
  {
    "# App Service Configuration\n" + "app_name = \"app-" + NatToString(stamp) + "\"\n"
  }

  function RenderAssignment(a: Assignment): string
  {
    a.name + " = " + (if a.quoted then "\"" + a.value + "\"" else a.value) + "\n"
  }

  function RenderAssignments(lines: seq<Assignment>): string
  {
    if lines == [] then ""
    else RenderAssignments(lines[..|lines| - 1]) + RenderAssignment(lines[|lines| - 1])
  }

  /** The whole `terraform.tfvars` text for a sequence of blocks. */
  function RenderAll(bs: seq<Block>): string
  {
    if bs == [] then "" else RenderAll(bs[..|bs| - 1]) + BlockText(bs[|bs| - 1])
  }

  // ---------------------------------------------------------------------
  // Placeholders written into the configuration: references to attributes
  // of the resources Terraform will create.

  const RedisHostRef: string := "azurerm_redis_cache.redis.hostname"
  const RedisPortRef: string := "azurerm_redis_cache.redis.ssl_port"
  const RedisKeyRef: string := "azurerm_redis_cache.redis.primary_access_key"
  const KafkaServersRef: string := "azurerm_eventhub_namespace.kafka.default_primary_connection_string"
  const MongoUriRef: string := "azurerm_cosmosdb_account.mongodb.connection_strings[0]"
  const MySqlUrl: string := "jdbc:mysql://azurerm_mysql_server.mysql.fqdn/azurerm_mysql_database.mysql.name"
  const MySqlUser: string := "mysql_admin_username"
  const MySqlPassword: string := "mysql_admin_password"
  const PostgresUrl: string := "jdbc:postgresql://azurerm_postgresql_server.postgres.fqdn/azurerm_postgresql_database.postgres.name"
  const PostgresUser: string := "postgres_admin_username"
  const PostgresPassword: string := "postgres_admin_password"

  function RedisPlaceholders(): seq<Entry>
  {
    [Entry("host", Scalar(RedisHostRef)), Entry("port", Scalar(RedisPortRef)), Entry("password", Scalar(RedisKeyRef))]
  }

  function KafkaPlaceholders(): seq<Entry>
  {
    [Entry("bootstrap-servers", Scalar(KafkaServersRef))]
  }

  function MongoPlaceholders(): seq<Entry>
  {
    [Entry("uri", Scalar(MongoUriRef))]
  }

  /** The datasource with `url`, `username` and `password` overwritten. */
  function Overwrite(ds: seq<Entry>, url: string, user: string, password: string): seq<Entry>
  {
    Put(Put(Put(ds, "url", Scalar(url)), "username", Scalar(user)), "password", Scalar(password))
  }

  function DatasourceFor(d: Dependency, ds: seq<Entry>): seq<Entry>
  {
    if d == MySql then Overwrite(ds, MySqlUrl, MySqlUser, MySqlPassword)
    else Overwrite(ds, PostgresUrl, PostgresUser, PostgresPassword)
  }

  // ---------------------------------------------------------------------
  // The steps of createTerraformVars, on the builder's blocks and the
  // configuration map as they stand.

  /** A cast of a non-map value to `Map` (ClassCastException) or a method
      call on a `null` map (NullPointerException), at the named path. */
  datatype ConfigError = ClassCast(path: string) | NullPointer(path: string)

  /** The blocks appended to the builder so far and the configuration map. */
  datatype Draft = Draft(blocks: seq<Block>, config: seq<Entry>)

  /** `System.getenv(k)` appended to a `StringBuilder`. */
  function EnvText(env: map<string, string>, k: string): string
  {
    if k in env then env[k] else "null"
  }

  /** The authentication section (session mode only) and the location section. */
  function HeadBlocks(withToken: bool, env: map<string, string>, location: string, resourceGroup: string): seq<Block>
  {
    (if withToken then []
     else [AuthBlock(EnvText(env, "ARM_CLIENT_ID"), EnvText(env, "ARM_CLIENT_SECRET"),
                     EnvText(env, "ARM_TENANT_ID"), EnvText(env, "ARM_SUBSCRIPTION_ID"))]) +
    [LocationBlock(location, resourceGroup)]
  }

  function RedisStep(d: Draft, stamp: nat): Draft
  {
    if Has(d.config, "redis") then
      Draft(d.blocks + [ServiceBlock(Redis, stamp)], Put(d.config, "redis", Tree(RedisPlaceholders())))
    else d
  }

  function KafkaStep(d: Draft, stamp: nat): Draft
  {
    if Has(d.config, "kafka") then
      Draft(d.blocks + [ServiceBlock(Kafka, stamp)], Put(d.config, "kafka", Tree(KafkaPlaceholders())))
    else d
  }

  /** An absent or null `data` falls back to a fresh empty map, which has no
      `mongodb` key. */
  function MongoStep(d: Draft, stamp: nat): Result<Draft, ConfigError>
  {
    match Get(d.config, "data")
    case Some(Scalar(_)) => Err(ClassCast("data"))
    case Some(Tree(m)) =>
      if Has(m, "mongodb") then
        Ok(Draft(d.blocks + [ServiceBlock(MongoDb, stamp)],
                 Put(d.config, "data", Tree(Put(m, "mongodb", Tree(MongoPlaceholders()))))))
      else Ok(d)
    case _ => Ok(d)
  }

  /** `Optional.ofNullable(datasource.get("url")).map(Object::toString).orElse("")`. */
  function UrlText(ds: seq<Entry>): string
  {
    match Get(ds, "url")
    case None => ""
    case Some(Null) => ""
    case Some(v) => Show(v)
  }

  /** MySQL is recognised before PostgreSQL; the datasource is rewritten
      only when one of them is. */
  function DatabaseStep(d: Draft, stamp: nat): Result<Draft, ConfigError>
  {
    match Get(d.config, "datasource")
    case Some(Scalar(_)) => Err(ClassCast("datasource"))
    case Some(Tree(ds)) =>
      var url := UrlText(ds);
      if Contains(url, "mysql") then
        Ok(Draft(d.blocks + [ServiceBlock(MySql, stamp)], Put(d.config, "datasource", Tree(DatasourceFor(MySql, ds)))))
      else if Contains(url, "postgresql") then
        Ok(Draft(d.blocks + [ServiceBlock(PostgreSql, stamp)], Put(d.config, "datasource", Tree(DatasourceFor(PostgreSql, ds)))))
      else Ok(d)
    case _ => Ok(d)
  }

  function QuotedIfPresent(m: seq<Entry>, key: string, name: string): seq<Assignment>
  {
    if Has(m, key) then [Assignment(name, Show(GetOrNull(m, key)), true)] else []
  }

  /** The sub-map under `key`: absent is fine, anything but a map fails the
      way the cast or the `containsKey` call fails. */
  function SubMap(c: seq<Entry>, key: string, path: string): Result<Option<seq<Entry>>, ConfigError>
  {
    match Get(c, key)
    case None => Ok(None)
    case Some(Null) => Err(NullPointer(path))
    case Some(Scalar(_)) => Err(ClassCast(path))
    case Some(Tree(m)) => Ok(Some(m))
  }

  function DatasourceLines(c: seq<Entry>): Result<seq<Assignment>, ConfigError>
  {
    match SubMap(c, "datasource", "datasource")
    case Err(e) => Err(e)
    case Ok(None) => Ok([])
    case Ok(Some(m)) =>
      Ok(QuotedIfPresent(m, "url", "database_url") +
         QuotedIfPresent(m, "username", "database_username") +
         QuotedIfPresent(m, "password", "database_password"))
  }

  function MongoLines(c: seq<Entry>): Result<seq<Assignment>, ConfigError>
  {
    match SubMap(c, "data", "data")
    case Err(e) => Err(e)
    case Ok(None) => Ok([])
    case Ok(Some(d)) =>
      match SubMap(d, "mongodb", "data.mongodb")
      case Err(e) => Err(e)
      case Ok(None) => Ok([])
      case Ok(Some(m)) => Ok(QuotedIfPresent(m, "uri", "mongodb_uri"))
  }

  /** `redis_port` is written without quotes. */
  function RedisLines(c: seq<Entry>): Result<seq<Assignment>, ConfigError>
  {
    match SubMap(c, "redis", "redis")
    case Err(e) => Err(e)
    case Ok(None) => Ok([])
    case Ok(Some(m)) =>
      Ok(QuotedIfPresent(m, "host", "redis_host") +
         (if Has(m, "port") then [Assignment("redis_port", Show(GetOrNull(m, "port")), false)] else []) +
         QuotedIfPresent(m, "password", "redis_password"))
  }

  function KafkaLines(c: seq<Entry>): Result<seq<Assignment>, ConfigError>
  {
    match SubMap(c, "kafka", "kafka")
    case Err(e) => Err(e)
    case Ok(None) => Ok([])
    case Ok(Some(m)) => Ok(QuotedIfPresent(m, "bootstrap-servers", "kafka_bootstrap_servers"))
  }

  /** The connection-information lines, read from the configuration after
      it has been rewritten: datasource, MongoDB, Redis, Kafka, the first
      failing cast or null dereference aborting the whole file. */
  function ConnectionLines(c: seq<Entry>): Result<seq<Assignment>, ConfigError>
  {
    match DatasourceLines(c)
    case Err(e) => Err(e)
    case Ok(ds) =>
      match MongoLines(c)
      case Err(e) => Err(e)
      case Ok(mongo) =>
        match RedisLines(c)
        case Err(e) => Err(e)
        case Ok(redis) =>
          match KafkaLines(c)
          case Err(e) => Err(e)
          case Ok(kafka) => Ok(ds + mongo + redis + kafka)
  }

  /** The four `process*Config` calls in the source's order. */
  function Services(d: Draft, clock: Clock): Result<Draft, ConfigError>
  {
    var early := KafkaStep(RedisStep(d, clock.redis), clock.kafka);
    match MongoStep(early, clock.mongodb)
    case Err(e) => Err(e)
    case Ok(mongo) => DatabaseStep(mongo, clock.database)
  }

  /** The whole of `createTerraformVars`: the blocks of `terraform.tfvars`
      and the rewritten configuration, or the exception that aborts it. */
  function Synthesize(config: seq<Entry>, withToken: bool, env: map<string, string>,
                      location: string, resourceGroup: string, clock: Clock): Result<Draft, ConfigError>
  {
    match Services(Draft(HeadBlocks(withToken, env, location, resourceGroup), config), clock)
    case Err(e) => Err(e)
    case Ok(s) =>
      match ConnectionLines(s.config)
      case Err(e) => Err(e)
      case Ok(lines) => Ok(Draft(s.blocks + [AppBlock(clock.app, "")] + [ConnectionBlock(lines)], s.config))
  }

  // ---------------------------------------------------------------------
  // The imperative form: a StringBuilder and a map updated in place.
  // `written` is the ghost record of the blocks already in the builder.

  lemma RenderAllAppend(bs: seq<Block>, b: Block)
    ensures RenderAll(bs + [b]) == RenderAll(bs) + BlockText(b)
  {
    assert (bs + [b])[..|bs|] == bs;
  }

  method ProcessRedisConfig(config: seq<Entry>, vars: string, stamp: nat, ghost written: seq<Block>)
    returns (config': seq<Entry>, vars': string)
    requires vars == RenderAll(written)
    ensures var s := RedisStep(Draft(written, config), stamp);
      config' == s.config && vars' == RenderAll(s.blocks)
  {
    config', vars' := config, vars;
    if Has(config, "redis") {
      RenderAllAppend(written, ServiceBlock(Redis, stamp));
      vars' := vars' + BlockText(ServiceBlock(Redis, stamp));
      config' := Put(config', "redis", Tree(RedisPlaceholders()));
    }
  }

  method ProcessKafkaConfig(config: seq<Entry>, vars: string, stamp: nat, ghost written: seq<Block>)
    returns (config': seq<Entry>, vars': string)
    requires vars == RenderAll(written)
    ensures var s := KafkaStep(Draft(written, config), stamp);
      config' == s.config && vars' == RenderAll(s.blocks)
  {
    config', vars' := config, vars;
    if Has(config, "kafka") {
      RenderAllAppend(written, ServiceBlock(Kafka, stamp));
      vars' := vars' + BlockText(ServiceBlock(Kafka, stamp));
      config' := Put(config', "kafka", Tree(KafkaPlaceholders()));
    }
  }

  method ProcessMongoDBConfig(config: seq<Entry>, vars: string, stamp: nat, ghost written: seq<Block>)
    returns (r: Result<(seq<Entry>, string), ConfigError>)
    requires vars == RenderAll(written)
    ensures match MongoStep(Draft(written, config), stamp)
      case Err(e) => r == Err(e)
      case Ok(s) => r == Ok((s.config, RenderAll(s.blocks)))
  {
    var dataConfig: seq<Entry>;
    match Get(config, "data") {
      case Some(Scalar(_)) =>
        return Err(ClassCast("data"));
      case Some(Tree(m)) =>
        dataConfig := m;
      case _ =>
        dataConfig := [];
    }
    var vars' := vars;
    var config' := config;
    if Has(dataConfig, "mongodb") {
      RenderAllAppend(written, ServiceBlock(MongoDb, stamp));
      vars' := vars' + BlockText(ServiceBlock(MongoDb, stamp));
      dataConfig := Put(dataConfig, "mongodb", Tree(MongoPlaceholders()));
      config' := Put(config', "data", Tree(dataConfig));
    }
    r := Ok((config', vars'));
  }

  method ProcessDatabaseConfig(config: seq<Entry>, vars: string, stamp: nat, ghost written: seq<Block>)
    returns (r: Result<(seq<Entry>, string), ConfigError>)
    requires vars == RenderAll(written)
    ensures match DatabaseStep(Draft(written, config), stamp)
      case Err(e) => r == Err(e)
      case Ok(s) => r == Ok((s.config, RenderAll(s.blocks)))
  {
    var datasource: seq<Entry>;
    match Get(config, "datasource") {
      case Some(Scalar(_)) =>
        return Err(ClassCast("datasource"));
      case Some(Tree(m)) =>
        datasource := m;
      case _ =>
        datasource := [];
    }
    var url := UrlText(datasource);
    var vars' := vars;
    var config' := config;
    if Contains(url, "mysql") {
      RenderAllAppend(written, ServiceBlock(MySql, stamp));
      vars' := vars' + BlockText(ServiceBlock(MySql, stamp));
      datasource := Put(datasource, "url", Scalar(MySqlUrl));
      datasource := Put(datasource, "username", Scalar(MySqlUser));
      datasource := Put(datasource, "password", Scalar(MySqlPassword));
      config' := Put(config', "datasource", Tree(datasource));
    } else if Contains(url, "postgresql") {
      RenderAllAppend(written, ServiceBlock(PostgreSql, stamp));
      vars' := vars' + BlockText(ServiceBlock(PostgreSql, stamp));
      datasource := Put(datasource, "url", Scalar(PostgresUrl));
      datasource := Put(datasource, "username", Scalar(PostgresUser));
      datasource := Put(datasource, "password", Scalar(PostgresPassword));
      config' := Put(config', "datasource", Tree(datasource));
    }
    r := Ok((config', vars'));
  }

  /** The four `process*Config` calls on the shared builder and map. */
  method ProcessServices(config: seq<Entry>, vars: string, clock: Clock, ghost written: seq<Block>)
    returns (r: Result<(seq<Entry>, string), ConfigError>)
    requires vars == RenderAll(written)
    ensures match Services(Draft(written, config), clock)
      case Err(e) => r == Err(e)
      case Ok(s) => r == Ok((s.config, RenderAll(s.blocks)))
  {
    ghost var d := RedisStep(Draft(written, config), clock.redis);
    var cfg, out := ProcessRedisConfig(config, vars, clock.redis, written);
    cfg, out := ProcessKafkaConfig(cfg, out, clock.kafka, d.blocks);
    d := KafkaStep(d, clock.kafka);
    var mongo := ProcessMongoDBConfig(cfg, out, clock.mongodb, d.blocks);
    if mongo.Err? {
      return Err(mongo.error);
    }
    d := MongoStep(d, clock.mongodb).value;
    r := ProcessDatabaseConfig(mongo.value.0, mongo.value.1, clock.database, d.blocks);
  }

  /** What `createTerraformVars` produces: the `terraform.tfvars` text and
      the rewritten configuration (which the source then dumps as YAML). */
  datatype VarsFile = VarsFile(text: string, config: seq<Entry>)

  /** The authentication (session mode only) and location sections. */
  method AppendHead(withToken: bool, env: map<string, string>, location: string, resourceGroup: string)
    returns (vars: string)
    ensures vars == RenderAll(HeadBlocks(withToken, env, location, resourceGroup))
  {
    var loc := LocationBlock(location, resourceGroup);
    vars := "";
    ghost var written: seq<Block> := [];
    if !withToken {
      var auth := AuthBlock(EnvText(env, "ARM_CLIENT_ID"), EnvText(env, "ARM_CLIENT_SECRET"),
                            EnvText(env, "ARM_TENANT_ID"), EnvText(env, "ARM_SUBSCRIPTION_ID"));
      RenderAllAppend(written, auth);
      vars := vars + BlockText(auth);
      written := written + [auth];
    }
    RenderAllAppend(written, loc);
    vars := vars + BlockText(loc);
    written := written + [loc];
    assert written == HeadBlocks(withToken, env, location, resourceGroup);
  }

  method CreateTerraformVars(config: seq<Entry>, withToken: bool, env: map<string, string>,
                             location: string, resourceGroup: string, clock: Clock)
    returns (r: Result<VarsFile, ConfigError>)
    ensures match Synthesize(config, withToken, env, location, resourceGroup, clock)
      case Err(e) => r == Err(e)
      case Ok(s) => r == Ok(VarsFile(RenderAll(s.blocks), s.config))
  {
    var vars := AppendHead(withToken, env, location, resourceGroup);
    ghost var head := HeadBlocks(withToken, env, location, resourceGroup);
    var services := ProcessServices(config, vars, clock, head);
    if services.Err? {
      return Err(services.error);
    }
    ghost var written := Services(Draft(head, config), clock).value.blocks;
    var cfg;
    cfg, vars := services.value.0, services.value.1;

    var app := AppBlock(clock.app, "");
    RenderAllAppend(written, app);
    vars := vars + BlockText(app);
    written := written + [app];

    var lines := ConnectionLines(cfg);
    if lines.Err? {
      return Err(lines.error);
    }
    var connection := ConnectionBlock(lines.value);
    RenderAllAppend(written, connection);
    vars := vars + BlockText(connection);
    r := Ok(VarsFile(vars, cfg));
  }
}
