/** `updateApplicationYmlWithTerraformOutputs` after a successful apply: the
    parsed `terraform output -json` object is mapped onto the connection
    settings of the application by the `update*Config` builders. Each builder
    fills a fresh map and drops it; here the maps are returned. */
module Reconcile {
  import opened Wrappers
  import opened ConfigTree

  /** How a builder reads one output: `Raw` is what the code does (the whole
      output object `terraform output -json` gives for a name), `ValueField`
      reads that object's `value`, which is what the settings need. */
  datatype Reader = Raw | ValueField

  function Read(reader: Reader, outputs: seq<Entry>, name: string): Value
  {
    match reader
    case Raw => GetOrNull(outputs, name)
    case ValueField =>
      match GetOrNull(outputs, name)
      case Tree(es) => GetOrNull(es, "value")
      case v => v
  }

  /** The maps the four builders fill; `None` for a builder that does not run. */
  datatype Reconciliation = Reconciliation(
    redis: Option<map<string, Value>>,
    kafka: Option<map<string, Value>>,
    mongodb: Option<map<string, Value>>,
    datasource: Option<map<string, Value>>)

  function RedisSettings(outputs: seq<Entry>, reader: Reader): map<string, Value>
  {
    map["host" := Read(reader, outputs, "redis_hostname"),
        "port" := Read(reader, outputs, "redis_ssl_port"),
        "password" := Read(reader, outputs, "redis_primary_access_key")]
  }

  function KafkaSettings(outputs: seq<Entry>, reader: Reader): map<string, Value>
  {
    map["bootstrap-servers" := Read(reader, outputs, "kafka_connection_string")]
  }

  function MongoSettings(outputs: seq<Entry>, reader: Reader): map<string, Value>
  {
    map["uri" := Read(reader, outputs, "mongodb_connection_string")]
  }

  /** The JDBC URL string concatenation builds: `String.valueOf` of each part. */
  function JdbcUrl(prefix: string, server: Value, database: Value): Value
  {
    Scalar(prefix + Show(server) + "/" + Show(database))
  }

  /** The datasource builder: MySQL when its server output exists, else
      PostgreSQL when its server output exists, else nothing. */
  function DatasourceSettings(outputs: seq<Entry>, reader: Reader): map<string, Value>
  {
    if Has(outputs, "mysql_server_fqdn") then
      map["url" := JdbcUrl("jdbc:mysql://", Read(reader, outputs, "mysql_server_fqdn"),
                           Read(reader, outputs, "mysql_database_name")),
          "username" := Read(reader, outputs, "mysql_admin_username"),
          "password" := Read(reader, outputs, "mysql_admin_password")]
    else if Has(outputs, "postgres_server_fqdn") then
      map["url" := JdbcUrl("jdbc:postgresql://", Read(reader, outputs, "postgres_server_fqdn"),
                           Read(reader, outputs, "postgres_database_name")),
          "username" := Read(reader, outputs, "postgres_admin_username"),
          "password" := Read(reader, outputs, "postgres_admin_password")]
    else map[]
  }

  /** Each builder runs exactly when its trigger output is present. */
  function ReconcileWith(outputs: seq<Entry>, reader: Reader): (r: Reconciliation)
    ensures r.redis.Some? <==> Has(outputs, "redis_hostname")
    ensures r.kafka.Some? <==> Has(outputs, "kafka_connection_string")
    ensures r.mongodb.Some? <==> Has(outputs, "mongodb_connection_string")
    ensures r.datasource.Some? <==>
            Has(outputs, "mysql_server_fqdn") || Has(outputs, "postgres_server_fqdn")
  {
    Reconciliation(
      if Has(outputs, "redis_hostname") then Some(RedisSettings(outputs, reader)) else None,
      if Has(outputs, "kafka_connection_string") then Some(KafkaSettings(outputs, reader)) else None,
      if Has(outputs, "mongodb_connection_string") then Some(MongoSettings(outputs, reader)) else None,
      if Has(outputs, "mysql_server_fqdn") || Has(outputs, "postgres_server_fqdn")
      then Some(DatasourceSettings(outputs, reader)) else None)
  }

  /** The builders as the code is written. */
  function ReconcileAsWritten(outputs: seq<Entry>): Reconciliation
  {
    ReconcileWith(outputs, Raw)
  }

  /** The builders reading each output's value; the session run uses these. */
  function ReconcileOutputs(outputs: seq<Entry>): Reconciliation
  {
    ReconcileWith(outputs, ValueField)
  }

  /** What `terraform output -json` gives for one output. */
  function OutputObject(value: Value): Value
  {
    Tree([Entry("sensitive", Scalar("false")), Entry("type", Scalar("string")), Entry("value", value)])
  }

  /** MySQL wins when both database servers are among the outputs. */
  lemma MySqlPreferred(outputs: seq<Entry>, reader: Reader)
    requires Has(outputs, "mysql_server_fqdn")
    ensures var ds := ReconcileWith(outputs, reader).datasource;
            ds.Some? && "url" in ds.value &&
            ds.value["url"] == JdbcUrl("jdbc:mysql://", Read(reader, outputs, "mysql_server_fqdn"),
                                       Read(reader, outputs, "mysql_database_name"))
  {
  }

  /** The value field of an output object is the output's value. */
  lemma OutputObjectValue(v: Value)
    ensures Get(OutputObject(v).entries, "value") == Some(v)
  {
    var es := OutputObject(v).entries;
    assert |es[0].key| == 9 && |es[1].key| == 4;
    assert Get(es, "value") == Get(es[1..], "value") == Get(es[1..][1..], "value");
    assert es[1..][1..] == [Entry("value", v)];
  }

  /** Reading the value field, the settings carry the plain output values:
      the MySQL URL is `jdbc:mysql://<server>/<database>` and the user and
      password are the outputs' own values. */
  lemma CorrectedDatasource(outputs: seq<Entry>, server: string, database: string,
                            user: Value, password: Value)
    requires Get(outputs, "mysql_server_fqdn") == Some(OutputObject(Scalar(server)))
    requires Get(outputs, "mysql_database_name") == Some(OutputObject(Scalar(database)))
    requires Get(outputs, "mysql_admin_username") == Some(OutputObject(user))
    requires Get(outputs, "mysql_admin_password") == Some(OutputObject(password))
    ensures ReconcileOutputs(outputs).datasource ==
            Some(map["url" := Scalar("jdbc:mysql://" + server + "/" + database),
                     "username" := user, "password" := password])
  {
    OutputObjectValue(Scalar(server));
    OutputObjectValue(Scalar(database));
    OutputObjectValue(user);
    OutputObjectValue(password);
  }

  /** Reading the value field, the Redis settings are the outputs' values. */
  lemma CorrectedRedis(outputs: seq<Entry>, host: Value, port: Value, key: Value)
    requires Get(outputs, "redis_hostname") == Some(OutputObject(host))
    requires Get(outputs, "redis_ssl_port") == Some(OutputObject(port))
    requires Get(outputs, "redis_primary_access_key") == Some(OutputObject(key))
    ensures ReconcileOutputs(outputs).redis == Some(map["host" := host, "port" := port, "password" := key])
  {
    OutputObjectValue(host);
    OutputObjectValue(port);
    OutputObjectValue(key);
  }

  /** As written, the URL prints the whole output object where the server
      name belongs: it reads `jdbc:mysql://{...`, never the URL the value
      field gives, whatever the server name (short of one starting with `{`). */
  lemma AsWrittenUrlEmbedsObjects(outputs: seq<Entry>, server: string)
    requires Get(outputs, "mysql_server_fqdn") == Some(OutputObject(Scalar(server)))
    requires server == [] || server[0] != '{'
    ensures var written := ReconcileAsWritten(outputs).datasource;
            var intended := ReconcileOutputs(outputs).datasource;
            written.Some? && intended.Some? && "url" in written.value && "url" in intended.value &&
            written.value["url"].text[..14] == "jdbc:mysql://{" &&
            written.value["url"] != intended.value["url"]
  {
    MySqlPreferred(outputs, Raw);
    MySqlPreferred(outputs, ValueField);
    OutputObjectValue(Scalar(server));
    var prefix := "jdbc:mysql://";
    var printed := Show(OutputObject(Scalar(server)));
    assert printed[0] == '{';
    var written := JdbcUrl(prefix, Read(Raw, outputs, "mysql_server_fqdn"),
                           Read(Raw, outputs, "mysql_database_name")).text;
    assert Read(Raw, outputs, "mysql_server_fqdn") == OutputObject(Scalar(server));
    assert written == prefix + printed + "/" + Show(Read(Raw, outputs, "mysql_database_name"));
    assert written[13] == '{';
    assert written[..14] == prefix + "{";
    assert Read(ValueField, outputs, "mysql_server_fqdn") == Scalar(server);
    var intended := JdbcUrl(prefix, Scalar(server), Read(ValueField, outputs, "mysql_database_name")).text;
    assert intended == prefix + server + "/" + Show(Read(ValueField, outputs, "mysql_database_name"));
    assert intended[13] != '{';
  }
}
