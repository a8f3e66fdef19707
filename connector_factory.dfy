/**
 * `ConnectorFactory`: a connector of the requested type built from a config,
 * or nothing when the type is not supported or the connector's constructor
 * raises.
 */
module Factory {
  import opened Wrappers
  import opened Values
  import KafkaConnect
  import MqConnect
  import DbConnect

  datatype Kind = Kafka | Mq | Db

  /** The connector type `create_connector` recognises, compared after lower-casing. */
  function KindOf(connectorType: string): (k: Option<Kind>)
    ensures k == Some(Kafka) <==> Lower(connectorType) == "kafka"
    ensures k == Some(Mq) <==> Lower(connectorType) == "mq"
    ensures k == Some(Db) <==> Lower(connectorType) == "db"
  {
    var t := Lower(connectorType);
    if t == "kafka" then Some(Kafka)
    else if t == "mq" then Some(Mq)
    else if t == "db" then Some(Db)
    else None
  }

  /** The type is matched case-insensitively. */
  lemma KindCaseInsensitive(connectorType: string)
    ensures KindOf(connectorType) == KindOf(Lower(connectorType))
  {
    LowerIdempotent(connectorType);
  }

  /** Whether the connector's constructor accepts the config rather than raising. */
  predicate Constructs(k: Kind, config: Value) {
    match k
    case Kafka => KafkaConnect.SettingsOf(config).Success?
    case Mq => MqConnect.SettingsOf(config).Success?
    case Db => DbConnect.SettingsOf(config).Success?
  }

  /** The kind of connector `create_connector` returns, if any: an unsupported type and a raising constructor both give nothing. */
  function Created(connectorType: string, config: Value): (r: Option<Kind>)
    ensures r.Some? <==> KindOf(connectorType).Some? && Constructs(KindOf(connectorType).value, config)
    ensures r.Some? ==> r == KindOf(connectorType)
  {
    match KindOf(connectorType)
    case None => None
    case Some(k) => if Constructs(k, config) then Some(k) else None
  }

  /** Any dict makes a Kafka connector. */
  lemma KafkaFromAnyDict(connectorType: string, fields: map<string, Value>)
    requires Lower(connectorType) == "kafka"
    ensures Created(connectorType, Object(fields)) == Some(Kafka)
  {
  }

  /** A config that is not a dict makes no connector of any type. */
  lemma NonDictMakesNothing(connectorType: string, config: Value)
    requires !config.Object?
    ensures Created(connectorType, config) == None
  {
    match KindOf(connectorType)
    case None =>
    case Some(k) =>
      assert !Constructs(k, config);
  }

  /** The MQ and DB connectors need their type setting, when present, to be a string. */
  lemma NonStringTypeMakesNothing(connectorType: string, fields: map<string, Value>)
    requires || (Lower(connectorType) == "mq" && "mq_type" in fields && !fields["mq_type"].Str?)
             || (Lower(connectorType) == "db" && "db_type" in fields && !fields["db_type"].Str?)
    ensures Created(connectorType, Object(fields)) == None
  {
  }

  /** An unsupported type makes nothing, whatever the config. */
  lemma UnsupportedMakesNothing(connectorType: string, config: Value)
    requires Lower(connectorType) !in {"kafka", "mq", "db"}
    ensures Created(connectorType, config) == None
  {
  }

  /** A connector as `create_connector` hands it out. */
  datatype Connector =
    | KafkaConnector(kafka: KafkaConnect.KafkaConnector)
    | MqConnector(mq: MqConnect.MqConnector)
    | DbConnector(db: DbConnect.DbConnector)
  {
    function KindOfConnector(): Kind {
      match this
      case KafkaConnector(_) => Kafka
      case MqConnector(_) => Mq
      case DbConnector(_) => Db
    }
  }

  /** A connector just built from `config`: its settings are the config's and it holds no connection yet. */
  predicate NewFrom(c: Connector, config: Value)
    reads match c case KafkaConnector(k) => {k} case MqConnector(m) => {m} case DbConnector(d) => {d}
  {
    match c
    case KafkaConnector(k) =>
      KafkaConnect.SettingsOf(config).Success? && k.settings == KafkaConnect.SettingsOf(config).value
      && !k.hasProducer && !k.hasConsumer
    case MqConnector(m) =>
      MqConnect.SettingsOf(config).Success? && m.settings == MqConnect.SettingsOf(config).value && !m.connected
    case DbConnector(d) =>
      DbConnect.SettingsOf(config).Success? && d.settings == DbConnect.SettingsOf(config).value && !d.connected
  }

  /**
   * `create_connector`: build the connector the lower-cased type names, or
   * nothing for an unsupported type or when the constructor raises.
   */
  method CreateConnector(connectorType: string, config: Value) returns (c: Option<Connector>)
    ensures c.Some? <==> Created(connectorType, config).Some?
    ensures c.Some? ==> c.value.KindOfConnector() == Created(connectorType, config).value && NewFrom(c.value, config)
  {
    match KindOf(connectorType)
    case None =>
      return None;
    case Some(k) =>
      c := Construct(k, config);
  }

  /** The `try` around the constructor: the connector, or nothing when its constructor raises. */
  method Construct(k: Kind, config: Value) returns (c: Option<Connector>)
    ensures c.Some? <==> Constructs(k, config)
    ensures c.Some? ==> c.value.KindOfConnector() == k && NewFrom(c.value, config)
  {
    if !Constructs(k, config) {
      return None;
    }
    match k
    case Kafka =>
      var kafka := new KafkaConnect.KafkaConnector(config);
      return Some(KafkaConnector(kafka));
    case Mq =>
      var mq := new MqConnect.MqConnector(config);
      return Some(MqConnector(mq));
    case Db =>
      var db := new DbConnect.DbConnector(config);
      return Some(DbConnector(db));
  }

  /** `create_kafka_connector`: `create_connector('kafka', config)`. */
  method CreateKafkaConnector(config: Value) returns (c: Option<Connector>)
    ensures c.Some? <==> Constructs(Kafka, config)
    ensures c.Some? ==> c.value.KafkaConnector? && NewFrom(c.value, config)
  {
    HelperKinds();
    c := CreateConnector("kafka", config);
  }

  /** `create_mq_connector`: `create_connector('mq', config)`. */
  method CreateMqConnector(config: Value) returns (c: Option<Connector>)
    ensures c.Some? <==> Constructs(Mq, config)
    ensures c.Some? ==> c.value.MqConnector? && NewFrom(c.value, config)
  {
    HelperKinds();
    c := CreateConnector("mq", config);
  }

  /** `create_db_connector`: `create_connector('db', config)`. */
  method CreateDbConnector(config: Value) returns (c: Option<Connector>)
    ensures c.Some? <==> Constructs(Db, config)
    ensures c.Some? ==> c.value.DbConnector? && NewFrom(c.value, config)
  {
    HelperKinds();
    c := CreateConnector("db", config);
  }

  /** The type names the typed helpers pass are recognised as such. */
  lemma HelperKinds()
    ensures KindOf("kafka") == Some(Kafka) && KindOf("mq") == Some(Mq) && KindOf("db") == Some(Db)
  {
    assert Lower("kafka") == "kafka" && Lower("mq") == "mq" && Lower("db") == "db";
  }
}
